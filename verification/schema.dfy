/** Loading the transaction sheet: column-name normalisation and the
    required-column check that `load_data` performs before any analytics. */
module Schema {
  import opened Wrappers

  /** The columns `load_data` insists on, in the order it checks them. */
  const Required: seq<string> :=
    ["barcode", "item_name", "qty", "pos_name", "tran_no", "tran_date", "rate", "item_total"]

  /** The fatal load error: the first required column that is absent. */
  datatype SchemaError = MissingColumn(name: string)

  /** Python's `str.isspace`: the characters `str.strip()` removes. */
  predicate IsSpace(c: char) {
    var n := c as int;
    || 9 <= n <= 13
    || 28 <= n <= 32
    || n == 0x85 || n == 0xA0 || n == 0x1680
    || 0x2000 <= n <= 0x200A
    || n == 0x2028 || n == 0x2029 || n == 0x202F || n == 0x205F || n == 0x3000
  }

  predicate IsUpper(c: char) {
    'A' <= c <= 'Z'
  }

  function ToLower(c: char): char {
    if IsUpper(c) then (c as int + 32) as char else c
  }

  /** How many whitespace characters `s` starts with. */
  function LeadingSpaces(s: string): (n: nat)
    ensures n <= |s|
    ensures forall i :: 0 <= i < n ==> IsSpace(s[i])
    ensures n < |s| ==> !IsSpace(s[n])
  {
    if |s| > 0 && IsSpace(s[0]) then
      var n := LeadingSpaces(s[1..]);
      assert forall i :: 1 <= i <= n ==> s[i] == s[1..][i - 1];
      n + 1
    else 0
  }

  /** How many whitespace characters `s` ends with. */
  function TrailingSpaces(s: string): (n: nat)
    ensures n <= |s|
    ensures forall i :: |s| - n <= i < |s| ==> IsSpace(s[i])
    ensures n < |s| ==> !IsSpace(s[|s| - n - 1])
  {
    if |s| > 0 && IsSpace(s[|s| - 1]) then
      var n := TrailingSpaces(s[..|s| - 1]);
      assert forall i :: 0 <= i < |s| - 1 ==> s[i] == s[..|s| - 1][i];
      n + 1
    else 0
  }

  /** Python's `str.strip()`: the slice of `s` left once the leading and the
      trailing whitespace are cut off; it neither starts nor ends with
      whitespace, and everything cut off is whitespace. */
  function Strip(s: string): (r: string)
    ensures var a := LeadingSpaces(s);
      && a + |r| <= |s|
      && r == s[a..a + |r|]
      && (forall i :: 0 <= i < a ==> IsSpace(s[i]))
      && (forall i :: a + |r| <= i < |s| ==> IsSpace(s[i]))
    ensures |r| > 0 ==> !IsSpace(r[0]) && !IsSpace(r[|r| - 1])
  {
    var a := LeadingSpaces(s);
    if a == |s| then [] else s[a..|s| - TrailingSpaces(s)]
  }

  /** Python's `str.lower()` on the ASCII letters. */
  function Lower(s: string): string {
    seq(|s|, i requires 0 <= i < |s| => ToLower(s[i]))
  }

  /** `str.replace(" ", "_")`. */
  function SpacesToUnderscores(s: string): string {
    seq(|s|, i requires 0 <= i < |s| => if s[i] == ' ' then '_' else s[i])
  }

  /** A column name in the form normalisation produces. */
  predicate IsNormal(s: string) {
    && (|s| > 0 ==> !IsSpace(s[0]) && !IsSpace(s[|s| - 1]))
    && (forall i :: 0 <= i < |s| ==> !IsUpper(s[i]) && s[i] != ' ')
  }

  /** One column name as `load_data` rewrites it: strip, lower, spaces to
      underscores. Each character of the stripped name is mapped on its own:
      a space becomes '_', an ASCII capital its lower-case letter, anything
      else stays. */
  function Normalise(name: string): (r: string)
    ensures |r| == |Strip(name)|
    ensures forall i :: 0 <= i < |r| ==>
      r[i] == (if Strip(name)[i] == ' ' then '_' else ToLower(Strip(name)[i]))
    ensures IsNormal(r)
  {
    SpacesToUnderscores(Lower(Strip(name)))
  }

  /** Normalisation is a projection onto the normal names: a name is left
      unchanged exactly when it is already normal. */
  lemma NormaliseFixes(s: string)
    ensures Normalise(s) == s <==> IsNormal(s)
  {
  }

  /** Normalising twice is normalising once. */
  lemma NormaliseIdempotent(s: string)
    ensures Normalise(Normalise(s)) == Normalise(s)
  {
  }

  /** Every header name normalised, position by position. */
  function NormaliseAll(header: seq<string>): (cols: seq<string>)
    ensures |cols| == |header|
    ensures forall i :: 0 <= i < |cols| ==> IsNormal(cols[i])
  {
    seq(|header|, i requires 0 <= i < |header| => Normalise(header[i]))
  }

  /** The first name of `required` missing from `cols`, scanning in order. */
  function FirstMissing(required: seq<string>, cols: seq<string>): (m: Option<string>)
    ensures m.None? <==> forall i :: 0 <= i < |required| ==> required[i] in cols
    ensures m.Some? ==> exists k :: (0 <= k < |required| && required[k] == m.value
      && required[k] !in cols && (forall j :: 0 <= j < k ==> required[j] in cols))
  {
    if |required| == 0 then None
    else if required[0] !in cols then Some(required[0])
    else
      assert forall k :: 0 <= k < |required| - 1 ==> required[1..][k] == required[k + 1];
      FirstMissing(required[1..], cols)
  }

  /** `load_data` after the read: the normalised columns, or the first
      required column (in the order of `Required`) that is missing. */
  function LoadColumns(header: seq<string>): (r: Result<seq<string>, SchemaError>)
    ensures r.Success? <==> forall i :: 0 <= i < |Required| ==> Required[i] in NormaliseAll(header)
    ensures r.Success? ==> r.value == NormaliseAll(header)
    ensures r.Failure? ==> exists k :: (0 <= k < |Required| && r.error == MissingColumn(Required[k])
      && Required[k] !in NormaliseAll(header)
      && (forall j :: 0 <= j < k ==> Required[j] in NormaliseAll(header)))
  {
    var cols := NormaliseAll(header);
    match FirstMissing(Required, cols)
    case Some(name) => Failure(MissingColumn(name))
    case None => Success(cols)
  }
}
