/**
 * The small part of PHP's value semantics that the form engine relies on:
 * a value type for submitted data, `empty()`, the loose comparison `==`,
 * `trim()`, and the string conversions used by `preg_match` and by string
 * concatenation.
 */
module PhpValue {

  datatype Option<+T> = None | Some(value: T)

  /** A PHP value as it reaches the form: null, a boolean, an integer, a
      string or a list (PHP arrays with keys 0..n-1). */
  datatype Value = Null | Bool(b: bool) | Int(i: int) | Str(s: string) | Arr(items: seq<Value>)

  /** PHP `empty()`: null, false, 0, "", "0" and the empty array. */
  predicate Empty(v: Value)
  {
    match v
    case Null => true
    case Bool(b) => !b
    case Int(i) => i == 0
    case Str(s) => s == "" || s == "0"
    case Arr(xs) => xs == []
  }

  /** Reading `$m[$k]`: a missing key reads as null. */
  function Lookup(m: map<string, Value>, k: string): (v: Value)
    ensures k !in m ==> v == Null
  {
    if k in m then m[k] else Null
  }

  /** PHP `isset($m[$k])`: the key is present and its value is not null. */
  predicate IsSet(m: map<string, Value>, k: string)
  {
    k in m && m[k] != Null
  }

  function DigitChar(d: int): (c: char)
    requires 0 <= d < 10
    ensures '0' <= c <= '9'
  {
    ('0' as int + d) as char
  }

  /** Decimal rendering of a natural number, most significant digit first. */
  function NatToString(n: nat): (s: string)
    ensures |s| >= 1
    ensures forall i :: 0 <= i < |s| ==> '0' <= s[i] <= '9'
    decreases n
  {
    if n < 10 then [DigitChar(n)] else NatToString(n / 10) + [DigitChar(n % 10)]
  }

  /** PHP's `(string)` of an integer. */
  function IntToString(i: int): (s: string)
    ensures |s| >= 1
  {
    if i < 0 then "-" + NatToString(-i) else NatToString(i)
  }

  /** PHP's conversion of a value to string, as done by concatenation. */
  function ToText(v: Value): string
  {
    match v
    case Null => ""
    case Bool(b) => if b then "1" else ""
    case Int(i) => IntToString(i)
    case Str(s) => s
    case Arr(_) => "Array"
  }

  /** The subject `preg_match` sees for a value, or None when PHP refuses it (an array). */
  function Subject(v: Value): (r: Option<string>)
    ensures r.None? <==> v.Arr?
  {
    if v.Arr? then None else Some(ToText(v))
  }

  /** PHP's loose comparison `==`, restricted to the comparisons the form makes
      (see README for what is simplified: numeric strings compare as strings). */
  predicate LooseEquals(a: Value, b: Value)
  {
    match (a, b)
    case (Bool(x), _) => x == !Empty(b)
    case (_, Bool(y)) => y == !Empty(a)
    case (Null, Null) => true
    case (Null, Str(t)) => t == ""
    case (Str(s), Null) => s == ""
    case (Null, _) => Empty(b)
    case (_, Null) => Empty(a)
    case (Int(x), Int(y)) => x == y
    case (Int(x), Str(t)) => t == IntToString(x)
    case (Str(s), Int(y)) => s == IntToString(y)
    case (Str(s), Str(t)) => s == t
    case (Arr(xs), Arr(ys)) => xs == ys
    case _ => false
  }

  lemma {:induction false} LooseEqualsSymmetric(a: Value, b: Value)
    ensures LooseEquals(a, b) == LooseEquals(b, a)
  {
  }

  /** The characters PHP's `trim()` strips by default: space, tab, newline,
      carriage return, NUL and vertical tab. */
  predicate IsTrimChar(c: char)
  {
    c == ' ' || c == '\t' || c == '\n' || c == '\r' || c == '\0' || c == '\U{000B}'
  }

  /** Every character of `s` in `[i, j)` is one `trim()` strips. */
  predicate StripsOnly(s: string, i: nat, j: nat)
    requires i <= j <= |s|
    decreases j - i
  {
    i == j || (IsTrimChar(s[i]) && StripsOnly(s, i + 1, j))
  }

  lemma {:induction false} StripsOnlySnoc(s: string, i: nat, j: nat)
    requires i <= j < |s| && StripsOnly(s, i, j) && IsTrimChar(s[j])
    ensures StripsOnly(s, i, j + 1)
    decreases j - i
  {
    if i < j {
      StripsOnlySnoc(s, i + 1, j);
    }
  }

  /** `StripsOnly` says of the range what a quantifier over its positions says. */
  lemma {:induction false} StripsOnlyAt(s: string, i: nat, j: nat)
    requires i <= j <= |s|
    ensures StripsOnly(s, i, j) <==> forall k :: i <= k < j ==> IsTrimChar(s[k])
    decreases j - i
  {
    if i < j {
      StripsOnlyAt(s, i + 1, j);
    }
  }

  /** The scan for the first character `trim()` keeps, starting at `i`. */
  function SkipLeading(s: string, i: nat): (k: nat)
    requires i <= |s|
    ensures i <= k <= |s| && StripsOnly(s, i, k)
    ensures k < |s| ==> !IsTrimChar(s[k])
    decreases |s| - i
  {
    if i < |s| && IsTrimChar(s[i]) then SkipLeading(s, i + 1) else i
  }

  /** The scan back from `j` for the end of what `trim()` keeps, stopping at `lo`. */
  function SkipTrailing(s: string, lo: nat, j: nat): (k: nat)
    requires lo <= j <= |s|
    ensures lo <= k <= j && StripsOnly(s, k, j)
    ensures k > lo ==> !IsTrimChar(s[k - 1])
    decreases j
  {
    if j > lo && IsTrimChar(s[j - 1]) then
      var k := SkipTrailing(s, lo, j - 1);
      StripsOnlySnoc(s, k, j - 1);
      k
    else j
  }

  /** PHP `trim()`: the infix left after stripping the strippable characters at
      both ends, which starts and ends with a character it keeps. */
  function Trim(s: string): (r: string)
    ensures |r| > 0 ==> !IsTrimChar(r[0]) && !IsTrimChar(r[|r| - 1])
    ensures var a := SkipLeading(s, 0);
      && a + |r| <= |s| && r == s[a..a + |r|]
      && StripsOnly(s, 0, a) && StripsOnly(s, a + |r|, |s|)
  {
    var a := SkipLeading(s, 0);
    s[a..SkipTrailing(s, a, |s|)]
  }

  /** Trimming a string that starts and ends with a non-strippable character leaves it alone. */
  lemma TrimKeepsClean(s: string)
    requires |s| > 0 && !IsTrimChar(s[0]) && !IsTrimChar(s[|s| - 1])
    ensures Trim(s) == s
  {
  }
}
