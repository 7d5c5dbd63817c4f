/**
 * Abstract JSON values, as produced by `json.load`/`json.loads` and consumed by
 * `json.dump`, together with the two Python coercions that the command processor
 * applies to them: truthiness (`bool(v)`) and the `int(v)` conversion of ports.
 * The JSON text grammar itself is not modelled.
 */
module Json {
  import opened Wrappers

  /** A decoded JSON document. Integral numbers are `Num`; numbers parsed as
      Python floats are `Frac`. Objects are maps (key order is not kept). */
  datatype Value =
    | Null
    | Bool(b: bool)
    | Num(n: int)
    | Frac(r: real)
    | Str(s: string)
    | Arr(items: seq<Value>)
    | Obj(fields: map<string, Value>)

  /** `dict.get(key, default)` */
  function Get(m: map<string, Value>, key: string, default: Value): (r: Value)
    ensures key in m ==> r == m[key]
    ensures key !in m ==> r == default
  {
    if key in m then m[key] else default
  }

  /** Python's `bool(v)` on a decoded JSON value. */
  predicate Truthy(v: Value) {
    match v
    case Null => false
    case Bool(b) => b
    case Num(n) => n != 0
    case Frac(r) => r != 0.0
    case Str(s) => s != ""
    case Arr(items) => items != []
    case Obj(fields) => fields != map[]
  }

  /** Python's `int(r)` on a float: truncation toward zero. */
  function Truncate(r: real): (n: int)
    ensures r >= 0.0 ==> n as real <= r < n as real + 1.0
    ensures r < 0.0 ==> n as real - 1.0 < r <= n as real
  {
    if r >= 0.0 then r.Floor else -((-r).Floor)
  }

  // ---------------------------------------------------------------------------
  // int(str): surrounding whitespace, an optional sign, decimal digits with
  // single underscores between them.

  predicate IsDigit(c: char) { '0' <= c <= '9' }

  /** The ASCII characters for which `str.isspace()` holds. */
  predicate IsSpace(c: char) {
    c == ' ' || (9 <= c as int <= 13) || (28 <= c as int <= 31)
  }

  function DigitValue(c: char): (d: nat)
    requires IsDigit(c)
    ensures d < 10
  {
    (c as int) - ('0' as int)
  }

  function DigitChar(d: nat): (c: char)
    requires d < 10
    ensures IsDigit(c) && DigitValue(c) == d
  {
    (('0' as int) + d) as char
  }

  /** Leading whitespace removed. */
  function TrimStart(s: string): (t: string)
    ensures |t| <= |s| && t == s[|s| - |t|..]
    ensures t == [] || !IsSpace(t[0])
  {
    if s != [] && IsSpace(s[0]) then TrimStart(s[1..]) else s
  }

  /** Trailing whitespace removed. */
  function TrimEnd(s: string): (t: string)
    ensures |t| <= |s| && t == s[..|t|]
    ensures t == [] || !IsSpace(t[|t| - 1])
  {
    if s != [] && IsSpace(s[|s| - 1]) then TrimEnd(s[..|s| - 1]) else s
  }

  /** A well-formed digit group: digits, an underscore only between two digits. */
  predicate WellFormedDigits(s: string) {
    s != [] && IsDigit(s[0]) && IsDigit(s[|s| - 1]) &&
    (forall i :: 0 <= i < |s| ==> IsDigit(s[i]) || s[i] == '_') &&
    (forall i :: 0 <= i < |s| - 1 ==> s[i] == '_' ==> s[i + 1] != '_')
  }

  /** Value of a digit string, underscores skipped (most significant first). */
  function DigitsValue(s: string): nat
    requires forall i :: 0 <= i < |s| ==> IsDigit(s[i]) || s[i] == '_'
  {
    if s == [] then 0
    else if s[|s| - 1] == '_' then DigitsValue(s[..|s| - 1])
    else 10 * DigitsValue(s[..|s| - 1]) + DigitValue(s[|s| - 1])
  }

  /** A trimmed numeral: an optional sign followed by a digit group. */
  function ParseSigned(t: string): Option<int> {
    var sign := if t != [] && t[0] == '-' then -1 else 1;
    var body := if t != [] && (t[0] == '-' || t[0] == '+') then t[1..] else t;
    if WellFormedDigits(body) then Some(sign * DigitsValue(body)) else None
  }

  /** `int(s)` for a string, `None` where Python raises `ValueError`. */
  function ParseInt(s: string): Option<int> {
    ParseSigned(TrimEnd(TrimStart(s)))
  }

  /** Python's `int(v)` for a decoded JSON value; `None` where it raises. */
  function PyInt(v: Value): (r: Option<int>)
    ensures v.Num? ==> r == Some(v.n)
    ensures v.Null? || v.Arr? || v.Obj? ==> r == None
  {
    match v
    case Null => None
    case Bool(b) => Some(if b then 1 else 0)
    case Num(n) => Some(n)
    case Frac(r) => Some(Truncate(r))
    case Str(s) => ParseInt(s)
    case Arr(_) => None
    case Obj(_) => None
  }

  // ---------------------------------------------------------------------------
  // Decimal rendering, the inverse that the port parser is checked against.

  /** `str(n)` for a natural number. */
  function ShowNat(n: nat): (s: string)
    ensures s != [] && forall i :: 0 <= i < |s| ==> IsDigit(s[i])
    decreases n
  {
    if n < 10 then [DigitChar(n)] else ShowNat(n / 10) + [DigitChar(n % 10)]
  }

  /** `str(n)` for an integer. */
  function ShowInt(n: int): string {
    if n < 0 then "-" + ShowNat(-n) else ShowNat(n)
  }

  lemma {:induction false} DigitsValueOfShowNat(n: nat)
    ensures DigitsValue(ShowNat(n)) == n
    decreases n
  {
    var s := ShowNat(n);
    if n < 10 {
      assert s[..|s| - 1] == [];
    } else {
      DigitsValueOfShowNat(n / 10);
      assert s[..|s| - 1] == ShowNat(n / 10);
    }
  }

  lemma TrimOfDigitsOnly(s: string)
    requires s != [] && !IsSpace(s[0]) && !IsSpace(s[|s| - 1])
    ensures TrimEnd(TrimStart(s)) == s
  {
  }

  lemma ShowNatWellFormed(m: nat)
    ensures WellFormedDigits(ShowNat(m))
  {
  }

  lemma {:induction false} ParseSignedShowInt(n: int)
    ensures ParseSigned(ShowInt(n)) == Some(n)
  {
    var m: nat := if n < 0 then -n else n;
    DigitsValueOfShowNat(m);
    ShowNatWellFormed(m);
    if n < 0 {
      assert ShowInt(n)[1..] == ShowNat(m);
    }
  }

  /** A port written as a decimal string, possibly signed, parses back to itself:
      `int(str(n)) == n`. */
  lemma {:induction false} ParseIntShowInt(n: int)
    ensures ParseInt(ShowInt(n)) == Some(n)
    ensures PyInt(Str(ShowInt(n))) == Some(n)
  {
    ShowIntEnds(n);
    TrimOfDigitsOnly(ShowInt(n));
    ParseSignedShowInt(n);
  }

  lemma ShowIntEnds(n: int)
    ensures var s := ShowInt(n); s != [] && !IsSpace(s[0]) && !IsSpace(s[|s| - 1])
  {
    var digits := ShowNat(if n < 0 then -n else n);
    assert IsDigit(digits[|digits| - 1]);
    if n < 0 {
      assert ShowInt(n)[|ShowInt(n)| - 1] == digits[|digits| - 1];
    } else {
      assert IsDigit(digits[0]);
    }
  }

  /** Whitespace around a number is ignored: `int(" 42\n") == int("42")`. */
  lemma {:induction false} ParseIntIgnoresSpaces(pre: string, s: string, post: string)
    requires forall i :: 0 <= i < |pre| ==> IsSpace(pre[i])
    requires forall i :: 0 <= i < |post| ==> IsSpace(post[i])
    requires s != [] && !IsSpace(s[0]) && !IsSpace(s[|s| - 1])
    ensures ParseInt(pre + s + post) == ParseInt(s)
  {
    TrimStartSpaces(pre, s + post);
    assert pre + s + post == pre + (s + post);
    TrimEndSpaces(s, post);
    TrimOfDigitsOnly(s);
  }

  lemma {:induction false} TrimStartSpaces(pre: string, s: string)
    requires forall i :: 0 <= i < |pre| ==> IsSpace(pre[i])
    requires s != [] && !IsSpace(s[0])
    ensures TrimStart(pre + s) == s
    decreases |pre|
  {
    if pre == [] {
      assert pre + s == s;
    } else {
      assert (pre + s)[1..] == pre[1..] + s;
      TrimStartSpaces(pre[1..], s);
    }
  }

  lemma {:induction false} TrimEndSpaces(s: string, post: string)
    requires forall i :: 0 <= i < |post| ==> IsSpace(post[i])
    requires s != [] && !IsSpace(s[|s| - 1])
    ensures TrimEnd(s + post) == TrimEnd(s)
    decreases |post|
  {
    if post == [] {
      assert s + post == s;
    } else {
      var q := post[..|post| - 1];
      assert (s + post)[..|s + post| - 1] == s + q;
      TrimEndSpaces(s, q);
    }
  }

  /** A string without a single decimal digit is not a port. */
  lemma NoDigitNoInt(s: string)
    requires forall i :: 0 <= i < |s| ==> !IsDigit(s[i])
    ensures ParseInt(s) == None
  {
    var u := TrimEnd(TrimStart(s));
    var body := if u != [] && (u[0] == '-' || u[0] == '+') then u[1..] else u;
    if body != [] {
      var off := |s| - |TrimStart(s)|;
      var k := if u != [] && (u[0] == '-' || u[0] == '+') then 1 else 0;
      assert u == TrimStart(s)[..|u|];
      assert body[0] == s[off + k];
    }
  }
}
