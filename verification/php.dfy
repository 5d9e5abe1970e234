/**
 * The PHP language semantics that the track service relies on: `isset`, truthiness,
 * the `(int)` cast of a string, int-to-string coercion, and `implode`/`explode` with
 * the separator ", ".
 */
module Php {

  /** A scalar that a decoded JSON request body holds under one key. */
  datatype Value = Null | Int(i: int) | Str(s: string)

  /** A decoded request body: the associative array handed to the service. */
  type Payload = map<string, Value>

  /** `isset($data[k])`: the key is present and its value is not null. */
  predicate IsSet(data: Payload, k: string) {
    k in data && !data[k].Null?
  }

  /** PHP truthiness of a scalar: null, 0, "" and "0" are falsy. */
  predicate Falsy(v: Value)
    ensures Falsy(v) <==> v in {Null, Int(0), Str(""), Str("0")}
  {
    match v
    case Null => true
    case Int(i) => i == 0
    case Str(s) => s == "" || s == "0"
  }

  predicate IsDigit(c: char) {
    '0' <= c <= '9'
  }

  predicate AllDigits(s: string) {
    forall i :: 0 <= i < |s| ==> IsDigit(s[i])
  }

  /** The whitespace PHP skips in front of a numeric string. */
  predicate IsSpace(c: char) {
    c == ' ' || c == '\t' || c == '\n' || c == '\r' || c == '\U{000B}' || c == '\U{000C}'
  }

  function DigitChar(d: nat): (c: char)
    requires d < 10
    ensures IsDigit(c)
  {
    ('0' as int + d) as char
  }

  function DigitValue(c: char): (d: nat)
    requires IsDigit(c)
    ensures d < 10 && DigitChar(d) == c
  {
    c as int - '0' as int
  }

  /** The number written by a run of decimal digits, most significant first. */
  function DigitsValue(ds: string): nat
    requires AllDigits(ds)
  {
    if ds == [] then 0 else DigitsValue(ds[..|ds| - 1]) * 10 + DigitValue(ds[|ds| - 1])
  }

  /** The decimal digits of a natural number, without leading zeros. */
  function NatString(n: nat): (s: string)
    ensures |s| > 0 && AllDigits(s)
    ensures s[0] != '0' || n == 0
  {
    if n < 10 then [DigitChar(n)] else NatString(n / 10) + [DigitChar(n % 10)]
  }

  /** PHP's conversion of an integer to a string. */
  function DecimalString(n: int): (s: string)
    ensures |s| > 0 && (IsDigit(s[0]) || s[0] == '-')
  {
    if n < 0 then "-" + NatString(-n) else NatString(n)
  }

  /** The length of the run of digits that starts `s`. */
  function DigitRun(s: string): (k: nat)
    ensures k <= |s| && AllDigits(s[..k])
    ensures k < |s| ==> !IsDigit(s[k])
  {
    if s == [] || !IsDigit(s[0]) then 0
    else
      var k := 1 + DigitRun(s[1..]);
      assert s[..k] == [s[0]] + s[1..][..k - 1];
      k
  }

  /** `s` with its leading whitespace removed. */
  function SkipSpace(s: string): (t: string)
    ensures |t| <= |s| && t == s[|s| - |t|..]
    ensures t == [] || !IsSpace(t[0])
  {
    if s != [] && IsSpace(s[0]) then SkipSpace(s[1..]) else s
  }

  /** A string all of digits has no leading space and is one whole digit run. */
  lemma AllDigitsRead(s: string)
    ensures AllDigits(s) ==> SkipSpace(s) == s && DigitRun(s) == |s| && s[..DigitRun(s)] == s
  {
    if AllDigits(s) {
      assert s + [] == s;
      DigitRunOfDigitsThen(s, []);
      if s != [] {
        assert !IsSpace(s[0]);
      }
    }
  }

  /** A string whose first non-space character is a sign is not all digits. */
  lemma NotAllDigitsOfSign(s: string)
    requires SkipSpace(s) != [] && SkipSpace(s)[0] in "+-"
    ensures !AllDigits(s)
  {
    var t := SkipSpace(s);
    assert s[|s| - |t|] == t[0];
  }

  /**
   * The `(int)` cast of an integer-shaped string: leading whitespace, an optional sign,
   * then the longest run of decimal digits; text after the digit run is not read, and no
   * digits at all gives 0.
   */
  function StringToInt(s: string): (r: int)
    ensures AllDigits(s) ==> r == DigitsValue(s)
    ensures r < 0 ==> SkipSpace(s) != [] && SkipSpace(s)[0] == '-'
    ensures SkipSpace(s) == [] || !(IsDigit(SkipSpace(s)[0]) || SkipSpace(s)[0] in "+-") ==> r == 0
  {
    var t := SkipSpace(s);
    if t != [] && (t[0] == '-' || t[0] == '+') then
      NotAllDigitsOfSign(s);
      var u := t[1..];
      var n: int := DigitsValue(u[..DigitRun(u)]);
      if t[0] == '-' then -n else n
    else
      AllDigitsRead(s);
      DigitsValue(t[..DigitRun(t)])
  }

  /** The `(int)` cast of a scalar. */
  function IntCast(v: Value): (r: int)
    ensures v.Int? ==> r == v.i
    ensures Falsy(v) ==> r == 0
    ensures v.Str? && AllDigits(v.s) ==> r == DigitsValue(v.s)
  {
    match v
    case Null => 0
    case Int(i) => i
    case Str(s) => StringToInt(s)
  }

  /** The coercion of a scalar to a string parameter (`null` becomes ""). */
  function ToStr(v: Value): string {
    match v
    case Null => ""
    case Int(i) => DecimalString(i)
    case Str(s) => s
  }

  lemma {:induction false} DigitsValueOfNatString(n: nat)
    ensures DigitsValue(NatString(n)) == n
  {
    if n >= 10 {
      var s := NatString(n);
      assert s[..|s| - 1] == NatString(n / 10);
      DigitsValueOfNatString(n / 10);
    }
  }

  lemma {:induction false} DigitRunOfDigitsThen(ds: string, rest: string)
    requires AllDigits(ds)
    requires rest == [] || !IsDigit(rest[0])
    ensures DigitRun(ds + rest) == |ds|
  {
    if ds != [] {
      assert (ds + rest)[1..] == ds[1..] + rest;
      DigitRunOfDigitsThen(ds[1..], rest);
    }
  }

  lemma DigitsThenRestValue(m: nat, rest: string)
    requires rest == [] || !IsDigit(rest[0])
    ensures var u := NatString(m) + rest; DigitsValue(u[..DigitRun(u)]) == m
  {
    var ds := NatString(m);
    var u := ds + rest;
    DigitRunOfDigitsThen(ds, rest);
    DigitsValueOfNatString(m);
    assert u[..DigitRun(u)] == ds;
  }

  /** Text starting with a digit is read by its leading digit run alone. */
  lemma StringToIntOfDigitStart(t: string)
    requires t != [] && IsDigit(t[0])
    ensures StringToInt(t) == DigitsValue(t[..DigitRun(t)])
  {
    assert SkipSpace(t) == t;
  }

  /** A minus sign in front negates the value of the digit run that follows it. */
  lemma StringToIntOfMinus(u: string)
    ensures StringToInt("-" + u) == -(DigitsValue(u[..DigitRun(u)]) as int)
  {
    var s := "-" + u;
    assert s != [] && s[0] == '-' && !IsSpace(s[0]);
    assert SkipSpace(s) == s;
    assert s[1..] == u;
  }

  lemma CastReadsUnsigned(m: nat, rest: string)
    requires rest == [] || !IsDigit(rest[0])
    ensures StringToInt(NatString(m) + rest) == m
  {
    var u := NatString(m) + rest;
    DigitsThenRestValue(m, rest);
    assert u[0] == NatString(m)[0];
    StringToIntOfDigitStart(u);
  }

  lemma CastReadsNegative(m: nat, rest: string)
    requires rest == [] || !IsDigit(rest[0])
    ensures StringToInt("-" + (NatString(m) + rest)) == -(m as int)
  {
    DigitsThenRestValue(m, rest);
    StringToIntOfMinus(NatString(m) + rest);
  }

  /**
   * The `(int)` cast reads back the integer that PHP writes, also when the number is
   * followed by text that does not start with a digit ("180" gives 180, "12abc" gives 12).
   */
  lemma CastReadsLeadingNumber(n: int, rest: string)
    requires rest == [] || !IsDigit(rest[0])
    ensures StringToInt(DecimalString(n) + rest) == n
  {
    if n < 0 {
      var m: nat := -n;
      assert DecimalString(n) == "-" + NatString(m);
      assert DecimalString(n) + rest == "-" + (NatString(m) + rest);
      CastReadsNegative(m, rest);
    } else {
      CastReadsUnsigned(n, rest);
    }
  }

  /** The `(int)` cast of PHP's decimal string of `n` is `n`. */
  lemma CastOfDecimalString(n: int)
    ensures IntCast(Str(DecimalString(n))) == n
  {
    CastReadsLeadingNumber(n, "");
    assert DecimalString(n) + "" == DecimalString(n);
  }

  /** `implode(", ", parts)`. */
  function Implode(parts: seq<string>): (r: string)
    ensures parts == [] ==> r == ""
    ensures |parts| > 0 ==> |parts[0]| <= |r| && r[..|parts[0]|] == parts[0]
    ensures |parts| > 1 ==> |parts[0]| + 2 <= |r| && r[|parts[0]|..|parts[0]| + 2] == ", "
  {
    if parts == [] then ""
    else if |parts| == 1 then parts[0]
    else parts[0] + ", " + Implode(parts[1..])
  }

  /** The string contains the separator ", ". */
  predicate HasSeparator(s: string) {
    exists i :: 0 <= i < |s| - 1 && s[i] == ',' && s[i + 1] == ' '
  }

  /** `explode(", ", s)`: the pieces between occurrences of ", ", scanning from the left. */
  function Explode(s: string): (parts: seq<string>)
    ensures |parts| >= 1
  {
    if |s| >= 2 && s[0] == ',' && s[1] == ' ' then [""] + Explode(s[2..])
    else if s == [] then [""]
    else
      var rest := Explode(s[1..]);
      [[s[0]] + rest[0]] + rest[1..]
  }

  lemma {:induction false} ExplodeAfterPiece(m: string, t: string)
    requires !HasSeparator(m)
    requires !(|m| > 0 && m[|m| - 1] == ',' && |t| > 0 && t[0] == ' ')
    ensures Explode(m + t) == [m + Explode(t)[0]] + Explode(t)[1..]
  {
    if m == [] {
      assert m + t == t;
      var e := Explode(t);
      assert m + e[0] == e[0];
      assert [e[0]] + e[1..] == e;
    } else {
      var m' := m[1..];
      assert m + t == [m[0]] + (m' + t);
      assert (m + t)[1..] == m' + t;
      if m' != [] {
        assert !(m[0] == ',' && m[1] == ' ');
        assert m'[|m'| - 1] == m[|m| - 1];
        assert !HasSeparator(m') by {
          forall i | 0 <= i < |m'| - 1
            ensures !(m'[i] == ',' && m'[i + 1] == ' ')
          {
            assert m'[i] == m[i + 1] && m'[i + 1] == m[i + 2];
          }
        }
      }
      assert !(|m + t| >= 2 && (m + t)[0] == ',' && (m + t)[1] == ' ') by {
        if m' != [] {
          assert (m + t)[1] == m[1];
        } else if |t| > 0 {
          assert (m + t)[1] == t[0];
        }
      }
      var s := m + t;
      var r := Explode(s[1..]);
      assert Explode(s) == [[s[0]] + r[0]] + r[1..];
      ExplodeAfterPiece(m', t);
      var e := Explode(t);
      assert r == [m' + e[0]] + e[1..];
      assert r[0] == m' + e[0] && r[1..] == e[1..];
      assert [s[0]] + r[0] == m + e[0] by {
        assert m == [m[0]] + m';
      }
    }
  }

  /**
   * A message list whose messages contain no ", " can be recovered from its implode;
   * with such a separator inside a message the boundaries are lost.
   */
  lemma {:induction false} ExplodeImplode(parts: seq<string>)
    requires |parts| >= 1
    requires forall i :: 0 <= i < |parts| ==> !HasSeparator(parts[i])
    ensures Explode(Implode(parts)) == parts
  {
    if |parts| == 1 {
      ExplodeAfterPiece(parts[0], "");
      assert parts[0] + "" == parts[0];
    } else {
      var tail := Implode(parts[1..]);
      ExplodeImplode(parts[1..]);
      assert Implode(parts) == parts[0] + (", " + tail);
      ExplodeAfterPiece(parts[0], ", " + tail);
      assert (", " + tail)[2..] == tail;
      var e := Explode(", " + tail);
      assert e == [""] + parts[1..];
      assert parts[0] + e[0] == parts[0] && e[1..] == parts[1..];
      assert parts == [parts[0]] + parts[1..];
    }
  }

  /** Two different message lists that implode to the same text. */
  lemma ImplodeIsNotInjective()
    ensures Implode(["a, b"]) == Implode(["a", "b"])
  {
  }
}
