/** The few JavaScript built-ins the console's logic relies on, over explicit
    values: truthiness, `parseInt`, `String(n)`, `toUpperCase` and `split`. */
module Js {
  import opened Wrappers

  /** A scalar as it reaches the console from a form control, a spreadsheet
      cell or a record field copied into a form. Numbers are integers here. */
  datatype Value = Null | Str(s: string) | Num(n: int)

  /** JavaScript truthiness of a scalar: `null`, `''` and `0` are falsy. */
  predicate Truthy(v: Value)
  {
    match v
    case Null => false
    case Str(s) => s != ""
    case Num(n) => n != 0
  }

  /** The result of `parseInt`: a number or NaN. */
  datatype IntOrNaN = NaN | Int(i: int)

  /** `parseInt(x) || 0`: NaN (and 0) become 0. */
  function OrZero(r: IntOrNaN): int
  {
    match r
    case NaN => 0
    case Int(i) => i
  }

  predicate IsDigit(c: char) { '0' <= c <= '9' }

  predicate AllDigits(s: string) { forall k | 0 <= k < |s| :: IsDigit(s[k]) }

  /** The white space `parseInt` skips before the number (the ASCII ones). */
  predicate IsSpace(c: char)
  {
    c == ' ' || c == '\t' || c == '\n' || c == '\r' || c == '\U{B}' || c == '\U{C}'
  }

  function DigitChar(d: nat): (c: char)
    requires d < 10
    ensures IsDigit(c) && c as int == '0' as int + d
  {
    ('0' as int + d) as char
  }

  function DigitValue(c: char): (d: nat)
    requires IsDigit(c)
    ensures d < 10 && DigitChar(d) == c
  {
    c as int - '0' as int
  }

  /** The number a string of decimal digits denotes, most significant first. */
  function DecimalValue(d: string): nat
    requires AllDigits(d)
  {
    if d == [] then 0 else DecimalValue(d[..|d| - 1]) * 10 + DigitValue(d[|d| - 1])
  }

  /** Length of the longest prefix of `s` made of decimal digits. */
  function DigitPrefixLength(s: string): (n: nat)
    ensures n <= |s|
    ensures AllDigits(s[..n])
    ensures n < |s| ==> !IsDigit(s[n])
  {
    if s == [] || !IsDigit(s[0]) then 0
    else
      var n := 1 + DigitPrefixLength(s[1..]);
      assert s[..n] == [s[0]] + s[1..][..n - 1];
      n
  }

  function SkipSpaces(s: string): (r: string)
    ensures |r| <= |s| && r == s[|s| - |r|..]
    ensures r == [] || !IsSpace(r[0])
  {
    if s != [] && IsSpace(s[0]) then SkipSpaces(s[1..]) else s
  }

  /** `parseInt(s)` in radix 10: leading white space skipped, an optional sign,
      then the longest run of decimal digits; NaN when there is no digit. */
  function ParseInt(s: string): (r: IntOrNaN)
    ensures r.Int? ==> exists k | 0 <= k < |s| :: IsDigit(s[k])
  {
    var t := SkipSpaces(s);
    var signed := |t| > 0 && (t[0] == '-' || t[0] == '+');
    var u := if signed then t[1..] else t;
    var n := DigitPrefixLength(u);
    if n == 0 then NaN
    else
      assert IsDigit(s[|s| - |u|]);
      var m: int := DecimalValue(u[..n]);
      Int(if signed && t[0] == '-' then -m else m)
  }

  /** `parseInt` applied to a scalar: a number is converted to text first,
      which gives the number back; `null` gives NaN. */
  function ParseIntValue(v: Value): IntOrNaN
  {
    match v
    case Null => NaN
    case Str(s) => ParseInt(s)
    case Num(n) => Int(n)
  }

  /** `x || d` on scalars: `x` unless it is falsy. */
  function OrValue(x: Value, d: Value): (r: Value)
    ensures Truthy(x) ==> r == x
    ensures !Truthy(x) ==> r == d
  {
    if Truthy(x) then x else d
  }

  /** `n || ''` for a numeric field copied into a form input. */
  function NumberOrEmpty(n: int): (v: Value)
    ensures OrZero(ParseIntValue(v)) == n
    ensures Truthy(v) <==> n != 0
  {
    if n != 0 then Num(n) else Str("")
  }

  /** A plain object read by property name, as a parsed spreadsheet row; a
      property it lacks reads as `undefined`, falsy like `null`. */
  type Object = map<string, Value>

  function Prop(o: Object, key: string): (v: Value)
    ensures key !in o ==> v == Null
    ensures key in o ==> v == o[key]
  {
    if key in o then o[key] else Null
  }

  /** Decimal digits of a natural number, with no leading zeros. */
  function NatDigits(n: nat): (d: string)
    ensures |d| >= 1 && AllDigits(d)
    ensures DecimalValue(d) == n
    ensures |d| > 1 ==> d[0] != '0'
  {
    if n < 10 then [DigitChar(n)]
    else
      var d := NatDigits(n / 10) + [DigitChar(n % 10)];
      assert d[..|d| - 1] == NatDigits(n / 10);
      d
  }

  /** `String(n)` for an integer. */
  function IntToString(n: int): (s: string)
    ensures |s| >= 1
  {
    if n < 0 then "-" + NatDigits(-n) else NatDigits(n)
  }

  /** `parseInt(String(n))` gives n back. */
  lemma ParseIntOfIntToString(n: int)
    ensures ParseInt(IntToString(n)) == Int(n)
  {
    var s := IntToString(n);
    var d := if n < 0 then NatDigits(-n) else NatDigits(n);
    assert !IsSpace(s[0]);
    assert SkipSpaces(s) == s;
    if n < 0 {
      assert s[1..] == d;
    } else {
      assert s == d && IsDigit(s[0]);
    }
    assert DigitPrefixLength(d) == |d|;
    assert d[..|d|] == d;
  }

  /** `String(v)` for a scalar. */
  function ValueToString(v: Value): string
  {
    match v
    case Null => "null"
    case Str(s) => s
    case Num(n) => IntToString(n)
  }

  /** `toUpperCase` on one character: ASCII and Latin-1 lower-case letters
      (which include the Spanish accented vowels, ñ and ü). */
  function UpperChar(c: char): (u: char)
  {
    if 'a' <= c <= 'z' || ('\U{E0}' <= c <= '\U{FE}' && c != '\U{F7}') then
      (c as int - 32) as char
    else c
  }

  predicate IsUpperFixed(c: char) { UpperChar(c) == c }

  /** `s.toUpperCase()`. */
  function Upper(s: string): (r: string)
    ensures |r| == |s|
    ensures forall k | 0 <= k < |s| :: r[k] == UpperChar(s[k])
  {
    if s == [] then [] else [UpperChar(s[0])] + Upper(s[1..])
  }

  /** Upper-casing twice is upper-casing once. */
  lemma {:induction false} UpperIdempotent(s: string)
    ensures Upper(Upper(s)) == Upper(s)
  {
    var u := Upper(s);
    forall k | 0 <= k < |s| ensures Upper(u)[k] == u[k] {
      var c := s[k];
      if 'a' <= c <= 'z' || ('\U{E0}' <= c <= '\U{FE}' && c != '\U{F7}') {
        assert u[k] as int == c as int - 32;
      }
    }
  }

  /** `s.split(sep)` for a one-character separator. */
  function Split(s: string, sep: char): (parts: seq<string>)
    ensures |parts| >= 1
  {
    if s == [] then [""]
    else
      var rest := Split(s[1..], sep);
      if s[0] == sep then [""] + rest else [[s[0]] + rest[0]] + rest[1..]
  }

  /** `parts.join(sep)`. */
  function Join(parts: seq<string>, sep: char): string
  {
    if |parts| == 0 then ""
    else if |parts| == 1 then parts[0]
    else parts[0] + [sep] + Join(parts[1..], sep)
  }

  /** Number of occurrences of `c` in `s`. */
  function Occurrences(s: string, c: char): nat
  {
    if s == [] then 0 else (if s[0] == c then 1 else 0) + Occurrences(s[1..], c)
  }

  /** Splitting yields one more part than there are separators, no part holds
      the separator, and joining the parts with it gives the string back. */
  lemma {:induction false} SplitJoin(s: string, sep: char)
    ensures |Split(s, sep)| == Occurrences(s, sep) + 1
    ensures forall k | 0 <= k < |Split(s, sep)| :: sep !in Split(s, sep)[k]
    ensures Join(Split(s, sep), sep) == s
  {
    if s != [] {
      var rest := Split(s[1..], sep);
      SplitJoin(s[1..], sep);
      if s[0] == sep {
        assert Split(s, sep)[1..] == rest;
        assert s == [] + [sep] + s[1..];
      } else {
        var parts := Split(s, sep);
        assert parts[1..] == rest[1..];
        assert sep !in [s[0]] + rest[0];
        if |rest| == 1 {
          assert Join(parts, sep) == [s[0]] + rest[0];
        } else {
          assert Join(rest, sep) == rest[0] + [sep] + Join(rest[1..], sep);
          assert Join(parts, sep) == [s[0]] + rest[0] + [sep] + Join(rest[1..], sep);
        }
      }
    }
  }

  /** The first part of a split is everything before the first separator. */
  lemma {:induction false} SplitFirst(d: string, sep: char, rest: string)
    requires sep !in d
    ensures Split(d + [sep] + rest, sep)[0] == d
  {
    if d != [] {
      assert (d + [sep] + rest)[1..] == d[1..] + [sep] + rest;
      SplitFirst(d[1..], sep, rest);
    } else {
      assert d + [sep] + rest == [sep] + rest;
    }
  }

  /** `x.toFixed(2)` for an amount x held exactly as integer hundredths. */
  function FixedTwo(cents: int): (s: string)
    ensures |s| >= 4 && s[|s| - 3] == '.'
    ensures AllDigits(s[|s| - 2..])
  {
    var a := if cents < 0 then -cents else cents;
    var frac := [DigitChar(a % 100 / 10), DigitChar(a % 10)];
    assert AllDigits(frac);
    (if cents < 0 then "-" else "") + NatDigits(a / 100) + "." + frac
  }

  /** Reads a `[-]digits.dd` text back as hundredths; None for any other shape. */
  function ReadFixedTwo(s: string): Option<int>
  {
    if |s| < 4 || s[|s| - 3] != '.' then None
    else
      var negative := s[0] == '-';
      var whole := if negative then s[1..|s| - 3] else s[..|s| - 3];
      var frac := s[|s| - 2..];
      if whole == [] || !AllDigits(whole) || !AllDigits(frac) then None
      else
        var a := DecimalValue(whole) * 100 + DecimalValue(frac);
        Some(if negative then -a else a)
  }

  lemma TwoDigitsValue(hi: nat, lo: nat)
    requires hi < 10 && lo < 10
    ensures DecimalValue([DigitChar(hi), DigitChar(lo)]) == hi * 10 + lo
  {
    var f := [DigitChar(hi), DigitChar(lo)];
    var g := [DigitChar(hi)];
    assert f[..1] == g && g[..0] == [];
    assert DigitValue(f[1]) == lo && DigitValue(g[0]) == hi;
    assert DecimalValue(g) == DecimalValue([]) * 10 + hi;
    assert DecimalValue(f) == DecimalValue(g) * 10 + lo;
  }

  lemma HundredthsSplit(a: nat)
    ensures a % 100 / 10 * 10 + a % 10 == a % 100
    ensures a / 100 * 100 + a % 100 == a
  {
    var q, r := a / 100, a % 100;
    var h, l := r / 10, r % 10;
    assert r == 10 * h + l;
    assert a == 10 * (10 * q + h) + l;
    assert a % 10 == l;
  }

  /** The two-decimal text denotes exactly the amount it was made from. */
  lemma FixedTwoRoundTrip(cents: int)
    ensures ReadFixedTwo(FixedTwo(cents)) == Some(cents)
  {
    var a := if cents < 0 then -cents else cents;
    var d := NatDigits(a / 100);
    var frac := [DigitChar(a % 100 / 10), DigitChar(a % 10)];
    var s := FixedTwo(cents);
    TwoDigitsValue(a % 100 / 10, a % 10);
    HundredthsSplit(a);
    assert s[|s| - 2..] == frac;
    if cents < 0 {
      assert s == "-" + d + "." + frac;
      assert s[1..|s| - 3] == d;
    } else {
      assert s == d + "." + frac;
      assert s[..|s| - 3] == d;
      assert IsDigit(s[0]);
    }
  }
}
