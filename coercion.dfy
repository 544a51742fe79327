/** The permissive cell-to-number coercion that both extractors define
    identically (`coerceNumber`). */
module Coercion {
  import opened Values

  predicate IsDigit(c: char) {
    '0' <= c <= '9'
  }

  /** The characters `/[^0-9.-]/g` leaves in place. */
  predicate Kept(c: char) {
    IsDigit(c) || c == '.' || c == '-'
  }

  predicate AllKept(s: string) {
    forall i :: 0 <= i < |s| ==> Kept(s[i])
  }

  predicate AllDigits(s: string) {
    forall i :: 0 <= i < |s| ==> IsDigit(s[i])
  }

  /** `String(v).replace(/[^0-9.-]/g, '')`: the kept characters, in order. */
  function Strip(s: string): (r: string)
    ensures |r| <= |s|
    ensures AllKept(r)
  {
    if s == [] then []
    else (if Kept(s[0]) then [s[0]] else []) + Strip(s[1..])
  }

  /** Stripping distributes over concatenation. */
  lemma {:induction false} StripAppend(a: string, b: string)
    ensures Strip(a + b) == Strip(a) + Strip(b)
  {
    if a == [] {
      assert a + b == b;
    } else {
      var head := if Kept(a[0]) then [a[0]] else [];
      assert (a + b)[0] == a[0];
      assert (a + b)[1..] == a[1..] + b;
      assert Strip(a + b) == head + Strip(a[1..] + b);
      StripAppend(a[1..], b);
      assert Strip(a + b) == head + (Strip(a[1..]) + Strip(b));
      assert Strip(a) == head + Strip(a[1..]);
    }
  }

  /** A string made of kept characters only is left as it is. */
  lemma {:induction false} StripKeepsKept(s: string)
    requires AllKept(s)
    ensures Strip(s) == s
  {
    if s != [] {
      StripKeepsKept(s[1..]);
    }
  }

  /** A string with no kept character strips to nothing. */
  lemma {:induction false} StripDropsNoise(w: string)
    requires forall i :: 0 <= i < |w| ==> !Kept(w[i])
    ensures Strip(w) == ""
  {
    if w != [] {
      StripDropsNoise(w[1..]);
    }
  }

  function DigitValue(c: char): nat
    requires IsDigit(c)
  {
    c as int - '0' as int
  }

  /** The value of a string of decimal digits, most significant first. */
  function DigitsValue(s: string): nat
    requires AllDigits(s)
  {
    if s == [] then 0 else 10 * DigitsValue(s[..|s| - 1]) + DigitValue(s[|s| - 1])
  }

  /** The value of the digits after a decimal point: "25" is 0.25. */
  function FractionValue(s: string): real
    requires AllDigits(s)
  {
    if s == [] then 0.0 else (DigitValue(s[0]) as real + FractionValue(s[1..])) / 10.0
  }

  /** Position of the first '.', or `|s|` when there is none. */
  function FindDot(s: string): (k: nat)
    ensures k <= |s|
    ensures k < |s| ==> s[k] == '.'
    ensures forall j :: 0 <= j < k ==> s[j] != '.'
  {
    if s == [] then 0
    else if s[0] == '.' then 0
    else 1 + FindDot(s[1..])
  }

  /** An unsigned decimal literal with no exponent: `digits [. digits*]` or
      `. digits+`. */
  function ParseUnsigned(s: string): Option<real> {
    var k := FindDot(s);
    var whole := s[..k];
    var frac := if k < |s| then s[k + 1..] else "";
    if AllDigits(whole) && AllDigits(frac) && |whole| + |frac| > 0 then
      Some(DigitsValue(whole) as real + FractionValue(frac))
    else
      None
  }

  /** `Number(s)` on a string over the alphabet `0-9 . -`: the empty string
      is 0, an optional leading '-' negates an unsigned literal, anything
      else is NaN (None). */
  function ParseDecimal(s: string): Option<real>
    requires AllKept(s)
  {
    if s == "" then Some(0.0)
    else if s[0] == '-' then
      match ParseUnsigned(s[1..])
      case None => None
      case Some(v) => Some(-v)
    else ParseUnsigned(s)
  }

  /** `coerceNumber`: null/undefined/'' give 0, a number passes unchanged,
      any other value is stripped to `0-9 . -` and parsed, NaN giving 0. */
  function CoerceNumber(c: Cell): real {
    match c
    case Empty => 0.0
    case Num(x) => x
    case Text(s) =>
      if s == "" then 0.0
      else match ParseDecimal(Strip(s))
        case Some(v) => v
        case None => 0.0
  }

  /** The result is a number, and numbers pass through: coercing twice is
      coercing once. */
  lemma CoerceIdempotent(c: Cell)
    ensures CoerceNumber(Num(CoerceNumber(c))) == CoerceNumber(c)
  {
  }

  /** A '-' anywhere in an unsigned literal makes it NaN. */
  lemma MinusBlocksUnsigned(u: string, j: nat)
    requires j < |u| && u[j] == '-'
    ensures ParseUnsigned(u) == None
  {
    var k := FindDot(u);
    if j < k {
      assert u[..k][j] == '-';
    } else {
      assert j != k;
      assert u[k + 1..][j - k - 1] == '-';
    }
  }

  /** `Number` accepts '-' only as the first character: "1-2" and "--1" are NaN. */
  lemma InnerMinusIsNaN(s: string, i: nat)
    requires AllKept(s) && 0 < i < |s| && s[i] == '-'
    ensures ParseDecimal(s) == None
  {
    if s[0] == '-' {
      MinusBlocksUnsigned(s[1..], i - 1);
    } else {
      MinusBlocksUnsigned(s, i);
    }
  }

  /** Coercing a text cell only looks at its kept characters. */
  lemma CoerceSeesStripped(t: string)
    ensures CoerceNumber(Text(t)) == CoerceNumber(Text(Strip(t)))
  {
    if Strip(t) != "" {
      StripKeepsKept(Strip(t));
    }
  }

  /** Inserting characters outside `0-9 . -` (currency signs, thousands
      separators, spaces) anywhere in a text cell does not change its value. */
  lemma NoiseIsIgnored(a: string, w: string, b: string)
    requires forall i :: 0 <= i < |w| ==> !Kept(w[i])
    ensures CoerceNumber(Text(a + w + b)) == CoerceNumber(Text(a + b))
  {
    StripAppend(a + w, b);
    StripAppend(a, w);
    StripAppend(a, b);
    StripDropsNoise(w);
    assert Strip(a + w + b) == Strip(a + b);
    CoerceSeesStripped(a + w + b);
    CoerceSeesStripped(a + b);
  }

  /** The decimal digits of a natural number, as a spreadsheet shows it. */
  function NatText(n: nat): (s: string)
    ensures |s| >= 1 && AllDigits(s)
  {
    if n < 10 then [('0' as int + n) as char]
    else NatText(n / 10) + [('0' as int + n % 10) as char]
  }

  lemma {:induction false} NatTextValue(n: nat)
    ensures DigitsValue(NatText(n)) == n
  {
    if n >= 10 {
      var s := NatText(n);
      assert s[..|s| - 1] == NatText(n / 10);
      NatTextValue(n / 10);
    }
  }

  function IntText(z: int): string {
    if z < 0 then "-" + NatText(-z) else NatText(z)
  }

  lemma NoDotInDigits(s: string)
    requires AllDigits(s)
    ensures FindDot(s) == |s|
  {
    if s != [] {
      NoDotInDigits(s[1..]);
    }
  }

  lemma ParseDigits(s: string)
    requires |s| >= 1 && AllDigits(s)
    ensures ParseUnsigned(s) == Some(DigitsValue(s) as real)
  {
    NoDotInDigits(s);
    assert s[..FindDot(s)] == s;
  }

  /** Coercion is the inverse of writing an integer out in decimal. */
  lemma CoerceIntText(z: int)
    ensures CoerceNumber(Text(IntText(z))) == z as real
  {
    var t := IntText(z);
    var d := if z < 0 then NatText(-z) else NatText(z);
    StripKeepsKept(t);
    ParseDigits(d);
    NatTextValue(if z < 0 then -z else z);
    if z < 0 {
      assert t[1..] == d;
    }
  }

  lemma ParseThousandsExample()
    ensures ParseUnsigned("1234.50") == Some(1234.5)
  {
    assert FindDot("1234.50") == 4;
    assert "1234.50"[..4] == "1234";
    assert "1234.50"[5..] == "50";
    assert "1234"[..3] == "123" && "123"[..2] == "12" && "12"[..1] == "1";
    assert DigitsValue("1234") == 1234;
    assert FractionValue("50") == 0.5;
  }

  lemma JoinDigits()
    ensures "1" + "234.50" == "1234.50"
  {
  }

  lemma DigitsAreKept()
    ensures AllKept("1234.50") && AllKept("234.50")
  {
  }

  lemma StripCurrencyExample()
    ensures Strip("€1,234.50") == "1234.50"
  {
    var tail := "234.50";
    assert "€1,234.50" == "€" + ("1" + ("," + tail));
    StripAppend("€", "1" + ("," + tail));
    StripAppend("1", "," + tail);
    StripAppend(",", tail);
    DigitsAreKept();
    StripKeepsKept(tail);
    assert Strip("€") == "" && Strip("1") == "1" && Strip(",") == "";
    assert Strip("," + tail) == tail;
    assert Strip("1" + ("," + tail)) == "1" + tail;
    JoinDigits();
  }

  lemma DecimalExample()
    ensures AllKept("1234.50") && ParseDecimal("1234.50") == Some(1234.5)
  {
    DigitsAreKept();
    ParseThousandsExample();
    assert "1234.50"[0] != '-';
  }

  /** A non-empty text cell whose kept characters parse as `v` coerces to `v`. */
  lemma CoerceParsed(s: string, t: string, v: real)
    requires s != "" && Strip(s) == t && ParseDecimal(t) == Some(v)
    ensures CoerceNumber(Text(s)) == v
  {
  }

  /** Currency signs and thousands separators are dropped: "€1,234.50" is 1234.5. */
  lemma CoerceCurrencyText()
    ensures CoerceNumber(Text("€1,234.50")) == 1234.5
  {
    var s := "€1,234.50";
    StripCurrencyExample();
    DecimalExample();
    assert ParseDecimal(Strip(s)) == Some(1234.5);
  }

  /** Text with no digit coerces to 0: "N/A" is 0. */
  lemma CoerceNotAvailable()
    ensures CoerceNumber(Text("N/A")) == 0.0
  {
    assert Strip("N/A") == "";
  }

  /** A '-' after the first character makes the parse fail, giving 0. */
  lemma CoerceInnerMinus()
    ensures CoerceNumber(Text("1-2")) == 0.0
  {
    assert Strip("1-2") == "1-2";
    assert FindDot("1-2") == 3;
    assert !IsDigit("1-2"[1]);
  }

  /** A second '.' makes the parse fail, giving 0. */
  lemma CoerceTwoDots()
    ensures CoerceNumber(Text("1.2.3")) == 0.0
  {
    assert Strip("1.2.3") == "1.2.3";
    assert FindDot("1.2.3") == 1;
    assert !IsDigit("2.3"[1]);
  }

  lemma StripMonthLabel()
    ensures Strip("Jan 26") == "26"
  {
    assert "Jan 26" == "Jan " + "26";
    StripAppend("Jan ", "26");
    StripDropsNoise("Jan ");
    StripKeepsKept("26");
  }

  lemma ParseTwentySix()
    ensures AllKept("26") && ParseDecimal("26") == Some(26.0)
  {
    ParseDigits("26");
    assert DigitsValue("26") == 26;
  }

  /** A month label such as "Jan 26" coerces to its digits. */
  lemma CoerceMonthLabel()
    ensures CoerceNumber(Text("Jan 26")) == 26.0
  {
    StripMonthLabel();
    ParseTwentySix();
    CoerceParsed("Jan 26", "26", 26.0);
  }
}
