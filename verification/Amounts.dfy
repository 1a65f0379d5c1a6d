/** Decimal text and atomic u64 amounts: `formatAtomicAmount` and `parseTokenAmount` are inverse, digit by digit. */
module Amounts {
  import opened Base
  import opened Settlement

  // ------------------------------------------------------------------------ digits

  predicate IsDigit(c: char) {
    '0' <= c <= '9'
  }

  predicate AllDigits(s: string) {
    forall c <- s :: IsDigit(c)
  }

  function DigitValue(c: char): nat
    requires IsDigit(c)
  {
    c as int - '0' as int
  }

  function DigitChar(d: nat): (c: char)
    requires d < 10
    ensures IsDigit(c) && DigitValue(c) == d && (c == '0' <==> d == 0)
  {
    ('0' as int + d) as char
  }

  /** The number a digit string denotes; leading zeros are allowed. */
  function Value(s: string): nat
    requires AllDigits(s)
  {
    if s == "" then 0 else Value(s[..|s| - 1]) * 10 + DigitValue(s[|s| - 1])
  }

  /** `value.toString(10)`. */
  function Digits(v: nat): (s: string)
    ensures s != "" && AllDigits(s) && Value(s) == v && (v > 0 ==> s[0] != '0') && (v == 0 ==> s == "0")
  {
    if v < 10 then
      assert [DigitChar(v)][..0] == "";
      [DigitChar(v)]
    else
      var init := Digits(v / 10);
      var s := init + [DigitChar(v % 10)];
      assert s[..|s| - 1] == init;
      s
  }

  function Zeros(n: nat): (s: string)
    ensures |s| == n && AllDigits(s) && forall c <- s :: c == '0'
  {
    seq(n, _ => '0')
  }

  lemma {:induction false} ValueOfJoin(a: string, b: string)
    requires AllDigits(a) && AllDigits(b)
    ensures AllDigits(a + b) && Value(a + b) == Value(a) * Pow10(|b|) + Value(b)
  {
    if b == "" {
      assert a + b == a;
    } else {
      var init := b[..|b| - 1];
      ValueOfJoin(a, init);
      assert (a + b)[..|a + b| - 1] == a + init;
      assert Value(a) * Pow10(|init|) * 10 == Value(a) * Pow10(|b|);
    }
  }

  lemma {:induction false} ValueOfZeros(n: nat)
    ensures Value(Zeros(n)) == 0
  {
    if n > 0 {
      ValueOfZeros(n - 1);
      assert Zeros(n)[..n - 1] == Zeros(n - 1);
    }
  }

  /** `.replace(/^0+(?=\\d)/, "")`: leading zeros go, but one digit always stays. */
  function StripZeros(s: string): (r: string)
    requires AllDigits(s)
    ensures AllDigits(r)
    ensures s != "" ==> r != "" && (r[0] != '0' || r == "0")
  {
    if |s| > 1 && s[0] == '0' then
      assert AllDigits(s[1..]) by { assert forall c <- s[1..] :: c in s; }
      StripZeros(s[1..])
    else s
  }

  lemma {:induction false} StripKeepsValue(s: string)
    requires AllDigits(s)
    ensures Value(StripZeros(s)) == Value(s)
  {
    if |s| > 1 && s[0] == '0' {
      assert AllDigits(s[1..]) by { assert forall c <- s[1..] :: c in s; }
      StripKeepsValue(s[1..]);
      assert s == "0" + s[1..];
      assert "0"[..0] == "";
      assert Value("0") == 0;
      ValueOfJoin("0", s[1..]);
    }
  }

  // --------------------------------------------------------------------- formatting

  /** `.replace(/0+$/, "")`. */
  function TrimZeros(s: string): (r: string)
    ensures |r| <= |s| && r == s[..|r|] && s == r + Zeros(|s| - |r|)
    ensures r != "" ==> r[|r| - 1] != '0'
  {
    if s != "" && s[|s| - 1] == '0' then
      var r := TrimZeros(s[..|s| - 1]);
      ZeroAppended(s, r);
      r
    else
      assert s == s + Zeros(0);
      s
  }

  lemma ZeroAppended(s: string, r: string)
    requires s != "" && s[|s| - 1] == '0' && |r| <= |s| - 1 && s[..|s| - 1] == r + Zeros(|s| - 1 - |r|)
    ensures s == r + Zeros(|s| - |r|) && r == s[..|r|]
  {
    assert Zeros(|s| - |r|) == Zeros(|s| - 1 - |r|) + ['0'];
  }

  function PadStart(s: string, n: nat): string {
    if |s| >= n then s else Zeros(n - |s|) + s
  }

  function PadEnd(s: string, n: nat): string {
    if |s| >= n then s else s + Zeros(n - |s|)
  }

  /** `formatAtomicAmount`. */
  function Format(v: nat, decimals: nat): string {
    var raw := Digits(v);
    if decimals == 0 then raw
    else
      var padded := PadStart(raw, decimals + 1);
      var whole := padded[..|padded| - decimals];
      var fraction := TrimZeros(padded[|padded| - decimals..]);
      if fraction == "" then whole else whole + "." + fraction
  }

  // ----------------------------------------------------------------------- parsing

  /** White space and line terminators of ECMAScript. */
  predicate IsSpace(c: char) {
    var n := c as int;
    9 <= n <= 13 || n == 0x20 || n == 0xA0 || n == 0x1680 || 0x2000 <= n <= 0x200A || n == 0x2028 || n == 0x2029 || n == 0x202F
    || n == 0x205F || n == 0x3000 || n == 0xFEFF
  }

  function TrimLeft(s: string): string {
    if s != "" && IsSpace(s[0]) then TrimLeft(s[1..]) else s
  }

  function TrimRight(s: string): string {
    if s != "" && IsSpace(s[|s| - 1]) then TrimRight(s[..|s| - 1]) else s
  }

  function Dot(s: string): (r: Option<nat>)
    ensures r.Some? ==> r.value < |s| && s[r.value] == '.' && forall k :: 0 <= k < r.value ==> s[k] != '.'
    ensures r.None? ==> '.' !in s
  {
    if s == "" then None
    else if s[0] == '.' then Some(0)
    else
      var rest := Dot(s[1..]);
      assert s == [s[0]] + s[1..];
      if rest.None? then None else Some(rest.value + 1)
  }

  function WholePart(s: string): string {
    var dot := Dot(s);
    if dot.None? then s else s[..dot.value]
  }

  function FractionPart(s: string): string {
    var dot := Dot(s);
    if dot.None? then "" else s[dot.value + 1..]
  }

  /** `/^(?:0|[1-9][0-9]*)(?:\\.[0-9]+)?$/`. */
  predicate IsNumeral(s: string) {
    var whole := WholePart(s);
    && whole != "" && AllDigits(whole) && (whole == "0" || whole[0] != '0')
    && AllDigits(FractionPart(s)) && (Dot(s).Some? ==> FractionPart(s) != "")
  }

  /** `parseTokenAmount`; None stands for a thrown error. */
  function Parse(text: string, decimals: nat): Option<u64> {
    var s := TrimRight(TrimLeft(text));
    if !IsNumeral(s) || |FractionPart(s)| > decimals then None
    else
      PaddedDigits(s, decimals);
      var atomic := Value(StripZeros(WholePart(s) + PadEnd(FractionPart(s), decimals)));
      if atomic == 0 || atomic > U64_MAX then None else Some(atomic)
  }

  lemma PaddedDigits(s: string, decimals: nat)
    requires IsNumeral(s)
    ensures AllDigits(WholePart(s) + PadEnd(FractionPart(s), decimals))
  {
  }

  // -------------------------------------------------------------------- round trips

  lemma NoSpaces(s: string)
    requires s != "" && !IsSpace(s[0]) && !IsSpace(s[|s| - 1])
    ensures TrimRight(TrimLeft(s)) == s
  {
  }

  lemma PartsOf(whole: string, fraction: string)
    requires AllDigits(whole) && AllDigits(fraction)
    ensures WholePart(whole) == whole && FractionPart(whole) == "" && Dot(whole).None?
    ensures WholePart(whole + "." + fraction) == whole && FractionPart(whole + "." + fraction) == fraction
    ensures Dot(whole + "." + fraction).Some?
  {
    var s := whole + "." + fraction;
    assert s[|whole|] == '.';
    forall k | 0 <= k < |whole| ensures whole[k] != '.' && s[k] != '.' {
      assert whole[k] in whole;
    }
    assert Dot(s) == Some(|whole|);
    assert s[..|whole|] == whole && s[|whole| + 1..] == fraction;
  }

  function Join(whole: string, fraction: string): string {
    if fraction == "" then whole else whole + "." + fraction
  }

  lemma TrimThenPad(rest: string)
    requires AllDigits(rest)
    ensures AllDigits(TrimZeros(rest)) && PadEnd(TrimZeros(rest), |rest|) == rest
  {
    var r := TrimZeros(rest);
    SplitDigits(r, Zeros(|rest| - |r|));
    assert Zeros(0) == "";
  }

  /** What the formatter writes: a canonical whole part and the fraction without trailing zeros. */
  lemma FormatParts(v: nat, decimals: nat) returns (whole: string, fraction: string)
    ensures Format(v, decimals) == Join(whole, fraction)
    ensures whole != "" && AllDigits(whole) && (whole == "0" || whole[0] != '0')
    ensures AllDigits(fraction) && |fraction| <= decimals
    ensures AllDigits(whole + PadEnd(fraction, decimals)) && Value(whole + PadEnd(fraction, decimals)) == v
  {
    hide Digits, Value, PadStart, PadEnd, TrimZeros, AllDigits;
    if decimals == 0 {
      whole, fraction := Digits(v), "";
      PadNothing(whole);
    } else {
      var padded := PadStart(Digits(v), decimals + 1);
      PaddedStart(v, decimals);
      whole := padded[..|padded| - decimals];
      var rest := padded[|padded| - decimals..];
      fraction := TrimZeros(rest);
      SplitDigits(whole, rest) by { assert padded == whole + rest; }
      TrimThenPad(rest);
      assert whole + PadEnd(fraction, decimals) == padded;
    }
  }

  lemma PadNothing(whole: string)
    ensures PadEnd("", 0) == "" && whole + PadEnd("", 0) == whole && AllDigits("")
  {
  }

  lemma SplitDigits(a: string, b: string)
    requires AllDigits(a + b)
    ensures AllDigits(a) && AllDigits(b)
  {
    forall c <- a ensures IsDigit(c) { assert c in a + b; }
    forall c <- b ensures IsDigit(c) { assert c in a + b; }
  }

  lemma PaddedStart(v: nat, decimals: nat)
    ensures var padded := PadStart(Digits(v), decimals + 1);
      && |padded| > decimals && AllDigits(padded) && Value(padded) == v
      && (var whole := padded[..|padded| - decimals]; whole != "" && (whole == "0" || whole[0] != '0'))
  {
    hide Value, Digits, Pow10;
    var raw := Digits(v);
    var padded := PadStart(raw, decimals + 1);
    if |raw| < decimals + 1 {
      ValueOfZeros(decimals + 1 - |raw|);
      ValueOfJoin(Zeros(decimals + 1 - |raw|), raw);
      assert padded[0] == '0' && padded[..1] == "0";
    } else if v == 0 {
      assert padded[..1] == "0";
    }
  }

  /** Parsing a canonical text is reading its padded digits. */
  lemma ParseOfParts(whole: string, fraction: string, decimals: nat)
    requires whole != "" && AllDigits(whole) && (whole == "0" || whole[0] != '0')
    requires AllDigits(fraction) && |fraction| <= decimals
    requires AllDigits(whole + PadEnd(fraction, decimals))
    ensures var v := Value(whole + PadEnd(fraction, decimals));
      Parse(Join(whole, fraction), decimals) == if v == 0 || v > U64_MAX then None else Some(v)
  {
    hide Value, StripZeros, PadEnd, TrimLeft, TrimRight, Dot, WholePart, FractionPart, AllDigits, IsSpace;
    PartsOf(whole, fraction);
    JoinTrimmed(whole, fraction);
    StripKeepsValue(whole + PadEnd(fraction, decimals));
  }

  lemma JoinTrimmed(whole: string, fraction: string)
    requires whole != "" && AllDigits(whole) && AllDigits(fraction)
    ensures TrimRight(TrimLeft(Join(whole, fraction))) == Join(whole, fraction)
  {
    hide TrimLeft, TrimRight;
    var s := Join(whole, fraction);
    assert whole[0] in whole && whole[|whole| - 1] in whole;
    if fraction != "" { assert fraction[|fraction| - 1] in fraction; }
    DigitNoSpace(s[0]);
    DigitNoSpace(s[|s| - 1]);
    NoSpaces(s);
  }

  lemma DigitNoSpace(c: char)
    requires IsDigit(c)
    ensures !IsSpace(c)
  {
  }

  /** Every positive u64 amount survives being shown and typed back, for every number of decimals; nothing else is accepted. */
  lemma ParseInvertsFormat(v: nat, decimals: nat)
    ensures Parse(Format(v, decimals), decimals) == if 0 < v <= U64_MAX then Some(v) else None
  {
    hide Format, Parse, Value, PadEnd, AllDigits, Join;
    var whole, fraction := FormatParts(v, decimals);
    ParseOfParts(whole, fraction, decimals);
  }

  /**
   * What the parser accepts: canonical digits, with at most `decimals` places, possibly with trailing zeros and
   * surrounding space, worth between one atom and u64; and then it reads exactly that many atoms.
   */
  lemma ParseExactly(text: string, whole: string, fraction: string, decimals: nat)
    requires TrimRight(TrimLeft(text)) == Join(whole, fraction)
    requires whole != "" && AllDigits(whole) && (whole == "0" || whole[0] != '0') && AllDigits(fraction)
    ensures |fraction| > decimals ==> Parse(text, decimals) == None
    ensures |fraction| <= decimals ==>
      && AllDigits(whole + fraction)
      && var atoms := Value(whole + fraction) * Pow10(decimals - |fraction|);
      Parse(text, decimals) == if 0 < atoms <= U64_MAX then Some(atoms) else None
  {
    hide Value, StripZeros, PadEnd, TrimLeft, TrimRight, Dot, WholePart, FractionPart, AllDigits, IsSpace, Pow10;
    PartsOf(whole, fraction);
    if |fraction| <= decimals {
      PaddedValue(whole, fraction, decimals);
      StripKeepsValue(whole + PadEnd(fraction, decimals));
    }
  }

  /** Padding a fraction scales the value. */
  lemma PaddedValue(whole: string, fraction: string, decimals: nat)
    requires AllDigits(whole) && AllDigits(fraction) && |fraction| <= decimals
    ensures AllDigits(whole + fraction) && AllDigits(whole + PadEnd(fraction, decimals))
    ensures Value(whole + PadEnd(fraction, decimals)) == Value(whole + fraction) * Pow10(decimals - |fraction|)
  {
    var zeros := Zeros(decimals - |fraction|);
    JoinDigits(whole, fraction);
    JoinDigits(whole + fraction, zeros);
    assert whole + PadEnd(fraction, decimals) == (whole + fraction) + zeros by {
      if |fraction| == decimals { assert zeros == ""; assert PadEnd(fraction, decimals) == fraction; }
      assert whole + (fraction + zeros) == (whole + fraction) + zeros;
    }
    hide Value, Pow10, PadEnd;
    ValueOfJoin(whole + fraction, zeros);
    ValueOfZeros(decimals - |fraction|);
  }

  lemma JoinDigits(a: string, b: string)
    requires AllDigits(a) && AllDigits(b)
    ensures AllDigits(a + b)
  {
  }

  /** A text that is not of that form is refused. */
  lemma ParseNeedsNumeral(text: string, decimals: nat)
    ensures Parse(text, decimals).Some? ==> exists whole, fraction ::
      && TrimRight(TrimLeft(text)) == Join(whole, fraction)
      && whole != "" && AllDigits(whole) && (whole == "0" || whole[0] != '0') && AllDigits(fraction)
  {
    var s := TrimRight(TrimLeft(text));
    hide TrimLeft, TrimRight, AllDigits, StripZeros, Value;
    if Parse(text, decimals).Some? {
      assert s == Join(WholePart(s), FractionPart(s)) by {
        if Dot(s).Some? { assert s == s[..Dot(s).value] + "." + s[Dot(s).value + 1..]; }
      }
    }
  }

  /** Two amounts never look the same. */
  lemma FormatIsInjective(a: nat, b: nat, decimals: nat)
    requires Format(a, decimals) == Format(b, decimals)
    ensures a == b
  {
    hide Format, Value, PadEnd, AllDigits, WholePart, FractionPart, Dot;
    var wholeA, fractionA := FormatParts(a, decimals);
    var wholeB, fractionB := FormatParts(b, decimals);
    PartsOf(wholeA, fractionA);
    PartsOf(wholeB, fractionB);
  }

  // ------------------------------------------------- the other direction: canonical text

  lemma LastDigit(s: string)
    requires AllDigits(s) && s != ""
    ensures AllDigits(s[..|s| - 1]) && IsDigit(s[|s| - 1]) && DigitValue(s[|s| - 1]) < 10
    ensures Value(s) == Value(s[..|s| - 1]) * 10 + DigitValue(s[|s| - 1])
  {
    SplitDigits(s[..|s| - 1], s[|s| - 1..]);
    assert s == s[..|s| - 1] + s[|s| - 1..] && s[|s| - 1] in s;
  }

  lemma Pow10Step(n: nat)
    requires n > 0
    ensures Pow10(n) == 10 * Pow10(n - 1)
  {
  }

  lemma {:induction false} ValueBelow(s: string)
    requires AllDigits(s)
    ensures Value(s) < Pow10(|s|)
  {
    if s != "" {
      LastDigit(s);
      ValueBelow(s[..|s| - 1]);
      Pow10Step(|s|);
      hide Value, Pow10;
    }
  }

  lemma {:induction false} ValueAtLeast(s: string)
    requires AllDigits(s) && s != "" && s[0] != '0'
    ensures Value(s) >= Pow10(|s| - 1)
  {
    LastDigit(s);
    if |s| > 1 {
      ValueAtLeast(s[..|s| - 1]);
      Pow10Step(|s| - 1);
      hide Value, Pow10;
    }
  }

  lemma {:induction false} SameLengthSameText(a: string, b: string)
    requires AllDigits(a) && AllDigits(b) && |a| == |b| && Value(a) == Value(b)
    ensures a == b
  {
    hide Value, AllDigits;
    if a != "" {
      LastDigit(a);
      LastDigit(b);
      SameLengthSameText(a[..|a| - 1], b[..|b| - 1]);
      assert a == a[..|a| - 1] + [a[|a| - 1]] && b == b[..|b| - 1] + [b[|b| - 1]];
    }
  }

  lemma {:induction false} Pow10Monotone(a: nat, b: nat)
    requires a <= b
    ensures Pow10(a) <= Pow10(b)
  {
    if a < b { Pow10Monotone(a, b - 1); }
  }

  /** Digit strings without leading zeros are as short as any text for the same value. */
  lemma ShortestDigits(a: string, b: string)
    requires AllDigits(a) && AllDigits(b) && a != "" && a[0] != '0' && Value(a) == Value(b)
    ensures |a| <= |b|
  {
    hide Value, Pow10, AllDigits;
    ValueAtLeast(a);
    ValueBelow(b);
    if |a| > |b| { Pow10Monotone(|b|, |a| - 1); }
  }

  /** The digits of a value, padded to the length of any text for it that starts canonically, are that text. */
  lemma PaddingRestores(text: string, decimals: nat)
    requires AllDigits(text) && |text| > decimals
    requires |text| == decimals + 1 || text[0] != '0'
    ensures PadStart(Digits(Value(text)), decimals + 1) == text
  {
    hide Value, AllDigits, Digits;
    var v := Value(text);
    var raw := Digits(v);
    PaddedStart(v, decimals);
    if v > 0 {
      ShortestDigits(raw, text);
      if text[0] != '0' { ShortestDigits(text, raw); }
    } else if text[0] != '0' {
      ShortestDigits(text, raw);
    }
    assert |PadStart(raw, decimals + 1)| == |text|;
    SameLengthSameText(PadStart(raw, decimals + 1), text);
  }

  lemma PadLength(s: string, n: nat)
    requires |s| <= n
    ensures |PadEnd(s, n)| == n
  {
  }

  /** Formatting a value is formatting any canonical text for it. */
  lemma FormatOfText(whole: string, rest: string)
    requires AllDigits(whole + rest) && whole != "" && (whole == "0" || whole[0] != '0')
    ensures Format(Value(whole + rest), |rest|) == Join(whole, TrimZeros(rest))
  {
    hide Value, AllDigits, Digits, PadStart, TrimZeros;
    var text := whole + rest;
    PaddingRestores(text, |rest|);
    if rest == "" {
      assert text == whole;
      TrimNothing();
      PadOne(Digits(Value(text)));
    } else {
      assert text[..|whole|] == whole && text[|whole|..] == rest;
    }
  }

  lemma TrimNothing()
    ensures TrimZeros("") == ""
  {
  }

  lemma PadOne(s: string)
    requires s != ""
    ensures PadStart(s, 1) == s
  {
  }

  /** An accepted text is shown back as itself, without surrounding space and trailing zeros. */
  lemma FormatInvertsParse(text: string, decimals: nat)
    requires Parse(text, decimals).Some?
    ensures var s := TrimRight(TrimLeft(text));
      Format(Parse(text, decimals).value, decimals) == Join(WholePart(s), TrimZeros(PadEnd(FractionPart(s), decimals)))
  {
    var s := TrimRight(TrimLeft(text));
    hide TrimLeft, TrimRight, Dot, WholePart, FractionPart, Digits, Value, StripZeros, Format, Join, TrimZeros, PadEnd;
    PaddedDigits(s, decimals);
    StripKeepsValue(WholePart(s) + PadEnd(FractionPart(s), decimals));
    PadLength(FractionPart(s), decimals);
    FormatOfText(WholePart(s), PadEnd(FractionPart(s), decimals));
  }
}
