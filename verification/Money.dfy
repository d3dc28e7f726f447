/** The rupee parser and the paise printer of shared/pkg/money. */
module Money {
  import opened Common
  import opened Strings

  const MAX_RUPEES := 0x4000_0000_0000_0000 / 100

  /** The largest amount the parser accepts, in paise. */
  const MAX_PAISE := MAX_RUPEES * 100 + 99

  // ---- Decimal numerals ----

  predicate IsDigit(c: char) {
    '0' <= c <= '9'
  }

  predicate Digital(s: string) {
    forall i | 0 <= i < |s| :: IsDigit(s[i])
  }

  function DigitValue(c: char): (v: int)
    requires IsDigit(c)
    ensures 0 <= v <= 9
  {
    c as int - '0' as int
  }

  function DigitChar(v: int): (c: char)
    requires 0 <= v <= 9
    ensures IsDigit(c) && DigitValue(c) == v
  {
    (v + '0' as int) as char
  }

  function Value(s: string): (n: nat)
    requires Digital(s)
  {
    if s == "" then 0 else Value(s[..|s| - 1]) * 10 + DigitValue(s[|s| - 1])
  }

  /** The numeral of n, as %d prints it. */
  function Digits(n: nat): (s: string)
    ensures s != "" && Digital(s) && Value(s) == n
    ensures s[0] == '0' ==> s == "0"
  {
    if n < 10 then
      assert [DigitChar(n)][..0] == "";
      [DigitChar(n)]
    else
      var init := Digits(n / 10);
      var s := init + [DigitChar(n % 10)];
      assert s[..|s| - 1] == init;
      s
  }

  predicate NoLeadingZero(s: string) {
    s != "" && (s[0] == '0' ==> s == "0")
  }

  lemma {:induction false} LeadingDigitCounts(s: string)
    requires Digital(s) && s != "" && s[0] != '0'
    ensures Value(s) > 0
  {
    if |s| == 1 {
      assert s[..0] == "";
    } else {
      LeadingDigitCounts(s[..|s| - 1]);
    }
  }

  /** Only the numeral without leading zeros prints back. */
  lemma {:induction false} DigitsOfValue(s: string)
    requires Digital(s) && NoLeadingZero(s)
    ensures Digits(Value(s)) == s
  {
    var init := s[..|s| - 1];
    if |s| == 1 {
      assert init == "";
    } else {
      LeadingDigitCounts(init);
      DigitsOfValue(init);
      assert Value(s) / 10 == Value(init) && Value(s) % 10 == DigitValue(s[|s| - 1]);
      assert s == init + [s[|s| - 1]];
    }
  }

  // ---- The grammar of amounts ----

  /** Rupees, and an optional fraction of one or two digits. */
  datatype Literal = Literal(rupees: string, fraction: Option<string>)

  predicate Proper(l: Literal) {
    && Digital(l.rupees)
    && (l.fraction.None? ==> l.rupees != "")
    && (l.fraction.Some? ==> Digital(l.fraction.value) && 1 <= |l.fraction.value| <= 2)
  }

  function Text(l: Literal): string {
    l.rupees + if l.fraction.None? then "" else "." + l.fraction.value
  }

  /** Paise meant by a literal; one digit of fraction counts tens of paise. */
  function Worth(l: Literal): nat
    requires Proper(l)
  {
    Value(l.rupees) * 100
    + if l.fraction.None? then 0 else if |l.fraction.value| == 1 then Value(l.fraction.value) * 10 else Value(l.fraction.value)
  }

  predicate Writes(l: Literal, s: string) {
    Proper(l) && Text(l) == TrimSpace(s)
  }

  lemma FirstDot(a: string, b: string, c: string, d: string)
    requires a + "." + b == c + "." + d
    ensures |a| < |c| ==> c[|a|] == '.'
  {
    assert (a + "." + b)[|a|] == '.';
  }

  lemma DotAt(a: string, b: string, c: string, d: string)
    requires '.' !in a && '.' !in c && a + "." + b == c + "." + d
    ensures a == c && b == d
  {
    FirstDot(a, b, c, d);
    FirstDot(c, d, a, b);
    var t := a + "." + b;
    assert a == t[..|a|] && c == t[..|c|] && b == t[|a| + 1..] && d == t[|c| + 1..];
  }

  lemma TextShape(l: Literal)
    requires Proper(l)
    ensures '.' !in l.rupees
    ensures l.fraction.Some? ==> |Text(l)| > |l.rupees| && Text(l)[|l.rupees|] == '.' && Text(l) == l.rupees + "." + l.fraction.value
    ensures l.fraction.None? ==> Text(l) == l.rupees
  {
  }

  lemma OneLiteral(a: Literal, b: Literal)
    requires Proper(a) && Proper(b) && Text(a) == Text(b)
    ensures a == b
  {
    TextShape(a);
    TextShape(b);
    if a.fraction.Some? && b.fraction.Some? {
      DotAt(a.rupees, a.fraction.value, b.rupees, b.fraction.value);
    }
  }

  /** What the text means: the worth of the literal it is, when its rupees are not too many. */
  ghost function Parse(s: string): Result<int> {
    if exists l :: Writes(l, s) && Value(l.rupees) <= MAX_RUPEES then
      var l :| Writes(l, s) && Value(l.rupees) <= MAX_RUPEES;
      Ok(Worth(l))
    else Err(InvalidInput)
  }

  lemma ParseOf(s: string, l: Literal)
    requires Writes(l, s)
    ensures Parse(s) == if Value(l.rupees) <= MAX_RUPEES then Ok(Worth(l)) else Err(InvalidInput)
  {
    forall m | Writes(m, s) ensures m == l {
      OneLiteral(l, m);
    }
  }

  // ---- The parser ----

  method AllDigits(s: string) returns (b: bool)
    ensures b <==> Digital(s)
  {
    for i := 0 to |s|
      invariant forall k | 0 <= k < i :: IsDigit(s[k])
    {
      if s[i] < '0' || s[i] > '9' {
        return false;
      }
    }
    return true;
  }

  /** strings.Split at each dot. */
  function SplitDots(s: string): (parts: seq<string>)
    ensures |parts| == 1 + Count(s, '.')
    ensures |parts| == 1 ==> parts[0] == s && '.' !in s
    ensures |parts| == 2 ==> s == parts[0] + "." + parts[1]
  {
    if s == "" then [""]
    else
      var rest := SplitDots(s[1..]);
      if s[0] == '.' then [""] + rest else [[s[0]] + rest[0]] + rest[1..]
  }

  /** strconv.ParseInt on a numeral. */
  function ParseInt(s: string): Option<int>
    requires Digital(s) && s != ""
  {
    if Value(s) <= MAX_INT64 then Some(Value(s)) else None
  }

  lemma {:induction false} CountSplit(a: string, b: string, c: char)
    ensures Count(a + b, c) == Count(a, c) + Count(b, c)
  {
    if a == "" {
      assert a + b == b;
    } else {
      assert (a + b)[1..] == a[1..] + b;
      CountSplit(a[1..], b, c);
    }
  }

  lemma {:induction false} DigitsHaveNoDot(s: string)
    requires Digital(s)
    ensures Count(s, '.') == 0
  {
    if s != "" {
      DigitsHaveNoDot(s[1..]);
    }
  }

  function LiteralOf(parts: seq<string>): Literal
    requires 1 <= |parts| <= 2
  {
    Literal(parts[0], if |parts| == 2 then Some(parts[1]) else None)
  }

  /** A literal has its one dot where its fraction starts, so splitting finds its parts. */
  lemma SplitOfLiteral(l: Literal)
    requires Proper(l)
    ensures var parts := SplitDots(Text(l)); |parts| <= 2 && LiteralOf(parts) == l
  {
    hide SplitDots;
    var t := Text(l);
    TextShape(l);
    DigitsHaveNoDot(l.rupees);
    if l.fraction.Some? {
      var f := l.fraction.value;
      DigitsHaveNoDot(f);
      CountSplit(l.rupees + ".", f, '.');
      CountSplit(l.rupees, ".", '.');
      var parts := SplitDots(t);
      SplitParts(t);
      DotAt(parts[0], parts[1], l.rupees, f);
    }
  }

  lemma {:induction false} SplitParts(s: string)
    ensures forall p | p in SplitDots(s) :: '.' !in p
  {
    if s != "" {
      SplitParts(s[1..]);
      var rest := SplitDots(s[1..]);
      assert rest[0] in rest;
      assert forall p | p in rest[1..] :: p in rest;
    }
  }

  /** Text that is no literal is refused. */
  lemma NoLiteral(s: string)
    requires forall l :: !Writes(l, s)
    ensures Parse(s) == Err(InvalidInput)
  {
  }

  /** The meaning of text, read off its split. */
  lemma ParseParts(s: string)
    ensures var parts := SplitDots(TrimSpace(s));
            Parse(s) == if |parts| <= 2 && Proper(LiteralOf(parts)) && Value(parts[0]) <= MAX_RUPEES
                        then Ok(Worth(LiteralOf(parts))) else Err(InvalidInput)
  {
    hide SplitDots, TrimSpace, Parse, Count;
    var parts := SplitDots(TrimSpace(s));
    forall l | Writes(l, s) ensures |parts| <= 2 && LiteralOf(parts) == l {
      SplitOfLiteral(l);
    }
    if |parts| <= 2 && Proper(LiteralOf(parts)) {
      var l := LiteralOf(parts);
      assert Text(l) == TrimSpace(s) by { TextShape(l); }
      ParseOf(s, l);
    } else {
      NoLiteral(s);
    }
  }

  method ParseRupees(s: string) returns (r: Result<int>)
    ensures r == Parse(s)
    ensures r.Ok? ==> 0 <= r.value <= MAX_PAISE
  {
    hide Parse, TrimSpace, SplitDots, Count, Value;
    ParseParts(s);
    var t := TrimSpace(s);
    if t == "" {
      assert SplitDots(t) == [""] by { SplitEmpty(); }
      return Err(InvalidInput);
    }
    var parts := SplitDots(t);
    if t[0] == '-' {
      assert |parts| <= 2 ==> !Digital(parts[0]) by { MinusStays(t); }
      return Err(InvalidInput);
    }
    if |parts| > 2 {
      return Err(InvalidInput);
    }
    var rupees := parts[0];
    if rupees == "" {
      rupees := "0";
    }
    var whole := AllDigits(rupees);
    if !whole {
      return Err(InvalidInput);
    }
    var paise := "00";
    if |parts| == 2 {
      var p := parts[1];
      var numeral := AllDigits(p);
      if p == "" || !numeral || |p| > 2 {
        return Err(InvalidInput);
      }
      paise := p;
      while |paise| < 2
        invariant Digital(paise) && |p| <= |paise| <= 2
        invariant paise == if |paise| == |p| then p else p + "0"
      {
        paise := paise + "0";
      }
    }
    ZeroValue();
    PaddedValue(LiteralOf(parts).fraction, paise);
    var whole64 := ParseInt(rupees);
    if whole64.None? {
      return Err(InvalidInput);
    }
    var paise64 := ParseInt(paise);
    if paise64.None? || whole64.value > MAX_RUPEES {
      return Err(InvalidInput);
    }
    r := Ok(WrapInt64(WrapInt64(whole64.value * 100) + paise64.value));
  }

  lemma ZeroValue()
    ensures Value("") == Value("0") == 0
  {
  }

  lemma SplitEmpty()
    ensures SplitDots("") == [""]
  {
  }

  lemma MinusStays(t: string)
    requires t != "" && t[0] == '-'
    ensures |SplitDots(t)| <= 2 ==> !Digital(SplitDots(t)[0])
  {
  }

  lemma OneDigit(a: char)
    requires IsDigit(a)
    ensures Value([a]) == DigitValue(a)
  {
    assert [a][..0] == "";
  }

  lemma TwoDigits(a: char, b: char)
    requires IsDigit(a) && IsDigit(b)
    ensures Value([a, b]) == 10 * DigitValue(a) + DigitValue(b)
  {
    assert [a, b][..1] == [a];
    OneDigit(a);
  }

  lemma PaddedValue(fraction: Option<string>, paise: string)
    requires fraction.Some? ==> Digital(fraction.value) && 1 <= |fraction.value| <= 2
    requires paise == match fraction
                      case None => "00"
                      case Some(f) => if |f| == 2 then f else f + "0"
    ensures Digital(paise) && Value(paise) <= 99
    ensures Value(paise)
         == if fraction.None? then 0 else if |fraction.value| == 1 then Value(fraction.value) * 10 else Value(fraction.value)
  {
    hide Value;
    assert |paise| == 2 && Digital(paise);
    assert paise == [paise[0], paise[1]];
    TwoDigits(paise[0], paise[1]);
    if fraction.Some? && |fraction.value| == 1 {
      assert fraction.value == [paise[0]];
      OneDigit(paise[0]);
    }
  }

  // ---- The printer ----

  /** %d */
  function Decimal(x: int): string {
    if x < 0 then "-" + Digits(-x) else Digits(x)
  }

  /** %02d: the sign counts as one of the two places. */
  function Decimal2(x: int): string {
    if 0 <= x < 10 then "0" + Digits(x) else Decimal(x)
  }

  function FormatPaise(p: int): string
    requires IsInt64(p)
  {
    var sign, q := if p < 0 then "-" else "", if p < 0 then WrapInt64(-p) else p;
    sign + Decimal(TruncDiv(q, 100)) + "." + Decimal2(q - 100 * TruncDiv(q, 100))
  }

  /** The literal printed for an amount that is not negative. */
  function Printed(p: nat): (l: Literal)
    ensures Proper(l) && Worth(l) == p && Value(l.rupees) == p / 100
    ensures NoLeadingZero(l.rupees) && l.fraction.Some? && |l.fraction.value| == 2
  {
    var f := [DigitChar(p % 100 / 10), DigitChar(p % 10)];
    assert f[..1] == [DigitChar(p % 100 / 10)] && f[..1][..0] == "";
    assert Value(f[..1]) == p % 100 / 10 && Value(f) == p % 100;
    Literal(Digits(p / 100), Some(f))
  }

  lemma LeastPrints()
    ensures FormatPaise(MIN_INT64) == "--92233720368547758.-8"
  {
    hide Digits, Value;
    assert WrapInt64(-MIN_INT64) == MIN_INT64;
    assert TruncDiv(MIN_INT64, 100) == -92233720368547758;
    ValueOf17();
    DigitsOfValue("92233720368547758");
    SmallDigits(8);
    assert "-" + ("-" + "92233720368547758") + "." + ("-" + "8") == "--92233720368547758.-8";
  }

  lemma LastDigit(n: nat)
    ensures Digits(n) == if n < 10 then [DigitChar(n)] else Digits(n / 10) + [DigitChar(n % 10)]
  {
    hide Value, Digital;
  }

  lemma SmallDigits(n: nat)
    requires n < 100
    ensures Decimal2(n) == [DigitChar(n / 10), DigitChar(n % 10)]
    ensures n < 10 ==> Digits(n) == [DigitChar(n)]
  {
    hide Value, Digital, Digits;
    LastDigit(n);
    if n < 10 {
      assert n / 10 == 0 && n % 10 == n && DigitChar(0) == '0';
    } else {
      LastDigit(n / 10);
    }
  }

  lemma Joined(sign: string, a: string, b: string)
    ensures sign + a + "." + b == sign + (a + ("." + b))
  {
  }

  lemma PositivePrints(q: nat)
    ensures Decimal(q / 100) + ("." + Decimal2(q % 100)) == Text(Printed(q))
  {
    hide Digits, Value, Digital, Decimal2;
    SmallDigits(q % 100);
    assert q % 100 % 10 == q % 10;
  }

  /** Amounts print as rupees and two digits of paise, negative ones behind a minus sign, except the least int64,
      which cannot be negated and prints as no number at all. */
  lemma FormatIs(p: int)
    requires IsInt64(p)
    ensures FormatPaise(p) == if p >= 0 then Text(Printed(p))
                              else if p > MIN_INT64 then "-" + Text(Printed(-p))
                              else "--92233720368547758.-8"
  {
    hide Decimal, Decimal2, Text, Printed;
    if p == MIN_INT64 {
      LeastPrints();
    } else {
      var q := if p < 0 then -p else p;
      var sign := if p < 0 then "-" else "";
      assert (if p < 0 then WrapInt64(-p) else p) == q;
      assert TruncDiv(q, 100) == q / 100 && q - 100 * (q / 100) == q % 100;
      Joined(sign, Decimal(q / 100), Decimal2(q % 100));
      PositivePrints(q);
      assert "" + Text(Printed(q)) == Text(Printed(q));
    }
  }

  lemma ValueOf17()
    ensures Value("92233720368547758") == 92233720368547758
  {
    hide Value;
    var s := "92233720368547758";
    ValueOf9();
    assert s[..9] == "922337203";
    StepValue(s, 10);
    StepValue(s, 11);
    StepValue(s, 12);
    StepValue(s, 13);
    StepValue(s, 14);
    StepValue(s, 15);
    StepValue(s, 16);
    StepValue(s, 17);
    assert s[..17] == s;
  }

  lemma ValueOf9()
    ensures Value("922337203") == 922337203
  {
    hide Value;
    var s := "922337203";
    ZeroValue();
    assert s[..0] == "";
    StepValue(s, 1);
    StepValue(s, 2);
    StepValue(s, 3);
    StepValue(s, 4);
    StepValue(s, 5);
    StepValue(s, 6);
    StepValue(s, 7);
    StepValue(s, 8);
    StepValue(s, 9);
    assert s[..9] == s;
  }

  lemma StepValue(s: string, n: nat)
    requires Digital(s) && 0 < n <= |s|
    ensures Value(s[..n]) == Value(s[..n - 1]) * 10 + DigitValue(s[n - 1])
  {
    assert s[..n][..n - 1] == s[..n - 1];
  }

  // ---- Parser and printer undo each other ----

  lemma TextIsTrimmed(l: Literal)
    requires Proper(l)
    ensures TrimSpace(Text(l)) == Text(l)
  {
  }

  /** Printing and parsing back gives the amount again exactly for the amounts from zero to the largest the parser
      takes; every other int64 prints to text it refuses. */
  lemma FormatThenParse(p: int)
    requires IsInt64(p)
    ensures Parse(FormatPaise(p)) == if 0 <= p <= MAX_PAISE then Ok(p) else Err(InvalidInput)
  {
    hide Parse, FormatPaise, TrimSpace, Decimal, Decimal2, Worth;
    FormatIs(p);
    if p >= 0 {
      TextIsTrimmed(Printed(p));
      ParseOf(FormatPaise(p), Printed(p));
    } else {
      var t := FormatPaise(p);
      assert t[0] == '-' && IsDigit(t[|t| - 1]);
      TrimKeeps(t);
      NoLiteral(t);
    }
  }

  /** How each kind of amount starts. */
  lemma FormatSign(p: int)
    requires IsInt64(p)
    ensures var f := FormatPaise(p);
            && |f| > 1
            && (p >= 0 ==> f[0] != '-')
            && (MIN_INT64 < p < 0 ==> f[0] == '-' && f[1] != '-' && f[1..] == Text(Printed(-p)))
            && (p == MIN_INT64 ==> f[0] == '-' && f[1] == '-')
  {
    hide FormatPaise;
    FormatIs(p);
  }

  /** Different amounts never print alike. */
  lemma FormatInjective(p: int, q: int)
    requires IsInt64(p) && IsInt64(q) && FormatPaise(p) == FormatPaise(q)
    ensures p == q
  {
    hide FormatPaise;
    FormatIs(p);
    FormatIs(q);
    FormatSign(p);
    FormatSign(q);
    if p >= 0 && q >= 0 {
      OneLiteral(Printed(p), Printed(q));
    } else if MIN_INT64 < p < 0 && MIN_INT64 < q < 0 {
      OneLiteral(Printed(-p), Printed(-q));
    }
  }

  /** Text in the printed form: no leading zero, two digits of paise, no spaces around it. */
  ghost predicate Canonical(s: string) {
    exists l :: Proper(l) && Text(l) == s && NoLeadingZero(l.rupees) && l.fraction.Some? && |l.fraction.value| == 2
  }

  lemma Digits2OfValue(f: string)
    requires Digital(f) && |f| == 2
    ensures Value(f) < 100 && f == [DigitChar(Value(f) / 10), DigitChar(Value(f) % 10)]
  {
    assert f[..1][..0] == "";
    assert Value(f[..1]) == DigitValue(f[0]);
  }

  lemma PrintedOf(l: Literal)
    requires Proper(l) && NoLeadingZero(l.rupees) && l.fraction.Some? && |l.fraction.value| == 2
    ensures Printed(Worth(l)) == l
  {
    DigitsOfValue(l.rupees);
    Digits2OfValue(l.fraction.value);
    var p, v, f := Worth(l), Value(l.rupees), Value(l.fraction.value);
    assert p == v * 100 + f && p / 100 == v && p % 100 == f && p % 10 == f % 10;
  }

  /** Accepted text stays in range, prints to a canonical form with the same meaning, and is left unchanged by it
      exactly when it was canonical already. */
  lemma ParseThenFormat(s: string)
    requires Parse(s).Ok?
    ensures 0 <= Parse(s).value <= MAX_PAISE && IsInt64(Parse(s).value)
    ensures Canonical(FormatPaise(Parse(s).value))
    ensures Parse(FormatPaise(Parse(s).value)) == Parse(s)
    ensures FormatPaise(Parse(s).value) == s <==> Canonical(s)
  {
    hide FormatPaise, TrimSpace;
    var l :| Writes(l, s) && Value(l.rupees) <= MAX_RUPEES && Parse(s) == Ok(Worth(l));
    var p := Worth(l);
    FractionBelow100(l);
    FormatIs(p);
    FormatThenParse(p);
    if Canonical(s) {
      var k :| Proper(k) && Text(k) == s && NoLeadingZero(k.rupees) && k.fraction.Some? && |k.fraction.value| == 2;
      TextIsTrimmed(k);
      OneLiteral(k, l);
      PrintedOf(l);
    }
  }

  lemma FractionBelow100(l: Literal)
    requires Proper(l)
    ensures Value(l.rupees) * 100 <= Worth(l) <= Value(l.rupees) * 100 + 99
  {
    if l.fraction.Some? {
      PaddedValue(l.fraction, if |l.fraction.value| == 2 then l.fraction.value else l.fraction.value + "0");
    }
  }
}
