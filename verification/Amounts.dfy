/** Decimal text and the three places that compute with it: itoa (pathfinder/cmd/main.go), the
    slippage minimum (pathfinder/router/brokers/slippage.go) and humanToBaseUnits and
    parseSlippageError (client_app/src/lib/utils.ts). */
module Amounts {
  import opened RouterTypes

  // ---------------------------------------------------------------------------------------------
  // Decimal text
  // ---------------------------------------------------------------------------------------------

  predicate IsDigit(c: char) { '0' <= c <= '9' }

  predicate Digits(s: string) {
    forall i :: 0 <= i < |s| ==> IsDigit(s[i])
  }

  function DigitValue(c: char): nat
    requires IsDigit(c)
  {
    (c - '0') as int
  }

  function DigitChar(d: nat): (c: char)
    requires d < 10
    ensures IsDigit(c) && DigitValue(c) == d
  {
    '0' + d as char
  }

  /** What a decimal parser reads. */
  function Value(s: string): nat
    requires Digits(s)
  {
    if s == "" then 0 else 10 * Value(s[..|s| - 1]) + DigitValue(s[|s| - 1])
  }

  function Print(n: nat): string {
    if n < 10 then [DigitChar(n)] else Print(n / 10) + [DigitChar(n % 10)]
  }

  /** No superfluous leading zero. */
  predicate Canonical(s: string) {
    s != "" && Digits(s) && (s[0] == '0' ==> s == "0")
  }

  lemma {:induction false} PrintIsRead(n: nat)
    ensures Canonical(Print(n)) && Value(Print(n)) == n
    ensures n > 0 ==> Print(n)[0] != '0'
  {
    if n < 10 {
      assert Print(n)[..0] == "";
    } else {
      PrintIsRead(n / 10);
      assert Print(n)[..|Print(n)| - 1] == Print(n / 10);
    }
  }

  /** n times ten to the k. */
  function Scale(n: nat, k: nat): nat {
    if k == 0 then n else 10 * Scale(n, k - 1)
  }

  lemma {:induction false} ValueConcat(s: string, t: string)
    requires Digits(s) && Digits(t)
    ensures Digits(s + t) && Value(s + t) == Scale(Value(s), |t|) + Value(t)
  {
    if t == "" {
      assert s + t == s;
    } else {
      var t', last := t[..|t| - 1], t[|t| - 1];
      ValueConcat(s, t');
      ValueSnoc(s + t', last);
      assert s + t == (s + t') + [last];
    }
  }

  lemma ValueSnoc(s: string, last: char)
    requires Digits(s) && IsDigit(last)
    ensures Digits(s + [last]) && Value(s + [last]) == 10 * Value(s) + DigitValue(last)
  {
    assert (s + [last])[..|s|] == s;
  }

  lemma {:induction false} Zeros(n: nat)
    ensures Digits(seq(n, _ => '0')) && Value(seq(n, _ => '0')) == 0
  {
    if n > 0 {
      Zeros(n - 1);
      assert seq(n, _ => '0')[..n - 1] == seq(n - 1, _ => '0');
    }
  }

  lemma {:induction false} ScaleAdd(a: nat, b: nat, k: nat)
    ensures Scale(a + b, k) == Scale(a, k) + Scale(b, k)
  {
    if k > 0 { ScaleAdd(a, b, k - 1); }
  }

  lemma {:induction false} ScaleTwice(n: nat, j: nat, k: nat)
    ensures Scale(Scale(n, j), k) == Scale(n, j + k)
  {
    if k > 0 { ScaleTwice(n, j, k - 1); }
  }

  lemma {:induction false} ScaleMonotone(a: nat, b: nat, k: nat)
    ensures a < b <==> Scale(a, k) < Scale(b, k)
    ensures a == b <==> Scale(a, k) == Scale(b, k)
  {
    if k > 0 { ScaleMonotone(a, b, k - 1); }
  }

  // ---------------------------------------------------------------------------------------------
  // itoa
  // ---------------------------------------------------------------------------------------------

  const MIN_INT64: int := -0x8000_0000_0000_0000
  const MAX_INT64: int := 0x7fff_ffff_ffff_ffff

  predicate Int64(i: int) { MIN_INT64 <= i <= MAX_INT64 }

  /** Two's complement wrap-around. */
  function Wrap64(i: int): int {
    (i - MIN_INT64) % 0x1_0000_0000_0000_0000 + MIN_INT64
  }

  /** What a signed decimal parser reads, if anything. */
  function ReadSigned(s: string): Option<int> {
    if s != "" && Digits(s) then Some(Value(s) as int)
    else if |s| > 1 && s[0] == '-' && Digits(s[1..]) then Some(-(Value(s[1..]) as int))
    else None
  }

  function FormatInt(i: int): string {
    if i < 0 then "-" + Print(-i) else Print(i)
  }

  lemma FormatIntIsRead(i: int)
    ensures ReadSigned(FormatInt(i)) == Some(i)
    ensures Canonical(if i < 0 then FormatInt(i)[1..] else FormatInt(i))
  {
    PrintIsRead(if i < 0 then -i else i);
  }

  lemma {:induction false} PrintedLength(n: nat, k: nat)
    requires k > 0 && n < Scale(1, k)
    ensures |Print(n)| <= k
  {
    if n >= 10 {
      PrintedLength(n / 10, k - 1);
    }
  }

  lemma MaxIntHasNineteenDigits()
    ensures MAX_INT64 < Scale(1, 19)
  {
    assert Scale(1, 4) == 10000;
    ScaleTwice(1, 4, 4);
    ScaleTwice(1, 8, 8);
    ScaleTwice(1, 16, 3);
    assert Scale(1, 8) == 10000_0000;
    assert Scale(1, 16) == 10000_0000_0000_0000;
  }

  lemma NineteenDigits(i: int)
    requires i <= MAX_INT64
    ensures i > 0 ==> |Print(i)| <= 19
  {
    if i > 0 {
      MaxIntHasNineteenDigits();
      PrintedLength(i, 19);
    }
  }

  /** The digit loop: writes leftwards from the end of the buffer, leaving room for a sign. */
  method WriteDigits(buf: array<char>, n: int) returns (pos: int)
    requires n > 0 ==> |Print(n)| < buf.Length
    modifies buf
    ensures 0 <= pos <= buf.Length
    ensures n > 0 ==> buf[pos..] == Print(n) && pos >= 1
    ensures n <= 0 ==> pos == buf.Length
  {
    pos := buf.Length;
    var i := n;
    while i > 0
      invariant 0 <= pos <= buf.Length && (n > 0 ==> 0 <= i) && (n <= 0 ==> i == n && pos == buf.Length)
      invariant i > 0 ==> Print(n) == Print(i) + buf[pos..] && |Print(i)| < pos
      invariant i == 0 && n > 0 ==> Print(n) == buf[pos..] && pos >= 1
      decreases i
    {
      pos := pos - 1;
      ghost var tail := buf[pos + 1..];
      buf[pos] := DigitChar(i % 10);
      assert buf[pos..] == [DigitChar(i % 10)] + tail;
      assert Print(n) == Print(i) + tail;
      i := i / 10;
    }
  }

  lemma NegationWraps(i: int)
    requires Int64(i) && i < 0
    ensures Wrap64(-i) == if i == MIN_INT64 then i else -i
  {}

  /** Prints i in decimal: what a parser reads back. For the minimum int64, -i is i again, the digit
      loop never runs and the sign stands alone; every other value is printed exactly. */
  method Itoa(i0: int) returns (s: string)
    requires Int64(i0)
    ensures i0 != MIN_INT64 ==> s == FormatInt(i0)
    ensures i0 == MIN_INT64 ==> s == "-"
  {
    var i := i0;
    if i == 0 { return "0"; }
    var buf := new char[20];
    var negative := i < 0;
    if negative {
      NegationWraps(i);
      i := Wrap64(-i);
    }
    NineteenDigits(i);
    var pos := WriteDigits(buf, i);
    if negative {
      pos := PutSign(buf, pos);
    }
    return buf[pos..];
  }

  method PutSign(buf: array<char>, end: int) returns (pos: int)
    requires 0 < end <= buf.Length
    modifies buf
    ensures pos == end - 1 && buf[pos..] == "-" + old(buf[end..])
  {
    pos := end - 1;
    ghost var digits := buf[end..];
    buf[pos] := '-';
    assert buf[pos..] == ['-'] + digits;
  }

  /** The value is read back exactly when it is not the minimum int64. */
  lemma ItoaRoundTrip(i: int, s: string)
    requires Int64(i) && s == (if i == MIN_INT64 then "-" else FormatInt(i))
    ensures ReadSigned(s) == Some(i) <==> i != MIN_INT64
  {
    FormatIntIsRead(i);
  }

  // ---------------------------------------------------------------------------------------------
  // Slippage
  // ---------------------------------------------------------------------------------------------

  /** strconv.ParseInt(s, 10, 64): a leading sign is allowed, out-of-range values are errors. */
  function ParseInt64(s: string): Option<int> {
    var t := if s != "" && s[0] == '+' && ReadSigned(s[1..]).Some? && s[1..] != "" && s[1] != '-' then s[1..] else s;
    var v := ReadSigned(t);
    if v.Some? && Int64(v.value) then v else None
  }

  function IfInRange(i: int): Option<int> {
    if Int64(i) then Some(i) else None
  }

  /** Which texts are parsed, and as what: decimal digits with at most one sign, if in range. */
  lemma {:induction false} ParseInt64Reads(t: string)
    ensures t != "" && Digits(t) ==> ParseInt64(t) == IfInRange(Value(t))
    ensures |t| > 1 && t[0] == '-' && Digits(t[1..]) ==> ParseInt64(t) == IfInRange(-(Value(t[1..]) as int))
    ensures |t| > 1 && t[0] == '+' && Digits(t[1..]) ==> ParseInt64(t) == IfInRange(Value(t[1..]))
    ensures ParseInt64(t).Some? ==> t != "" && (Digits(t) || (|t| > 1 && t[0] in "+-" && Digits(t[1..])))
  {
    if t != "" && !IsDigit(t[0]) {
      assert !Digits(t);
      if t[0] == '+' && ReadSigned(t[1..]).Some? && t[1..] != "" && t[1] != '-' {
        assert Digits(t[1..]);
      }
    }
    if |t| > 1 && Digits(t[1..]) {
      assert IsDigit(t[1..][0]);
    }
  }

  /** What a minimum must say for a quote: if the quote is a number and the product fits, the floor of
      the share that the slippage leaves; if it is no number, the quote itself. */
  predicate Minimum(text: string, quote: string, bps: nat) {
    match ParseInt64(quote)
    case None => text == quote
    case Some(e) =>
      e >= 0 && bps <= 10000 && e * (10000 - bps) <= 0x7fff_ffff_ffff_ffff ==> ReadSigned(text) == Some(e * (10000 - bps) / 10000)
  }

  lemma CalculatedIsMinimum(quote: string, bps: nat)
    ensures var m := CalculateMinOutput(quote, bps); Minimum(if m.Some? then m.value else quote, quote, bps)
  {
    var e := ParseInt64(quote);
    if e.Some? && e.value >= 0 && bps <= 10000 && e.value * (10000 - bps) <= MAX_INT64 {
      MinOutputExact(quote, bps);
      FormatIntIsRead(MinOutput(e.value, bps));
    }
  }

  /** Go's integer division truncates toward zero. */
  function TruncDiv(a: int, b: int): int
    requires b > 0
  {
    if a >= 0 then a / b else -((-a) / b)
  }

  /** The wrapped value is in range and off by a multiple of 2^64; the quotient leaves a remainder
      smaller than the divisor, of the dividend's sign. */
  lemma MachineArithmetic(i: int, b: int)
    requires b > 0
    ensures Int64(Wrap64(i)) && (Wrap64(i) - i) % 0x1_0000_0000_0000_0000 == 0
    ensures var rest := i - TruncDiv(i, b) * b; if i >= 0 then 0 <= rest < b else -b < rest <= 0
  {}

  /** uint32 subtraction, int64 product, truncating quotient. */
  function SlippageQuotient(expected: int, slippageBps: nat): int {
    TruncDiv(Wrap64(expected * ((10000 - slippageBps) % 0x1_0000_0000)), 10000)
  }

  function CalculateMinOutput(expectedOutput: string, slippageBps: nat): Option<string> {
    var expected := ParseInt64(expectedOutput);
    if expected.None? then None else Some(FormatInt(SlippageQuotient(expected.value, slippageBps)))
  }

  function MinOutput(expected: int, bps: nat): int {
    expected * (10000 - bps) / 10000
  }

  /** For a guarded slippage the minimum is exactly the floor, and exactly when the product fits. */
  lemma MinOutputExact(text: string, bps: nat)
    requires ParseInt64(text).Some? && ParseInt64(text).value >= 0 && bps <= 10000
    ensures var e := ParseInt64(text).value;
            CalculateMinOutput(text, bps) == Some(FormatInt(MinOutput(e, bps))) <==> e * (10000 - bps) <= MAX_INT64
  {
    var e := ParseInt64(text).value;
    QuotientExact(e, bps);
    FormatIntIsRead(MinOutput(e, bps));
    FormatIntIsRead(SlippageQuotient(e, bps));
  }

  lemma QuotientExact(e: int, bps: nat)
    requires 0 <= e <= MAX_INT64 && bps <= 10000
    ensures SlippageQuotient(e, bps) == MinOutput(e, bps) <==> e * (10000 - bps) <= MAX_INT64
  {
    assert (10000 - bps) % 0x1_0000_0000 == 10000 - bps;
    ProductMonotone(0, e, 10000 - bps);
    ProductMonotone(10000 - bps, 10000, e);
    ProductMonotone(e, MAX_INT64, 10000);
    WrappedQuotient(e * (10000 - bps));
  }

  lemma WrappedQuotient(product: int)
    requires 0 <= product <= MAX_INT64 * 10000
    ensures TruncDiv(Wrap64(product), 10000) == product / 10000 <==> product <= MAX_INT64
  {
    if product > MAX_INT64 {
      var w := Wrap64(product);
      assert w <= product - 0x1_0000_0000_0000_0000;
      assert w < 0 ==> TruncDiv(w, 10000) <= 0;
    }
  }

  /** A quote that does not fit: 10^15 base units, a thousandth of a token with 18 decimals. */
  lemma MinOutputOverflows()
    ensures ParseInt64(Print(1_000_000_000_000_000)) == Some(1_000_000_000_000_000)
    ensures CalculateMinOutput(Print(1_000_000_000_000_000), 100) != Some(FormatInt(MinOutput(1_000_000_000_000_000, 100)))
  {
    PrintIsRead(1_000_000_000_000_000);
    MinOutputExact(Print(1_000_000_000_000_000), 100);
  }

  lemma MinOutputBounds(e: int, bps: nat)
    requires 0 <= e && bps <= 10000
    ensures 0 <= MinOutput(e, bps) <= e
    ensures MinOutput(e, bps) * 10000 <= e * (10000 - bps) < (MinOutput(e, bps) + 1) * 10000
    ensures forall e' :: e <= e' ==> MinOutput(e, bps) <= MinOutput(e', bps)
    ensures forall b :: 0 <= b <= bps ==> MinOutput(e, bps) <= MinOutput(e, b)
  {
    ProductMonotone(0, e, 10000 - bps);
    ProductMonotone(10000 - bps, 10000, e);
    forall e' | e <= e' ensures MinOutput(e, bps) <= MinOutput(e', bps) {
      ProductMonotone(e, e', 10000 - bps);
    }
    forall b | 0 <= b <= bps ensures MinOutput(e, bps) <= MinOutput(e, b) {
      ProductMonotone(10000 - bps, 10000 - b, e);
    }
  }

  lemma ProductMonotone(a: int, b: int, k: int)
    requires a <= b && k >= 0
    ensures a * k <= b * k && k * a <= k * b
  {}

  /** parseSlippageError. BigInt division truncates; ceilAbs is Math.ceil of a double within half of
      the exact hundredfold percentage, so it is that value or one more. */
  function SuggestedSlippageBps(ceilAbs: nat): nat {
    if ceilAbs + 50 < 100 then 100 else ceilAbs + 50
  }

  lemma SuggestionCoversShortfall(calculated: nat, min: nat, ceilAbs: nat)
    requires 0 < min && calculated < min
    requires -TruncDiv((calculated - min) * 10000, min) <= ceilAbs <= -TruncDiv((calculated - min) * 10000, min) + 1
    ensures calculated * 10000 >= min * (10000 - SuggestedSlippageBps(ceilAbs))
  {
    var shortfall := (min - calculated) * 10000;
    assert (calculated - min) * 10000 == -shortfall;
    var q := shortfall / min;
    assert shortfall < min * (q + 1);
    ProductMonotone(q + 1, SuggestedSlippageBps(ceilAbs), min);
    assert min * (10000 - SuggestedSlippageBps(ceilAbs)) == min * 10000 - min * SuggestedSlippageBps(ceilAbs);
  }

  /** It is 1%, or at most 51 basis points more than would just do. */
  lemma SuggestionIsTight(calculated: nat, min: nat, ceilAbs: nat)
    requires 0 < min && calculated < min
    requires -TruncDiv((calculated - min) * 10000, min) <= ceilAbs <= -TruncDiv((calculated - min) * 10000, min) + 1
    ensures var s := SuggestedSlippageBps(ceilAbs);
            s >= 100 && (s > 100 ==> calculated * 10000 <= min * (10000 - (s - 51)))
  {
    var shortfall := (min - calculated) * 10000;
    assert (calculated - min) * 10000 == -shortfall;
    var q, s := shortfall / min, SuggestedSlippageBps(ceilAbs);
    if s > 100 {
      assert s - 51 <= q;
      ProductMonotone(s - 51, q, min);
      assert min * (10000 - (s - 51)) == min * 10000 - min * (s - 51);
    }
  }

  // ---------------------------------------------------------------------------------------------
  // humanToBaseUnits
  // ---------------------------------------------------------------------------------------------

  /** The text up to the first dot, and what follows it. */
  function BeforeDot(s: string): string {
    if s == "" || s[0] == '.' then "" else [s[0]] + BeforeDot(s[1..])
  }

  function AfterDot(s: string): string {
    if s == "" then "" else if s[0] == '.' then s[1..] else AfterDot(s[1..])
  }

  function PadEnd(s: string, n: nat): string {
    if |s| >= n then s else s + seq(n - |s|, _ => '0')
  }

  /** Sign and digits only: BigInt's hexadecimal, octal and blank forms are not part of this model. */
  function BigIntText(s: string): Option<string> {
    var v := ReadSigned(s);
    if v.Some? then Some(FormatInt(v.value)) else None
  }

  function HumanToBaseUnits(humanAmount: string, decimals: nat): string {
    if humanAmount == "" || humanAmount == "0" then "0"
    else CombineParts(BeforeDot(humanAmount), BeforeDot(AfterDot(humanAmount)), decimals)
  }

  function CombineParts(integer: string, fraction: string, decimals: nat): string {
    var integerPart := if integer == "" then "0" else integer;
    var decimalPart := PadEnd(fraction, decimals)[..decimals];
    var amount := BigIntText(integerPart + decimalPart);
    if amount.Some? then amount.value else "0"
  }

  lemma {:induction false} SplitAtDot(i: string, rest: string)
    requires Digits(i) && (rest == "" || rest[0] == '.')
    ensures BeforeDot(i + rest) == i
    ensures AfterDot(i + rest) == if rest == "" then "" else rest[1..]
  {
    if i == "" {
      assert i + rest == rest;
    } else {
      assert (i + rest)[1..] == i[1..] + rest;
      SplitAtDot(i[1..], rest);
    }
  }

  /** n is a/10^k rounded down. */
  predicate IsFloor(n: nat, a: nat, k: nat) {
    Scale(n, k) <= a < Scale(n + 1, k)
  }

  /** The digits i.f read as one integer, in units of 10^-|f|. */
  function Fixed(i: string, f: string): nat
    requires Digits(i) && Digits(f)
  {
    Scale(Value(i), |f|) + Value(f)
  }

  /** The amount i.f as a user may write it; without a fraction the dot may be missing. */
  predicate Written(text: string, i: string, f: string) {
    text == i + "." + f || (text == i && f == "")
  }

  /** humanToBaseUnits is exact truncation of i.f * 10^d, printed canonically: the error is below
      one base unit. */
  lemma HumanToBaseUnitsTruncates(text: string, i: string, f: string, d: nat) returns (n: nat)
    requires Digits(i) && Digits(f) && Written(text, i, f)
    ensures HumanToBaseUnits(text, d) == Print(n) && Canonical(Print(n)) && Value(Print(n)) == n
    ensures IsFloor(n, Scale(Fixed(i, f), d), |f|)
  {
    Parts(text, i, f);
    if text == "" || text == "0" {
      ZeroText(text, i, f);
      n := 0;
      ZeroIsFloor(i, f, d);
    } else {
      n := CombinedParts(i, f, d);
    }
    PrintIsRead(n);
  }

  lemma CombinedParts(i: string, f: string, d: nat) returns (n: nat)
    requires Digits(i) && Digits(f)
    ensures CombineParts(i, f, d) == Print(n)
    ensures IsFloor(n, Scale(Fixed(i, f), d), |f|)
  {
    PaddedValue(f, d);
    var part := Value(PadEnd(f, d)[..d]);
    n := Scale(Value(i), d) + part;
    FloorShift(Value(i), part, Value(f), d, |f|);
    HumanText(i, f, d);
  }

  lemma Parts(text: string, i: string, f: string)
    requires Digits(i) && Digits(f) && Written(text, i, f)
    ensures BeforeDot(text) == i && BeforeDot(AfterDot(text)) == f
  {
    assert f + "" == f;
    SplitAtDot(f, "");
    if text == i + "." + f {
      assert text == i + ("." + f) && ("." + f)[1..] == f;
      SplitAtDot(i, "." + f);
    } else {
      assert text == i + "";
      SplitAtDot(i, "");
    }
  }

  // Only a missing amount and a bare zero take the early return.
  lemma ZeroText(text: string, i: string, f: string)
    requires Digits(i) && Digits(f) && Written(text, i, f) && (text == "" || text == "0")
    ensures f == "" && Value(i) == 0
  {
    assert "0"[..0] == "";
    assert text == i + "." + f ==> '.' in text;
  }

  lemma ZeroIsFloor(i: string, f: string, d: nat)
    requires f == "" && Digits(i) && Value(i) == 0
    ensures IsFloor(0, Scale(Fixed(i, f), d), |f|)
  {
    ScaleZero(d);
  }

  lemma {:induction false} ScaleZero(k: nat)
    ensures Scale(0, k) == 0
  {
    if k > 0 { ScaleZero(k - 1); }
  }

  lemma HumanText(i: string, f: string, d: nat)
    requires Digits(i) && Digits(f)
    requires Digits(PadEnd(f, d)[..d]) && |PadEnd(f, d)[..d]| == d
    ensures CombineParts(i, f, d) == Print(Scale(Value(i), d) + Value(PadEnd(f, d)[..d]))
  {
    var whole := if i == "" then "0" else i;
    assert Value(whole) == Value(i) by { assert "0"[..0] == ""; }
    WholeText(whole, PadEnd(f, d)[..d]);
  }

  lemma WholeText(whole: string, part: string)
    requires whole != "" && Digits(whole) && Digits(part)
    ensures BigIntText(whole + part) == Some(FormatInt(Scale(Value(whole), |part|) + Value(part)))
  {
    ValueConcat(whole, part);
  }

  lemma FloorShift(v: nat, n: nat, w: nat, d: nat, k: nat)
    requires IsFloor(n, Scale(w, d), k)
    ensures IsFloor(Scale(v, d) + n, Scale(Scale(v, k) + w, d), k)
  {
    ScaleAdd(Scale(v, d), n, k);
    ScaleAdd(Scale(v, d), n + 1, k);
    ScaleTwice(v, d, k);
    ScaleAdd(Scale(v, k), w, d);
    ScaleTwice(v, k, d);
  }

  lemma {:induction false} ValueBelow(s: string)
    requires Digits(s)
    ensures Value(s) < Scale(1, |s|)
  {
    if s != "" { ValueBelow(s[..|s| - 1]); }
  }

  lemma {:induction false} PaddedValue(f: string, d: nat)
    requires Digits(f)
    ensures var part := PadEnd(f, d)[..d];
            Digits(part) && |part| == d && IsFloor(Value(part), Scale(Value(f), d), |f|)
  {
    if |f| >= d {
      CutPart(f, d);
    } else {
      PadValue(f, d);
    }
  }

  lemma {:induction false} CutPart(f: string, d: nat)
    requires Digits(f) && |f| >= d
    ensures Digits(f[..d]) && IsFloor(Value(f[..d]), Scale(Value(f), d), |f|)
  {
    var head, tail, k := f[..d], f[d..], |f| - d;
    assert f == head + tail;
    assert d + k == |f|;
    CutValue(f, head, tail, d, k);
  }

  lemma {:induction false} CutValue(f: string, head: string, tail: string, d: nat, k: nat)
    requires Digits(f) && f == head + tail && |head| == d && |tail| == k
    ensures Digits(head) && IsFloor(Value(head), Scale(Value(f), d), d + k)
  {
    assert Digits(head) by { assert forall i :: 0 <= i < d ==> head[i] == f[i]; }
    assert Digits(tail) by { assert forall i :: 0 <= i < k ==> tail[i] == f[d + i]; }
    ValueConcat(head, tail);
    ValueBelow(tail);
    CutTail(Value(f), Value(head), Value(tail), d, k);
  }

  lemma {:induction false} CutTail(n: nat, v: nat, t: nat, j: nat, k: nat)
    requires n == Scale(v, k) + t && t < Scale(1, k)
    ensures IsFloor(v, Scale(n, j), j + k)
  {
    ScaleAdd(Scale(v, k), t, j);
    ScaleTwice(v, k, j);
    ScaleMonotone(t, Scale(1, k), j);
    ScaleTwice(1, k, j);
    ScaleAdd(v, 1, j + k);
  }

  lemma {:induction false} PadValue(f: string, d: nat)
    requires Digits(f) && |f| < d
    ensures var part := PadEnd(f, d)[..d];
            Digits(part) && |part| == d && IsFloor(Value(part), Scale(Value(f), d), |f|)
  {
    var zeros := seq(d - |f|, _ => '0');
    assert PadEnd(f, d)[..d] == f + zeros;
    Zeros(d - |f|);
    ValueConcat(f, zeros);
    ScaleTwice(Value(f), d - |f|, |f|);
    ScaleMonotone(Value(f + zeros), Value(f + zeros) + 1, |f|);
  }

  /** A larger amount (i.f <= i'.f' as decimals) never yields fewer base units. */
  lemma HumanToBaseUnitsMonotone(text: string, i: string, f: string, text': string, i': string, f': string, d: nat)
    requires Digits(i) && Digits(f) && Digits(i') && Digits(f')
    requires Written(text, i, f) && Written(text', i', f')
    requires Scale(Fixed(i, f), |f'|) <= Scale(Fixed(i', f'), |f|)
    ensures Digits(HumanToBaseUnits(text, d)) && Digits(HumanToBaseUnits(text', d))
    ensures Value(HumanToBaseUnits(text, d)) <= Value(HumanToBaseUnits(text', d))
  {
    var n := HumanToBaseUnitsTruncates(text, i, f, d);
    var n' := HumanToBaseUnitsTruncates(text', i', f', d);
    FloorsMonotone(n, n', Fixed(i, f), Fixed(i', f'), |f|, |f'|, d);
  }

  lemma FloorsMonotone(n: nat, n': nat, x: nat, x': nat, k: nat, k': nat, d: nat)
    requires Scale(x, k') <= Scale(x', k)
    requires IsFloor(n, Scale(x, d), k) && IsFloor(n', Scale(x', d), k')
    ensures n <= n'
  {
    // n 10^(k+k') <= x 10^(d+k') <= x' 10^(d+k) < (n'+1) 10^(k'+k)
    ScaleMonotone(Scale(n, k), Scale(x, d), k');
    ScaleMonotone(Scale(x, k'), Scale(x', k), d);
    ScaleMonotone(Scale(x', d), Scale(n' + 1, k'), k);
    ScaleTwice(n, k, k');
    ScaleTwice(x, d, k');
    ScaleTwice(x, k', d);
    ScaleTwice(x', k, d);
    ScaleTwice(x', d, k);
    ScaleTwice(n' + 1, k', k);
    ScaleMonotone(n, n' + 1, k + k');
  }
}
