/** Amounts as text: `fmt18` of the leverage script against `toBaseUnits` of the funding script. */
module Decimals {
  import opened Wrappers
  import opened Arithmetic

  function Pow10(k: nat): (r: nat)
    ensures r > 0
  {
    if k == 0 then 1 else 10 * Pow10(k - 1)
  }

  lemma {:induction false} Pow10Add(a: nat, b: nat)
    ensures Pow10(a + b) == Pow10(a) * Pow10(b)
    decreases b
  {
    if b > 0 {
      Pow10Add(a, b - 1);
    }
  }

  // ---------------------------------------------------------------- digit strings

  predicate IsDigit(c: char) {
    '0' <= c <= '9'
  }

  predicate Digits(s: string) {
    forall i :: 0 <= i < |s| ==> IsDigit(s[i])
  }

  function DigitValue(c: char): (d: nat)
    requires IsDigit(c)
    ensures d < 10
  {
    (c - '0') as int
  }

  function DigitChar(d: nat): (c: char)
    requires d < 10
    ensures IsDigit(c) && DigitValue(c) == d
  {
    '0' + d as char
  }

  function Val(s: string): nat
    requires Digits(s)
  {
    if s == "" then 0 else Val(s[..|s| - 1]) * 10 + DigitValue(s[|s| - 1])
  }

  /** A non-negative BigInt's `toString`. */
  function Dec(n: nat): (s: string)
    ensures Digits(s) && |s| >= 1
  {
    if n < 10 then [DigitChar(n)] else Dec(n / 10) + [DigitChar(n % 10)]
  }

  lemma {:induction false} ValDec(n: nat)
    ensures Val(Dec(n)) == n
  {
    if n < 10 {
      assert Dec(n)[..0] == "";
    } else {
      ValDec(n / 10);
      assert Dec(n)[..|Dec(n)| - 1] == Dec(n / 10);
    }
  }

  /** Different numbers print differently. */
  lemma {:induction false} DecInjective(a: nat, b: nat)
    requires Dec(a) == Dec(b)
    ensures a == b
  {
    ValDec(a);
    ValDec(b);
  }

  lemma {:induction false} DecLength(n: nat, k: nat)
    requires k >= 1 && n < Pow10(k)
    ensures |Dec(n)| <= k
    decreases k
  {
    if n >= 10 {
      assert Pow10(k) == 10 * Pow10(k - 1);
      DecLength(n / 10, k - 1);
    }
  }

  lemma {:induction false} Shift(x: nat, p: nat, y: nat)
    ensures (x * p + y) * 10 == x * (10 * p) + y * 10
  {
  }

  lemma {:induction false} ValAppend(a: string, b: string)
    requires Digits(a) && Digits(b)
    ensures Digits(a + b)
    ensures Val(a + b) == Val(a) * Pow10(|b|) + Val(b)
    decreases |b|
  {
    if b == "" {
      assert a + b == a;
    } else {
      var n := |b| - 1;
      assert (a + b)[..|a + b| - 1] == a + b[..n];
      ValAppend(a, b[..n]);
      Shift(Val(a), Pow10(n), Val(b[..n]));
    }
  }

  lemma {:induction false} ValBound(s: string)
    requires Digits(s)
    ensures Val(s) < Pow10(|s|)
    decreases |s|
  {
    if s != "" {
      ValBound(s[..|s| - 1]);
    }
  }

  function Zeros(k: nat): (s: string)
    ensures |s| == k && Digits(s)
  {
    if k == 0 then "" else Zeros(k - 1) + "0"
  }

  lemma {:induction false} ValZeros(k: nat)
    ensures Val(Zeros(k)) == 0
  {
    if k > 0 {
      ValZeros(k - 1);
      assert Zeros(k)[..k - 1] == Zeros(k - 1);
    }
  }

  // ---------------------------------------------------------------- quotients

  function Quot(a: nat, d: nat): (q: nat)
    requires d > 0
  {
    a / d
  }

  function Rem(a: nat, d: nat): (r: nat)
    requires d > 0
    ensures r < d
  {
    a % d
  }

  lemma {:induction false} QuotRem(a: nat, d: nat)
    requires d > 0
    ensures a == Quot(a, d) * d + Rem(a, d)
  {
  }

  lemma {:induction false} QuotUnique(x: nat, q: nat, r: nat, d: nat)
    requires d > 0 && x == q * d + r && r < d
    ensures Quot(x, d) == q && Rem(x, d) == r
  {
    QuotRem(x, d);
    MulMonoIf(q + 1, Quot(x, d), d);
    MulMonoIf(Quot(x, d) + 1, q, d);
    assert (q + 1) * d == q * d + d && (Quot(x, d) + 1) * d == Quot(x, d) * d + d;
  }

  // ---------------------------------------------------------------- fmt18

  function PadStart(s: string, k: nat): (r: string)
    ensures |r| >= k
  {
    if |s| >= k then s else Zeros(k - |s|) + s
  }

  function SignText(negative: bool): string {
    if negative then "-" else ""
  }

  /** Sign, whole part, and the first `k` of the `n` decimals that spell `r`. */
  function Shown(negative: bool, whole: nat, r: nat, n: nat, k: nat): string
    requires k <= n
  {
    SignText(negative) + Dec(whole) + "." + PadStart(Dec(r), n)[..k]
  }

  /**
    An integer amount of `n` decimals with the first `k` of them shown, and a sign. The script's `fmt18`
    is this with n = 18 and k = 6; `fmt8`, for non-negative amounts, with n = 8 and k = 4.
   */
  function Fmt(b: int, n: nat, k: nat): string
    requires k <= n
  {
    var abs: nat := if b < 0 then -b else b;
    Shown(b < 0, Quot(abs, Pow10(n)), Rem(abs, Pow10(n)), n, k)
  }

  function Fmt18(b: int): string {
    Fmt(b, 18, 6)
  }

  /** The first `k` digits are the number without its other digits. */
  lemma {:induction false} PrefixValue(f: string, k: nat)
    requires Digits(f) && k <= |f|
    ensures Digits(f[..k]) && Val(f[..k]) == Quot(Val(f), Pow10(|f| - k))
  {
    var a, b := f[..k], f[k..];
    assert f == a + b;
    ValAppend(a, b);
    ValBound(b);
    QuotUnique(Val(f), Val(a), Val(b), Pow10(|f| - k));
  }

  /** Padding to `n` digits keeps the number. */
  lemma {:induction false} PaddedDigits(r: nat, n: nat)
    requires 1 <= n && r < Pow10(n)
    ensures var f := PadStart(Dec(r), n);
      |f| == n && Digits(f) && Val(f) == r
  {
    DecLength(r, n);
    PaddedValue(r, n - |Dec(r)|);
    assert PadStart(Dec(r), n) == Zeros(n - |Dec(r)|) + Dec(r);
  }

  /** The first `k` of `n` padded digits. */
  lemma {:induction false} PaddedPrefix(r: nat, n: nat, k: nat)
    requires 1 <= n && k <= n && r < Pow10(n)
    ensures var f := PadStart(Dec(r), n);
      |f| == n && Digits(f) && Digits(f[..k]) && Val(f[..k]) == Quot(r, Pow10(n - k))
  {
    PaddedDigits(r, n);
    PrefixValue(PadStart(Dec(r), n), k);
  }

  lemma {:induction false} PaddedValue(r: nat, k: nat)
    ensures Val(Zeros(k) + Dec(r)) == r
  {
    ValAppend(Zeros(k), Dec(r));
    ValZeros(k);
    ValDec(r);
  }

  // ---------------------------------------------------------------- toBaseUnits

  /** `BigInt` of an optionally signed decimal string; the empty string is 0, anything else throws. */
  function ParseBigInt(s: string): Option<int> {
    if Digits(s) then Some(Val(s))
    else if s[0] == '-' && |s| > 1 && Digits(s[1..]) then Some(-(Val(s[1..]) as int))
    else if s[0] == '+' && |s| > 1 && Digits(s[1..]) then Some(Val(s[1..]))
    else None
  }

  /** Index of the first dot from `i` on, or the string's length. */
  function Dot(s: string, i: nat): (k: nat)
    requires i <= |s|
    ensures i <= k <= |s|
    ensures k < |s| ==> s[k] == '.'
    ensures forall j :: i <= j < k ==> s[j] != '.'
    decreases |s| - i
  {
    if i == |s| || s[i] == '.' then i else Dot(s, i + 1)
  }

  /** The first two parts of `split(".")`; a missing second part is empty. */
  function Split(s: string): (string, string) {
    var k := Dot(s, 0);
    if k == |s| then (s, "") else (s[..k], s[k + 1..Dot(s, k + 1)])
  }

  /** Whole units as text to base units; `None` where the script throws. */
  function ToBaseUnits(human: string, decimals: nat): Option<int> {
    if human == "" || human == "0" then Some(0)
    else
      var (whole, frac) := Split(human);
      var w := ParseBigInt(whole);
      var f := ParseBigInt(Field(frac, decimals));
      if w.Some? && f.Some? then Some(w.value * Pow10(decimals) + f.value) else None
  }

  predicate Truncates(v: nat, f: nat, pf: nat, pd: nat) {
    v * pf <= f * pd < (v + 1) * pf
  }

  /** The fraction, cut to `decimals` places, against its exact value. */
  lemma {:induction false} CutFraction(frac: string, decimals: nat)
    requires Digits(frac) && decimals <= |frac|
    ensures Digits(frac[..decimals])
    ensures Truncates(Val(frac[..decimals]), Val(frac), Pow10(|frac|), Pow10(decimals))
  {
    var a, b := frac[..decimals], frac[decimals..];
    assert frac == a + b;
    ValAppend(a, b);
    ValBound(b);
    Pow10Add(decimals, |b|);
    Rescale(Val(a), Val(b), Pow10(|b|), Pow10(decimals), Val(frac), Pow10(|frac|));
  }

  lemma {:induction false} Rescale(v: nat, r: nat, p: nat, d: nat, f: nat, pf: nat)
    requires r < p && d > 0 && f == v * p + r && pf == d * p
    ensures Truncates(v, f, pf, d)
  {
    assert v * (d * p) == (v * p) * d;
    assert (v + 1) * (d * p) == (v * p + p) * d;
    Scale(v * p, v * p + r, v * p + p, d);
  }

  /** The fraction, padded to `decimals` places: its exact value. */
  lemma {:induction false} PaddedFraction(frac: string, decimals: nat)
    requires Digits(frac) && |frac| <= decimals
    ensures Digits(Field(frac, decimals)) && Val(Field(frac, decimals)) == Val(frac) * Pow10(decimals - |frac|)
  {
    var k := decimals - |frac|;
    assert (frac + Zeros(decimals))[..decimals] == frac + Zeros(decimals)[..k];
    ZerosPrefix(decimals, k);
    ValAppend(frac, Zeros(k));
    ValZeros(k);
  }

  /** The script's fraction field: the digits it reads, cut or padded. */
  function Field(frac: string, decimals: nat): string {
    (frac + Zeros(decimals))[..decimals]
  }

  lemma {:induction false} FieldCut(frac: string, decimals: nat)
    requires decimals <= |frac|
    ensures Field(frac, decimals) == frac[..decimals]
  {
  }

  lemma {:induction false} ExactTruncates(f: nat, k: nat, pf: nat)
    requires pf > 0
    ensures Truncates(f * k, f, pf, k * pf)
  {
    assert f * k * pf == f * (k * pf);
    assert (f * k + 1) * pf == f * k * pf + pf;
  }

  /** Either way the fraction is its exact value, truncated. */
  lemma {:induction false} FractionTruncated(frac: string, decimals: nat)
    requires Digits(frac)
    ensures Digits(Field(frac, decimals))
    ensures Truncates(Val(Field(frac, decimals)), Val(frac), Pow10(|frac|), Pow10(decimals))
  {
    if decimals <= |frac| {
      FieldCut(frac, decimals);
      CutFraction(frac, decimals);
    } else {
      PaddedFraction(frac, decimals);
      Pow10Add(decimals - |frac|, |frac|);
      ExactTruncates(Val(frac), Pow10(decimals - |frac|), Pow10(|frac|));
    }
  }

  lemma {:induction false} Scale(a: nat, b: nat, c: nat, k: nat)
    requires a <= b < c && k > 0
    ensures a * k <= b * k < c * k
  {
  }

  lemma {:induction false} ZerosPrefix(n: nat, k: nat)
    requires k <= n
    ensures Zeros(n)[..k] == Zeros(k)
    decreases n
  {
    if k < n {
      ZerosPrefix(n - 1, k);
      assert Zeros(n)[..k] == Zeros(n - 1)[..k];
    } else {
      assert Zeros(n)[..n] == Zeros(n);
    }
  }

  lemma {:induction false} DotAt(s: string, i: nat, k: nat)
    requires i <= k <= |s|
    requires forall j :: i <= j < k ==> s[j] != '.'
    requires k == |s| || s[k] == '.'
    ensures Dot(s, i) == k
  {
  }

  lemma {:induction false} SplitAtDot(whole: string, frac: string)
    requires forall i :: 0 <= i < |whole| ==> whole[i] != '.'
    requires forall i :: 0 <= i < |frac| ==> frac[i] != '.'
    ensures Split(whole + "." + frac) == (whole, frac)
  {
    var s := whole + "." + frac;
    var k := |whole|;
    assert s[k] == '.';
    assert forall i :: 0 <= i < k ==> s[i] == whole[i];
    DotAt(s, 0, k);
    forall j | k + 1 <= j < |s| ensures s[j] != '.' {
      assert s[j] == frac[j - k - 1];
    }
    DotAt(s, k + 1, |s|);
    assert s[..k] == whole;
    assert s[k + 1..|s|] == frac;
  }

  /** Text with a dot, in terms of its two parts. */
  lemma {:induction false} ToBaseUnitsParts(whole: string, frac: string, decimals: nat)
    requires forall i :: 0 <= i < |whole| ==> whole[i] != '.'
    requires Digits(frac)
    ensures Digits(Field(frac, decimals))
    ensures ToBaseUnits(whole + "." + frac, decimals) ==
      (match ParseBigInt(whole)
       case None => None
       case Some(w) => Some(w * Pow10(decimals) + Val(Field(frac, decimals))))
  {
    SplitAtDot(whole, frac);
    FractionTruncated(frac, decimals);
    var s := whole + "." + frac;
    assert s[|whole|] == '.';
    assert s != "" && s != "0";
  }

  /**
    The decimal string `whole.frac` denotes Val(whole frac) / 10^|frac|; the script returns exactly that
    times 10^decimals, truncated. For every non-negative decimal string and every number of decimals.
   */
  lemma {:induction false} ToBaseUnitsExact(whole: string, frac: string, decimals: nat)
    requires Digits(whole) && Digits(frac)
    ensures Digits(whole + frac)
    ensures var r := ToBaseUnits(whole + "." + frac, decimals);
      r.Some? && r.value >= 0 && Truncates(r.value, Val(whole + frac), Pow10(|frac|), Pow10(decimals))
  {
    ToBaseUnitsParts(whole, frac, decimals);
    FractionTruncated(frac, decimals);
    ValAppend(whole, frac);
    Combine(Val(whole), Val(Field(frac, decimals)), Val(frac), Pow10(|frac|), Pow10(decimals),
            ToBaseUnits(whole + "." + frac, decimals).value, Val(whole + frac));
  }

  lemma {:induction false} Combine(w: nat, padded: nat, f: nat, pf: nat, pd: nat, r: int, whole: nat)
    requires Truncates(padded, f, pf, pd) && r == w * pd + padded && whole == w * pf + f
    ensures r >= 0 && Truncates(r, whole, pf, pd)
  {
    assert (w * pd + padded) * pf == w * pd * pf + padded * pf;
    assert (w * pf + f) * pd == w * pf * pd + f * pd;
    assert (w * pd + padded + 1) * pf == w * pd * pf + (padded + 1) * pf;
    assert w * pd * pf == w * pf * pd;
  }

  /** Without a dot the whole string is the number. */
  lemma {:induction false} ToBaseUnitsWhole(whole: string, decimals: nat)
    requires Digits(whole)
    ensures ToBaseUnits(whole, decimals) == Some(Val(whole) * Pow10(decimals))
  {
    if whole != "" && whole != "0" {
      assert Dot(whole, 0) == |whole|;
      assert ("" + Zeros(decimals))[..decimals] == Zeros(decimals);
      ValZeros(decimals);
    } else if whole == "0" {
      assert Val("0") == 0;
    }
  }

  // ---------------------------------------------------------------- round trip

  function Signed(negative: bool, x: nat): int {
    if negative then -(x as int) else x
  }

  lemma {:induction false} ParseSigned(negative: bool, whole: nat)
    ensures var text := SignText(negative) + Dec(whole);
      ParseBigInt(text) == Some(Signed(negative, whole)) && forall i :: 0 <= i < |text| ==> text[i] != '.'
  {
    ValDec(whole);
    var digits := Dec(whole);
    if negative {
      MinusParses(digits);
    } else {
      assert SignText(negative) + digits == digits;
    }
  }

  lemma {:induction false} MinusParses(digits: string)
    requires digits != "" && Digits(digits)
    ensures ParseBigInt("-" + digits) == Some(-(Val(digits) as int))
  {
    var text := "-" + digits;
    assert text[0] == '-' && text[1..] == digits && !IsDigit(text[0]);
  }

  /** A signed whole part and at most `n` decimals, read back with `n` decimals. */
  lemma {:induction false} ReadParts(negative: bool, whole: nat, frac: string, n: nat)
    requires Digits(frac) && |frac| <= n
    ensures ToBaseUnits(SignText(negative) + Dec(whole) + "." + frac, n)
      == Some(Signed(negative, whole) * Pow10(n) + Val(frac) * Pow10(n - |frac|))
  {
    ParseSigned(negative, whole);
    ToBaseUnitsParts(SignText(negative) + Dec(whole), frac, n);
    PaddedFraction(frac, n);
  }

  /** What reading makes of a formatted amount: the sign goes to the whole part alone. */
  function ReadBack(negative: bool, abs: nat, n: nat, k: nat): int
    requires k <= n
  {
    Signed(negative, Quot(abs, Pow10(n))) * Pow10(n) + Quot(Rem(abs, Pow10(n)), Pow10(n - k)) * Pow10(n - k)
  }

  lemma {:induction false} ReadShown(negative: bool, whole: nat, r: nat, n: nat, k: nat)
    requires 1 <= n && k <= n && r < Pow10(n)
    ensures ToBaseUnits(Shown(negative, whole, r, n, k), n)
      == Some(Signed(negative, whole) * Pow10(n) + Quot(r, Pow10(n - k)) * Pow10(n - k))
  {
    PaddedPrefix(r, n, k);
    ReadParts(negative, whole, PadStart(Dec(r), n)[..k], n);
  }

  /** The amount cut towards zero to the decimals that are shown. */
  function CutToShown(x: int, n: nat, k: nat): int
    requires k <= n
  {
    if x < 0 then -(-x - Rem(-x, Pow10(n - k))) else x - Rem(x, Pow10(n - k))
  }

  lemma {:induction false} CutExact(abs: nat, n: nat, k: nat)
    requires k <= n
    ensures abs - Rem(abs, Pow10(n - k))
      == Quot(abs, Pow10(n)) * Pow10(n) + Quot(Rem(abs, Pow10(n)), Pow10(n - k)) * Pow10(n - k)
  {
    Pow10Add(k, n - k);
    CutParts(abs, Pow10(k), Pow10(n - k), Pow10(n));
  }

  lemma {:induction false} ReadBackPositive(x: nat, n: nat, k: nat)
    requires k <= n
    ensures ReadBack(false, x, n, k) == x - Rem(x, Pow10(n - k))
  {
    CutExact(x, n, k);
  }

  lemma {:induction false} ReadBackNegative(x: nat, n: nat, k: nat)
    requires k <= n
    ensures ReadBack(true, x, n, k) == -(x - Rem(x, Pow10(n - k))) <==> Quot(Rem(x, Pow10(n)), Pow10(n - k)) == 0
  {
    CutExact(x, n, k);
    SignMatters(x - Rem(x, Pow10(n - k)), Quot(x, Pow10(n)), Pow10(n), Quot(Rem(x, Pow10(n)), Pow10(n - k)), Pow10(n - k));
  }

  lemma {:induction false} SignMatters(cut: int, w: nat, p: nat, m: nat, q: nat)
    requires cut == w * p + m * q && q > 0
    ensures Signed(true, w) * p + m * q == -cut <==> m == 0
  {
    assert Signed(true, w) * p == -(w * p);
    if m > 0 {
      assert m * q > 0;
    }
  }

  /** Non-negative amounts survive formatting and reading, cut to the shown decimals. */
  lemma {:induction false} RoundTripNonNegative(x: nat, n: nat, k: nat)
    requires 1 <= n && k <= n
    ensures ToBaseUnits(Fmt(x, n, k), n) == Some(x - Rem(x, Pow10(n - k)))
  {
    ReadShown(false, Quot(x, Pow10(n)), Rem(x, Pow10(n)), n, k);
    ReadBackPositive(x, n, k);
  }

  /** A negative amount survives only with all shown decimals zero. */
  lemma {:induction false} RoundTripNegative(x: nat, n: nat, k: nat)
    requires 1 <= n && k <= n && x > 0
    ensures ToBaseUnits(Fmt(Signed(true, x), n, k), n) == Some(-(x - Rem(x, Pow10(n - k))))
      <==> Quot(Rem(x, Pow10(n)), Pow10(n - k)) == 0
  {
    ReadShown(true, Quot(x, Pow10(n)), Rem(x, Pow10(n)), n, k);
    ReadBackNegative(x, n, k);
  }

  /**
    Formatting and reading back returns the amount cut to the shown decimals exactly for non-negative
    amounts and for negative ones whose shown decimals are all zero: reading applies a sign to the
    whole part alone.
   */
  lemma {:induction false} RoundTripIff(x: int, n: nat, k: nat)
    requires 1 <= n && k <= n
    ensures ToBaseUnits(Fmt(x, n, k), n) == Some(CutToShown(x, n, k))
      <==> x >= 0 || Quot(Rem(-x, Pow10(n)), Pow10(n - k)) == 0
  {
    if x >= 0 {
      RoundTripNonNegative(x, n, k);
    } else {
      RoundTripNegative(-x, n, k);
    }
  }

  /** The two scripts as they are: 18 decimals, six of them shown. */
  lemma {:induction false} Fmt18RoundTrip(x: nat)
    ensures ToBaseUnits(Fmt18(x), 18) == Some(x - x % 1000000000000)
  {
    RoundTripNonNegative(x, 18, 6);
    Pow10Add(6, 6);
    assert Pow10(6) == 1000000;
  }

  /** Cutting a number at `q` keeps its part above `p * q` and what `q` goes into of the rest. */
  lemma {:induction false} CutParts(abs: nat, p: nat, q: nat, pq: nat)
    requires q > 0 && pq == p * q && pq > 0
    ensures abs - Rem(abs, q) == Quot(abs, pq) * pq + Quot(Rem(abs, pq), q) * q
  {
    var w, r := Quot(abs, pq), Rem(abs, pq);
    var m, s := Quot(r, q), Rem(r, q);
    QuotRem(abs, pq);
    QuotRem(r, q);
    Distribute(w, p, m, q);
    QuotUnique(abs, w * p + m, s, q);
  }

  lemma {:induction false} Distribute(w: nat, p: nat, m: nat, q: nat)
    ensures (w * p + m) * q == w * (p * q) + m * q
  {
  }
}
