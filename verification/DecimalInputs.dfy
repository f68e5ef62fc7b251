/** What `toBaseUnits` makes of signs, of garbage and of a second dot. */
module DecimalInputs {
  import opened Wrappers
  import opened Decimals

  predicate NoDot(s: string) {
    forall i :: 0 <= i < |s| ==> s[i] != '.'
  }

  /** `BigInt` takes digits with at most one sign in front; an empty text is zero. */
  lemma {:induction false} ParsesIff(s: string)
    ensures ParseBigInt(s).Some? <==> Digits(s) || (|s| > 1 && s[0] in {'-', '+'} && Digits(s[1..]))
  {
  }

  lemma {:induction false} SignsParse(digits: string)
    requires Digits(digits) && digits != ""
    ensures ParseBigInt(digits) == Some(Val(digits))
    ensures ParseBigInt("-" + digits) == Some(-(Val(digits) as int)) && ParseBigInt("+" + digits) == Some(Val(digits))
  {
    MinusParses(digits);
    var text := "+" + digits;
    assert text[0] == '+' && text[1..] == digits && !IsDigit(text[0]);
  }

  lemma {:induction false} PlusInput(whole: string, frac: string, decimals: nat)
    requires Digits(whole) && whole != "" && Digits(frac)
    ensures ToBaseUnits(("+" + whole) + "." + frac, decimals) == ToBaseUnits(whole + "." + frac, decimals)
  {
    SignsParse(whole);
    ToBaseUnitsParts(whole, frac, decimals);
    ToBaseUnitsParts("+" + whole, frac, decimals);
  }

  lemma {:induction false} MinusInput(whole: string, frac: string, decimals: nat)
    requires Digits(whole) && whole != "" && Digits(frac)
    ensures Digits(Field(frac, decimals))
    ensures ToBaseUnits(("-" + whole) + "." + frac, decimals)
      == Some(-(Val(whole) * Pow10(decimals)) + Val(Field(frac, decimals)))
  {
    SignsParse(whole);
    ToBaseUnitsParts("-" + whole, frac, decimals);
    MinusTimes(Val(whole), Pow10(decimals));
  }

  /** A plus changes nothing, and a minus turns the whole part alone. */
  lemma {:induction false} SignedInput(whole: string, frac: string, decimals: nat)
    requires Digits(whole) && whole != "" && Digits(frac)
    ensures Digits(Field(frac, decimals))
    ensures ToBaseUnits("+" + whole + "." + frac, decimals) == ToBaseUnits(whole + "." + frac, decimals)
    ensures ToBaseUnits("-" + whole + "." + frac, decimals)
      == Some(-(Val(whole) * Pow10(decimals)) + Val(Field(frac, decimals)))
  {
    PlusInput(whole, frac, decimals);
    MinusInput(whole, frac, decimals);
  }

  lemma {:induction false} MinusTimes(a: nat, b: nat)
    ensures -(a as int) * b == -(a * b)
  {
  }

  /** A whole part with anything but digits behind its first character makes the script throw. */
  lemma {:induction false} GarbageThrows(whole: string, frac: string, decimals: nat, i: nat)
    requires NoDot(whole) && Digits(frac) && i < |whole| && !IsDigit(whole[i])
    requires i > 0 || (whole[0] != '-' && whole[0] != '+') || |whole| == 1
    ensures ToBaseUnits(whole + "." + frac, decimals) == None
  {
    ToBaseUnitsParts(whole, frac, decimals);
    if |whole| > 1 && i > 0 {
      assert whole[1..][i - 1] == whole[i];
    }
    ParsesIff(whole);
  }

  lemma {:induction false} ThreePieces(a: string, b: string, c: string)
    ensures var s := a + "." + b + "." + c;
      && |s| == |a| + |b| + |c| + 2 && s[..|a|] == a && s[|a|] == '.'
      && s[|a| + 1..|a| + 1 + |b|] == b && s[|a| + 1 + |b|] == '.'
  {
  }

  /** A piece without dots between two positions has none there. */
  lemma {:induction false} NoDotBetween(s: string, i: nat, k: nat)
    requires i <= k <= |s| && NoDot(s[i..k])
    ensures forall j :: i <= j < k ==> s[j] != '.'
  {
    forall j | i <= j < k ensures s[j] != '.' {
      assert s[j] == s[i..k][j - i];
    }
  }

  lemma {:induction false} SplitThree(whole: string, frac: string, rest: string)
    requires NoDot(whole) && NoDot(frac)
    ensures Split(whole + "." + frac + "." + rest) == (whole, frac)
  {
    var s, k := whole + "." + frac + "." + rest, |whole|;
    ThreePieces(whole, frac, rest);
    assert s[0..k] == whole;
    NoDotBetween(s, 0, k);
    DotAt(s, 0, k);
    NoDotBetween(s, k + 1, k + 1 + |frac|);
    DotAt(s, k + 1, k + 1 + |frac|);
  }

  /** Everything from a second dot on is ignored. */
  lemma {:induction false} SecondDotIgnored(whole: string, frac: string, rest: string, decimals: nat)
    requires NoDot(whole) && NoDot(frac)
    ensures ToBaseUnits(whole + "." + frac + "." + rest, decimals) == ToBaseUnits(whole + "." + frac, decimals)
  {
    SplitThree(whole, frac, rest);
    SplitAtDot(whole, frac);
    var s, t := whole + "." + frac + "." + rest, whole + "." + frac;
    assert s[|whole|] == '.' && t[|whole|] == '.';
    assert s != "0" && t != "0" && s != "" && t != "";
  }
}
