/** Formatting a token amount, an integer count of the smallest unit, with a decimal point. */
module Tokens {
  import opened Wrappers
  import opened Text
  import opened Decimal

  function PrintInt(n: int): string {
    if n < 0 then "-" + Print(-n) else Print(n)
  }

  function Zeros(n: nat): (z: string)
    ensures |z| == n && forall i :: 0 <= i < n ==> z[i] == '0'
  {
    seq(n, i => '0')
  }

  function PadStart(s: string, length: nat): (p: string)
    ensures |p| >= length
  {
    if |s| >= length then s else Zeros(length - |s|) + s
  }

  function TrimZeros(s: string): string {
    if s == "" || s[|s| - 1] != '0' then s else TrimZeros(s[..|s| - 1])
  }

  function FormatTokenAmount(amount: int, decimals: nat): string {
    if decimals == 0 then PrintInt(amount)
    else
      var text := PadStart(PrintInt(amount), decimals + 1);
      var intPart := text[..|text| - decimals];
      var trimmed := TrimZeros(text[|text| - decimals..]);
      Assemble(intPart, trimmed)
  }

  function Assemble(intPart: string, fraction: string): string {
    if fraction != "" then intPart + "." + fraction else intPart
  }

  // ---------- Reading an amount back ----------

  function IntPart(text: string): string {
    text[..IndexOf(text, '.')]
  }

  function FracPart(text: string): string {
    var k := IndexOf(text, '.');
    if k < |text| then text[k + 1..] else ""
  }

  // The amount in smallest units; None if the text is not a decimal number of that precision.
  function ParseAmount(text: string, decimals: nat): Option<nat> {
    var i, f := IntPart(text), FracPart(text);
    if i == "" || !AllDigits(i) || !AllDigits(f) || |f| > decimals then None
    else Some(Value(i + f + Zeros(decimals - |f|)))
  }

  // No leading zero but a single one, and no point without a fraction that ends in a nonzero digit.
  predicate Canonical(text: string) {
    var i, f := IntPart(text), FracPart(text);
    && i != "" && AllDigits(i) && AllDigits(f)
    && (i[0] == '0' ==> i == "0")
    && (IndexOf(text, '.') < |text| ==> f != "")
    && (f != "" ==> f[|f| - 1] != '0')
  }

  // ---------- Numerals ----------

  lemma {:induction false} PrintOfValue(s: string)
    requires AllDigits(s) && s != "" && (s[0] == '0' ==> s == "0")
    ensures Print(Value(s)) == s
  {
    var front := s[..|s| - 1];
    if |s| > 1 {
      PrintOfValue(front);
      assert Value(s) / 10 == Value(front) && Value(s) % 10 == DigitValue(s[|s| - 1]);
      assert Value(front) == 0 ==> front == "0";
      assert s == front + [s[|s| - 1]];
    } else {
      assert Value(front) == 0;
    }
  }

  lemma {:induction false} SameLengthSameValue(s: string, t: string)
    requires AllDigits(s) && AllDigits(t) && |s| == |t| && Value(s) == Value(t)
    ensures s == t
  {
    if s == "" {
    } else {
      SameLengthSameValue(s[..|s| - 1], t[..|t| - 1]);
      assert s == s[..|s| - 1] + [s[|s| - 1]] && t == t[..|t| - 1] + [t[|t| - 1]];
    }
  }

  lemma {:induction false} PrintLength(n: nat, k: nat)
    requires k >= 1
    ensures |Print(n)| <= k <==> n < Pow10(k)
  {
    assert Pow10(1) == 10;
    if n >= 10 && k > 1 {
      PrintLength(n / 10, k - 1);
    } else if n < 10 {
      Pow10AtLeast10(k);
    }
  }

  lemma {:induction false} Pow10AtLeast10(k: nat)
    requires k >= 1
    ensures Pow10(k) >= 10
  {
    if k == 1 {
      assert Pow10(0) == 1;
    } else {
      Pow10AtLeast10(k - 1);
    }
  }

  lemma PadKeepsValue(s: string, length: nat)
    requires AllDigits(s)
    ensures AllDigits(PadStart(s, length)) && Value(PadStart(s, length)) == Value(s)
  {
    if |s| < length {
      ValueOfZeros(Zeros(length - |s|));
      ValueOfConcat(Zeros(length - |s|), s);
    }
  }

  lemma {:induction false} TrimmedPart(s: string)
    ensures |TrimZeros(s)| <= |s|
    ensures s == TrimZeros(s) + Zeros(|s| - |TrimZeros(s)|)
    ensures TrimZeros(s) != "" ==> TrimZeros(s)[|TrimZeros(s)| - 1] != '0'
  {
    if s == "" || s[|s| - 1] != '0' {
    } else {
      TrimmedPart(s[..|s| - 1]);
    }
  }

  lemma {:induction false} TrimOfPadded(s: string, n: nat)
    requires s == "" || s[|s| - 1] != '0'
    ensures TrimZeros(s + Zeros(n)) == s
  {
    if n > 0 {
      TrimOfPadded(s, n - 1);
      assert (s + Zeros(n))[..|s| + n - 1] == s + Zeros(n - 1);
    } else {
      assert s + Zeros(0) == s;
    }
  }

  // ---------- The digits of an amount ----------

  // All digits of an amount, with at least one before the point.
  function DigitsOf(amount: nat, decimals: nat): string {
    PadStart(Print(amount), decimals + 1)
  }

  lemma DigitsAreUnique(s: string, amount: nat, decimals: nat)
    requires AllDigits(s) && |s| > decimals && Value(s) == amount
    requires |s| == decimals + 1 || s[0] != '0'
    ensures DigitsOf(amount, decimals) == s
  {
    if s[0] != '0' {
      PrintOfValue(s);
    } else {
      ValueBound(s);
      PrintLength(amount, decimals + 1);
      ValueOfPrint(amount);
      PadKeepsValue(Print(amount), decimals + 1);
      SameLengthSameValue(DigitsOf(amount, decimals), s);
    }
  }

  lemma PartsOfAssembled(i: string, f: string)
    requires AllDigits(i) && AllDigits(f)
    ensures var text := Assemble(i, f);
            IntPart(text) == i && FracPart(text) == f && (IndexOf(text, '.') < |text| <==> f != "")
  {
    var text := Assemble(i, f);
    assert '.' !in i;
    if f != "" {
      assert text == i + ['.'] + f;
      IndexOfFirst(i, '.', f);
      assert text[..|i|] == i && text[|i| + 1..] == f;
    } else {
      assert IndexOf(text, '.') == |text|;
    }
  }

  // The digits before the point, and those after it without zeros at the end.
  function Whole(digits: string, decimals: nat): string
    requires |digits| > decimals
  {
    digits[..|digits| - decimals]
  }

  function Fraction(digits: string, decimals: nat): string
    requires |digits| > decimals
  {
    TrimZeros(digits[|digits| - decimals..])
  }

  lemma SplitDigits(digits: string, decimals: nat)
    requires AllDigits(digits) && |digits| > decimals
    ensures var i, f := Whole(digits, decimals), Fraction(digits, decimals);
            && AllDigits(i) && AllDigits(f) && |f| <= decimals && i != ""
            && digits == i + f + Zeros(decimals - |f|)
            && (f != "" ==> f[|f| - 1] != '0')
  {
    var tail := digits[|digits| - decimals..];
    var f := TrimZeros(tail);
    TrimmedPart(tail);
    assert digits == Whole(digits, decimals) + tail;
    assert forall k :: 0 <= k < |f| ==> f[k] == tail[k];
  }

  lemma DigitsOfAmount(amount: nat, decimals: nat)
    ensures AllDigits(DigitsOf(amount, decimals)) && Value(DigitsOf(amount, decimals)) == amount
  {
    PadKeepsValue(Print(amount), decimals + 1);
    ValueOfPrint(amount);
  }

  // Formatting splits the digits of the amount, and zeros at the end are dropped.
  lemma FormatSplitsDigits(amount: nat, decimals: nat)
    ensures var digits := DigitsOf(amount, decimals);
            FormatTokenAmount(amount, decimals) == Assemble(Whole(digits, decimals), Fraction(digits, decimals))
  {
  }

  // Reading the formatted amount gives the amount back, for every amount and precision.
  lemma FormatRoundTrip(amount: nat, decimals: nat)
    ensures ParseAmount(FormatTokenAmount(amount, decimals), decimals) == Some(amount)
  {
    var digits := DigitsOf(amount, decimals);
    DigitsOfAmount(amount, decimals);
    FormatSplitsDigits(amount, decimals);
    SplitDigits(digits, decimals);
    PartsOfAssembled(Whole(digits, decimals), Fraction(digits, decimals));
  }

  lemma WholeHasNoLeadingZero(amount: nat, decimals: nat)
    ensures var i := Whole(DigitsOf(amount, decimals), decimals);
            i != "" && (i[0] == '0' ==> i == "0")
  {
    PrintHasNoLeadingZero(amount);
  }

  lemma FormatIsCanonical(amount: nat, decimals: nat)
    ensures Canonical(FormatTokenAmount(amount, decimals))
  {
    var digits := DigitsOf(amount, decimals);
    DigitsOfAmount(amount, decimals);
    FormatSplitsDigits(amount, decimals);
    SplitDigits(digits, decimals);
    PartsOfAssembled(Whole(digits, decimals), Fraction(digits, decimals));
    WholeHasNoLeadingZero(amount, decimals);
  }

  lemma SplitOfSum(i: string, tail: string)
    ensures (i + tail)[..|i + tail| - |tail|] == i && (i + tail)[|i + tail| - |tail|..] == tail
  {
  }

  lemma CanonicalPartsAreTheDigits(i: string, f: string, decimals: nat, s: string)
    requires AllDigits(i) && AllDigits(f) && i != "" && (i[0] == '0' ==> i == "0")
    requires |f| <= decimals && (f != "" ==> f[|f| - 1] != '0')
    requires s == i + f + Zeros(decimals - |f|) && AllDigits(s)
    ensures Whole(DigitsOf(Value(s), decimals), decimals) == i
    ensures Fraction(DigitsOf(Value(s), decimals), decimals) == f
  {
    var tail := f + Zeros(decimals - |f|);
    assert s == i + tail && s[0] == i[0] && |tail| == decimals;
    DigitsAreUnique(s, Value(s), decimals);
    SplitOfSum(i, tail);
    TrimOfPadded(f, decimals - |f|);
  }

  // A canonical text that reads as the amount is what formatting the amount gives.
  lemma CanonicalTextIsFormatted(text: string, amount: nat, decimals: nat)
    requires Canonical(text) && ParseAmount(text, decimals) == Some(amount)
    ensures text == FormatTokenAmount(amount, decimals)
  {
    var i, f := IntPart(text), FracPart(text);
    var s := i + f + Zeros(decimals - |f|);
    CanonicalPartsAreTheDigits(i, f, decimals, s);
    assert amount == Value(s);
    FormatSplitsDigits(amount, decimals);
    TextOfParts(text);
  }

  lemma {:induction false} TextOfParts(text: string)
    requires IndexOf(text, '.') < |text| ==> FracPart(text) != ""
    ensures text == Assemble(IntPart(text), FracPart(text))
  {
    var k := IndexOf(text, '.');
    if k < |text| {
      CutAt(text, k);
    } else {
      assert text[..k] == text;
    }
  }

  lemma CutAt(text: string, k: nat)
    requires k < |text| && text[k] == '.'
    ensures text == text[..k] + "." + text[k + 1..]
  {
  }

  // The formatted text is the one canonical text of the amount.
  lemma FormatIsTheCanonicalText(text: string, amount: nat, decimals: nat)
    ensures text == FormatTokenAmount(amount, decimals) <==>
            Canonical(text) && ParseAmount(text, decimals) == Some(amount)
  {
    FormatRoundTrip(amount, decimals);
    FormatIsCanonical(amount, decimals);
    if Canonical(text) && ParseAmount(text, decimals) == Some(amount) {
      CanonicalTextIsFormatted(text, amount, decimals);
    }
  }

  // A negative amount is formatted as a minus sign and its absolute value exactly when it has
  // no fraction digits or at least one whole unit.
  lemma NegativeAmountFormats(m: int, decimals: nat)
    requires m > 0
    ensures FormatTokenAmount(-m, decimals) == "-" + FormatTokenAmount(m, decimals) <==>
            decimals == 0 || m >= Pow10(decimals)
  {
    if decimals > 0 {
      PrintLength(m, decimals);
      if |Print(m)| > decimals {
        SignLeadsTheWhole(m, decimals);
      } else {
        SignStaysBehindTheWhole(m, decimals);
      }
    }
  }

  lemma SignLeadsTheWhole(m: int, decimals: nat)
    requires m > 0 && decimals > 0 && |Print(m)| > decimals
    ensures FormatTokenAmount(-m, decimals) == "-" + FormatTokenAmount(m, decimals)
  {
    FormatOfLongText(m, decimals, Print(m));
    FormatOfLongText(-m, decimals, "-" + Print(m));
    AssembleSigned("-", Print(m), decimals);
  }

  lemma AssembleSigned(sign: string, digits: string, decimals: nat)
    requires |digits| > decimals
    ensures Assemble(Whole(sign + digits, decimals), Fraction(sign + digits, decimals))
         == sign + Assemble(Whole(digits, decimals), Fraction(digits, decimals))
  {
    SignedText(sign, digits, decimals);
    AssembleWithSign(sign, Whole(digits, decimals), Fraction(digits, decimals));
  }

  lemma FormatOfLongText(amount: int, decimals: nat, text: string)
    requires decimals > 0 && text == PrintInt(amount) && |text| > decimals
    ensures FormatTokenAmount(amount, decimals) == Assemble(Whole(text, decimals), Fraction(text, decimals))
  {
  }

  lemma SignedText(sign: string, digits: string, decimals: nat)
    requires |digits| > decimals
    ensures Whole(sign + digits, decimals) == sign + Whole(digits, decimals)
    ensures Fraction(sign + digits, decimals) == Fraction(digits, decimals)
  {
    assert (sign + digits)[|sign + digits| - decimals..] == digits[|digits| - decimals..];
  }

  lemma AssembleWithSign(sign: string, w: string, f: string)
    ensures Assemble(sign + w, f) == sign + Assemble(w, f)
  {
  }

  lemma SignStaysBehindTheWhole(m: int, decimals: nat)
    requires m > 0 && decimals > 0 && |Print(m)| <= decimals
    ensures FormatTokenAmount(-m, decimals) != "-" + FormatTokenAmount(m, decimals)
  {
    var text := PadStart(PrintInt(-m), decimals + 1);
    assert |text| == decimals + 1;
    var short, long := FormatTokenAmount(-m, decimals), "-" + FormatTokenAmount(m, decimals);
    assert short[0] == text[0];
    assert DigitsOf(m, decimals)[0] == '0';
    FormatSplitsDigits(m, decimals);
    assert long[0] == '-' && long[1] == '0';
    if text[0] == '-' && |short| > 1 {
      assert short[1] == '.';
    }
  }
}
