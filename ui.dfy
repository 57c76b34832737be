/**
 * The CPF field of the `Input` component (js/components/ui/index.js): the
 * `XXX.XXX.XXX-XX` mask applied while typing and the modulo-11 check-digit rule of the
 * Brazilian CPF taxpayer number.
 */
module Ui {
  import opened Options

  const MaxDigits := 11
  const MaxMaskedLength := 14  // the input's maxLength

  predicate IsDigit(c: char) {
    '0' <= c <= '9'
  }

  /** `parseInt` of a one-digit string (only ever applied to digits). */
  function DigitValue(c: char): int {
    if IsDigit(c) then c as int - '0' as int else 0
  }

  /** `replace(/\D/g, '')`: the ASCII digits of `s`, in order. */
  function Digits(s: string): (d: string)
    ensures |d| <= |s|
    ensures forall k :: 0 <= k < |d| ==> IsDigit(d[k])
  {
    if s == [] then [] else (if IsDigit(s[0]) then [s[0]] else []) + Digits(s[1..])
  }

  /** The digits kept are exactly the digits of `s`. */
  lemma {:induction false} DigitsMembers(s: string)
    ensures forall c :: c in Digits(s) <==> c in s && IsDigit(c)
  {
    if s != [] {
      DigitsMembers(s[1..]);
      assert s == [s[0]] + s[1..];
    }
  }

  lemma {:induction false} DigitsAppend(a: string, b: string)
    ensures Digits(a + b) == Digits(a) + Digits(b)
  {
    if a == [] {
      assert a + b == b;
    } else {
      assert (a + b)[1..] == a[1..] + b;
      DigitsAppend(a[1..], b);
    }
  }

  lemma {:induction false} DigitsOfDigits(s: string)
    requires forall k :: 0 <= k < |s| ==> IsDigit(s[k])
    ensures Digits(s) == s
  {
    if s != [] {
      DigitsOfDigits(s[1..]);
    }
  }

  /** `.slice(0, 11)` of the digits: the digits the mask keeps. */
  function KeptDigits(s: string): (v: string)
    ensures |v| <= MaxDigits && v <= Digits(s)
    ensures |Digits(s)| <= MaxDigits ==> v == Digits(s)
    ensures |Digits(s)| > MaxDigits ==> v == Digits(s)[..MaxDigits]
  {
    var d := Digits(s);
    if |d| <= MaxDigits then d else d[..MaxDigits]
  }

  /** The replacement chosen by length in `formatCPF`. */
  function Mask(v: string): string
    requires |v| <= MaxDigits
  {
    if |v| <= 3 then v
    else if |v| <= 6 then v[..3] + "." + v[3..]
    else if |v| <= 9 then v[..3] + "." + v[3..6] + "." + v[6..]
    else v[..3] + "." + v[3..6] + "." + v[6..9] + "-" + v[9..]
  }

  /**
   * The shapes `ddd`, `ddd.ddd`, `ddd.ddd.ddd` and `ddd.ddd.ddd-dd`, each group possibly
   * cut short: separators at positions 3, 7 (dots) and 11 (dash) only, digits elsewhere,
   * and never a trailing separator.
   */
  ghost predicate IsMasked(r: string) {
    |r| <= MaxMaskedLength && |r| != 4 && |r| != 8 && |r| != 12 &&
    forall k :: 0 <= k < |r| ==>
      if k == 3 || k == 7 then r[k] == '.' else if k == 11 then r[k] == '-' else IsDigit(r[k])
  }

  lemma AllDigitsConcat(a: string, b: string)
    requires forall k :: 0 <= k < |a| ==> IsDigit(a[k])
    requires forall k :: 0 <= k < |b| ==> IsDigit(b[k])
    ensures forall k :: 0 <= k < |a + b| ==> IsDigit((a + b)[k])
  {
  }

  lemma MaskCorrectTwoGroups(v: string)
    requires 3 < |v| <= 6
    requires forall k :: 0 <= k < |v| ==> IsDigit(v[k])
    ensures IsMasked(Mask(v)) && Digits(Mask(v)) == v
  {
    var a, b := v[..3], v[3..];
    assert Mask(v) == a + "." + b;
    DigitsAppend(a + ".", b);
    DigitsAppend(a, ".");
    DigitsOfDigits(a);
    DigitsOfDigits(b);
    assert a + b == v;
  }

  lemma MaskCorrectThreeGroups(v: string)
    requires 6 < |v| <= 9
    requires forall k :: 0 <= k < |v| ==> IsDigit(v[k])
    ensures IsMasked(Mask(v)) && Digits(Mask(v)) == v
  {
    var a, b, c := v[..3], v[3..6], v[6..];
    var t := (b + ".") + c;
    assert Mask(v) == (a + ".") + t;
    DigitsAfterGroup(a, ".", t);
    DigitsAfterGroup(b, ".", c);
    DigitsOfDigits(c);
    assert a + (b + c) == v;
  }

  /** A digit group and a separator in front of `rest` leave the group in front of `rest`'s digits. */
  lemma DigitsAfterGroup(a: string, sep: string, rest: string)
    requires forall k :: 0 <= k < |a| ==> IsDigit(a[k])
    requires |sep| == 1 && !IsDigit(sep[0])
    ensures Digits((a + sep) + rest) == a + Digits(rest)
  {
    assert Digits(sep) == [] by {
      assert sep[1..] == [];
    }
    DigitsAppend(a, sep);
    DigitsOfDigits(a);
    assert Digits(a + sep) == a;
    DigitsAppend(a + sep, rest);
  }

  lemma MaskFourGroupsShape(v: string)
    requires 9 < |v| <= 11
    requires forall k :: 0 <= k < |v| ==> IsDigit(v[k])
    ensures IsMasked(Mask(v))
  {
    var r := Mask(v);
    assert forall k :: 0 <= k < |r| ==>
      r[k] == if k < 3 then v[k] else if k == 3 then '.' else if k < 7 then v[k - 1]
        else if k == 7 then '.' else if k < 11 then v[k - 2] else if k == 11 then '-' else v[k - 3];
  }

  /** The last group extends the three-group mask of the first nine digits. */
  lemma MaskFourGroupsDigits(v: string)
    requires 9 < |v| <= 11
    requires forall k :: 0 <= k < |v| ==> IsDigit(v[k])
    ensures Digits(Mask(v)) == v
  {
    var w, e := v[..9], v[9..];
    assert w[..3] == v[..3] && w[3..6] == v[3..6] && w[6..] == v[6..9];
    assert Mask(v) == (Mask(w) + "-") + e;
    MaskCorrectThreeGroups(w);
    DigitsAppend(Mask(w) + "-", e);
    DigitsAppend(Mask(w), "-");
    DigitsOfDigits(e);
    assert w + e == v;
  }

  lemma MaskCorrectFourGroups(v: string)
    requires 9 < |v| <= 11
    requires forall k :: 0 <= k < |v| ==> IsDigit(v[k])
    ensures IsMasked(Mask(v)) && Digits(Mask(v)) == v
  {
    MaskFourGroupsShape(v);
    MaskFourGroupsDigits(v);
  }

  lemma MaskCorrect(v: string)
    requires |v| <= MaxDigits
    requires forall k :: 0 <= k < |v| ==> IsDigit(v[k])
    ensures IsMasked(Mask(v)) && Digits(Mask(v)) == v
  {
    if |v| <= 3 {
      DigitsOfDigits(v);
    } else if |v| <= 6 {
      MaskCorrectTwoGroups(v);
    } else if |v| <= 9 {
      MaskCorrectThreeGroups(v);
    } else {
      MaskCorrectFourGroups(v);
    }
  }

  /**
   * `formatCPF`: keeps the first 11 digits of the input, drops everything else, and lays
   * them out in the CPF mask; removing the separators gives those digits back.
   */
  function FormatCPF(s: string): (r: string)
    ensures IsMasked(r)
    ensures Digits(r) == KeptDigits(s)
  {
    MaskCorrect(KeptDigits(s));
    Mask(KeptDigits(s))
  }

  /** Formatting an already formatted value changes nothing. */
  lemma FormatIdempotent(s: string)
    ensures FormatCPF(FormatCPF(s)) == FormatCPF(s)
  {
    var r := FormatCPF(s);
    assert KeptDigits(r) == KeptDigits(s);
  }

  /** `sum` after `i` rounds of the loop with weights `n + 1` down to 2. */
  function WeightedSum(d: string, n: nat, i: nat): int
    requires i <= |d|
  {
    if i == 0 then 0 else WeightedSum(d, n, i - 1) + DigitValue(d[i - 1]) * (n + 2 - i)
  }

  /** The check digit over the first `n` digits: `(sum * 10) % 11`, with 10 (and 11) read as 0. */
  function CheckDigit(d: string, n: nat): (c: int)
    requires n <= |d|
    ensures 0 <= c <= 9
  {
    var rest := (WeightedSum(d, n, n) * 10) % 11;
    if rest == 10 || rest == 11 then 0 else rest
  }

  /** `/^(\d)\1{10}$/` on a string of digits: every digit equal to the first. */
  predicate IsRepdigit(d: string) {
    |d| > 0 && forall k :: 0 <= k < |d| ==> d[k] == d[0]
  }

  /**
   * The CPF rule: exactly 11 digits once non-digits are removed, not all the same digit,
   * the 10th digit is the check digit of the first 9 and the 11th that of the first 10.
   */
  predicate IsValidCPF(s: string) {
    var d := Digits(s);
    |d| == MaxDigits && !IsRepdigit(d) &&
    CheckDigit(d, 9) == DigitValue(d[9]) && CheckDigit(d, 10) == DigitValue(d[10])
  }

  /** `validateCPF`, with its two accumulation loops. */
  method ValidateCPF(input: string) returns (valid: bool)
    ensures valid == IsValidCPF(input)
  {
    var cpf := Digits(input);
    if |cpf| != MaxDigits || IsRepdigit(cpf) {
      return false;
    }
    var sum := 0;
    for i := 1 to 10
      invariant sum == WeightedSum(cpf, 9, i - 1)
    {
      sum := sum + DigitValue(cpf[i - 1]) * (11 - i);
    }
    var rest := (sum * 10) % 11;
    if rest == 10 || rest == 11 {
      rest := 0;
    }
    if rest != DigitValue(cpf[9]) {
      return false;
    }
    sum := 0;
    for i := 1 to 11
      invariant sum == WeightedSum(cpf, 10, i - 1)
    {
      sum := sum + DigitValue(cpf[i - 1]) * (12 - i);
    }
    rest := (sum * 10) % 11;
    if rest == 10 || rest == 11 {
      rest := 0;
    }
    if rest != DigitValue(cpf[10]) {
      return false;
    }
    return true;
  }

  /**
   * Formatting keeps validity for inputs of at most 11 digits, so the `isValid` the field
   * reports is the validity of what the user typed.
   */
  lemma ValidAfterFormat(s: string)
    requires |Digits(s)| <= MaxDigits
    ensures IsValidCPF(FormatCPF(s)) == IsValidCPF(s)
  {
    assert Digits(FormatCPF(s)) == Digits(s);
  }

  /** More than 11 digits is never valid, though the first 11 of them, once masked, may be. */
  lemma TooManyDigitsInvalid(s: string)
    requires |Digits(s)| > MaxDigits
    ensures !IsValidCPF(s)
    ensures IsValidCPF(FormatCPF(s)) == IsValidCPF(KeptDigits(s))
  {
    var v := KeptDigits(s);
    DigitsOfDigits(v);
  }

  function Repeated(c: char, n: nat): (s: string)
    ensures |s| == n && forall k :: 0 <= k < n ==> s[k] == c
  {
    if n == 0 then [] else [c] + Repeated(c, n - 1)
  }

  /** The sum of the weights `n + 1` down to `n + 2 - i`. */
  function Weights(n: nat, i: nat): int {
    if i == 0 then 0 else Weights(n, i - 1) + (n + 2 - i)
  }

  lemma {:induction false} WeightedSumOfRepeated(d: string, c: char, n: nat, i: nat)
    requires i <= |d| && forall k :: 0 <= k < |d| ==> d[k] == c
    ensures WeightedSum(d, n, i) == DigitValue(c) * Weights(n, i)
  {
    if i > 0 {
      WeightedSumOfRepeated(d, c, n, i - 1);
      var v, w := DigitValue(c), Weights(n, i - 1);
      assert v * w + v * (n + 2 - i) == v * (w + (n + 2 - i));
    }
  }

  /** The first check digit of a repdigit is its digit: 54 * 10 is 1 modulo 11. */
  lemma RepdigitFirstCheckDigit(c: char)
    requires IsDigit(c)
    ensures CheckDigit(Repeated(c, 11), 9) == DigitValue(c)
  {
    var d, v := Repeated(c, 11), DigitValue(c);
    WeightedSumOfRepeated(d, c, 9, 9);
    assert Weights(9, 9) == 54;
    assert 54 * v * 10 == 11 * (49 * v) + v;
  }

  /** The second check digit of a repdigit is its digit: 65 * 10 is 1 modulo 11. */
  lemma RepdigitSecondCheckDigit(c: char)
    requires IsDigit(c)
    ensures CheckDigit(Repeated(c, 11), 10) == DigitValue(c)
  {
    var d, v := Repeated(c, 11), DigitValue(c);
    WeightedSumOfRepeated(d, c, 10, 10);
    assert Weights(10, 10) == 65;
    assert 65 * v * 10 == 11 * (59 * v) + v;
  }

  /**
   * Every repdigit passes both check-digit tests, so the explicit repdigit test is what
   * rejects 000.000.000-00 through 999.999.999-99.
   */
  lemma RepdigitsPassCheckDigits(c: char)
    requires IsDigit(c)
    ensures IsRepdigit(Repeated(c, 11))
    ensures CheckDigit(Repeated(c, 11), 9) == DigitValue(c)
    ensures CheckDigit(Repeated(c, 11), 10) == DigitValue(c)
    ensures !IsValidCPF(Repeated(c, 11))
  {
    RepdigitFirstCheckDigit(c);
    RepdigitSecondCheckDigit(c);
    DigitsOfDigits(Repeated(c, 11));
  }

  /** A valid number, unmasked: 529.982.247-25, whose check digits are 2 and 5. */
  const Sample := "52998224725"

  lemma SampleDigits()
    ensures Digits(Sample) == Sample
  {
    assert forall k :: 0 <= k < |Sample| ==> IsDigit(Sample[k]);
    DigitsOfDigits(Sample);
  }

  lemma SampleFirstSum()
    ensures WeightedSum(Sample, 9, 9) == 295
  {
    var d := Sample;
    assert WeightedSum(d, 9, 1) == 50;
    assert WeightedSum(d, 9, 2) == 68;
    assert WeightedSum(d, 9, 3) == 140;
    assert WeightedSum(d, 9, 4) == 203;
    assert WeightedSum(d, 9, 5) == 251;
    assert WeightedSum(d, 9, 6) == 261;
    assert WeightedSum(d, 9, 7) == 269;
    assert WeightedSum(d, 9, 8) == 281;
  }

  lemma SampleSecondSum()
    ensures WeightedSum(Sample, 10, 10) == 347
  {
    var d := Sample;
    assert WeightedSum(d, 10, 1) == 55;
    assert WeightedSum(d, 10, 2) == 75;
    assert WeightedSum(d, 10, 3) == 156;
    assert WeightedSum(d, 10, 4) == 228;
    assert WeightedSum(d, 10, 5) == 284;
    assert WeightedSum(d, 10, 6) == 296;
    assert WeightedSum(d, 10, 7) == 306;
    assert WeightedSum(d, 10, 8) == 322;
    assert WeightedSum(d, 10, 9) == 343;
  }

  lemma SampleFirstCheckDigit()
    ensures CheckDigit(Sample, 9) == DigitValue(Sample[9])
  {
    SampleFirstSum();
    assert 2950 % 11 == 2;
    assert Sample[9] == '2';
  }

  lemma SampleSecondCheckDigit()
    ensures CheckDigit(Sample, 10) == DigitValue(Sample[10])
  {
    SampleSecondSum();
    assert 3470 % 11 == 5;
    assert Sample[10] == '5';
  }

  /** The accepted side of the validator is not empty: 529.982.247-25 passes both check digits. */
  lemma SampleIsValid()
    ensures IsValidCPF(Sample)
  {
    SampleDigits();
    SampleFirstCheckDigit();
    SampleSecondCheckDigit();
    assert Sample[1] != Sample[0];
  }

  datatype ChangeEvent = ChangeEvent(value: string, isValid: bool)

  /** The state of an `Input` of type `cpf`. */
  class CpfInput {
    var localValue: string

    /** `React.useState(value || '')`; an absent `value` prop is `None`. */
    constructor (value: Option<string>)
      ensures localValue == value.GetOr("")
    {
      localValue := value.GetOr("");
    }

    /** The effect run when the `value` prop changes: a different value is masked and kept. */
    method SyncValue(value: Option<string>)
      modifies this
      ensures value == Some(old(localValue)) ==> localValue == old(localValue)
      ensures value != Some(old(localValue)) ==> localValue == FormatCPF(value.GetOr(""))
      ensures IsMasked(localValue) || localValue == old(localValue)
    {
      if value != Some(localValue) {
        localValue := FormatCPF(value.GetOr(""));
      }
    }

    /**
     * The cpf branch of `handleInputChange`: the typed text is masked, kept as the local
     * value, and passed to `onChange` (when there is one) with its validity.
     */
    method HandleInputChange(typed: string, hasOnChange: bool) returns (emitted: Option<ChangeEvent>)
      modifies this
      ensures localValue == FormatCPF(typed) && |localValue| <= MaxMaskedLength
      ensures emitted.Some? <==> hasOnChange
      ensures emitted.Some? ==> emitted.value == ChangeEvent(localValue, IsValidCPF(localValue))
      ensures emitted.Some? && |Digits(typed)| <= MaxDigits ==> emitted.value.isValid == IsValidCPF(typed)
    {
      var val := FormatCPF(typed);
      localValue := val;
      if hasOnChange {
        var ok := ValidateCPF(val);
        emitted := Some(ChangeEvent(val, ok));
        if |Digits(typed)| <= MaxDigits {
          ValidAfterFormat(typed);
        }
      } else {
        emitted := None;
      }
    }
  }
}
