/** The gas policy check of internal/app/app.go, on the strings callers send. */
module GasPolicy {
  import opened Common
  import Gas
  import GasThrash

  /** The two error messages. */
  datatype Complaint = MustBeSetTogether | RefillMustExceedMinimum

  datatype Result = Accepted | Refused(complaint: Complaint)

  predicate IsDigit(c: char) {
    '0' <= c <= '9'
  }

  function Digit(c: char): nat
    requires IsDigit(c)
  {
    c as int - '0' as int
  }

  predicate AllDigits(s: string) {
    s != "" && forall i :: 0 <= i < |s| ==> IsDigit(s[i])
  }

  function Value(s: string): nat
    requires forall i :: 0 <= i < |s| ==> IsDigit(s[i])
  {
    if s == "" then 0 else 10 * Value(s[..|s| - 1]) + Digit(s[|s| - 1])
  }

  function Unsigned(s: string): string {
    if s != "" && (s[0] == '+' || s[0] == '-') then s[1..] else s
  }

  /** What `big.Int.SetString(s, 10)` reads: an optional sign and digits. */
  function SetString(s: string): Option<int> {
    if !AllDigits(Unsigned(s)) then None
    else if s[0] == '-' then Some(0 - Value(Unsigned(s)))
    else Some(Value(Unsigned(s)))
  }

  /** `parseUintOrZero`: whatever cannot be read, and whatever is negative, counts as zero. */
  function ParseUintOrZero(s: string): nat {
    if s == "" then 0
    else match SetString(s) case None => 0 case Some(v) => if v < 0 then 0 else v
  }

  function NonEmptyOrZero(s: string): string {
    if s == "" then "0" else s
  }

  function ValidateGasPolicy(signerMin: string, signerRefill: string): Result {
    var min, refill := ParseUintOrZero(signerMin), ParseUintOrZero(signerRefill);
    if min == 0 && refill == 0 then Accepted
    else if min == 0 || refill == 0 then Refused(MustBeSetTogether)
    else if refill <= min then Refused(RefillMustExceedMinimum)
    else Accepted
  }

  // ---- What the check accepts

  function DigitChar(d: nat): char
    requires d < 10
  {
    ('0' as int + d) as char
  }

  /** A number as people write it. */
  function Decimal(n: nat): string {
    if n < 10 then [DigitChar(n)] else Decimal(n / 10) + [DigitChar(n % 10)]
  }

  /** Reading undoes writing. */
  lemma {:induction false} DecimalRoundTrip(n: nat)
    ensures AllDigits(Decimal(n)) && Value(Decimal(n)) == n
  {
    var s := Decimal(n);
    if n < 10 {
      assert s[..|s| - 1] == "";
    } else {
      DecimalRoundTrip(n / 10);
      assert s[..|s| - 1] == Decimal(n / 10) && s[|s| - 1] == DigitChar(n % 10);
    }
  }

  lemma SignedRoundTrip(n: nat)
    ensures SetString(Decimal(n)) == Some(n) && SetString("-" + Decimal(n)) == Some(0 - n)
    ensures SetString("+" + Decimal(n)) == Some(n)
  {
    DecimalRoundTrip(n);
    assert IsDigit(Decimal(n)[0]) && Unsigned(Decimal(n)) == Decimal(n);
    assert ("-" + Decimal(n))[1..] == Decimal(n) && ("+" + Decimal(n))[1..] == Decimal(n);
  }

  /** The amount a string denotes; anything that is not a number denotes none. */
  function Amount(s: string): int {
    if s != "" && SetString(s).Some? then SetString(s).value else 0
  }

  /** Exactly which policies pass and why the others do not. */
  lemma PolicyIsAcceptedIff(signerMin: string, signerRefill: string)
    ensures var min, refill := Amount(signerMin), Amount(signerRefill);
            var answer := ValidateGasPolicy(signerMin, signerRefill);
            && (answer == Accepted <==> (min <= 0 && refill <= 0) || 0 < min < refill)
            && (answer == Refused(MustBeSetTogether) <==> (min <= 0 < refill) || (refill <= 0 < min))
            && (answer == Refused(RefillMustExceedMinimum) <==> 0 < refill <= min)
  {
  }

  /** On amounts written in decimal. */
  lemma DecimalPolicyIsAcceptedIff(min: nat, refill: nat)
    ensures ValidateGasPolicy(Decimal(min), Decimal(refill)).Accepted?
            <==> (min == 0 && refill == 0) || 0 < min < refill
  {
    SignedRoundTrip(min);
    SignedRoundTrip(refill);
    PolicyIsAcceptedIff(Decimal(min), Decimal(refill));
    DecimalRoundTrip(min);
    DecimalRoundTrip(refill);
  }

  // ---- What the database stores

  function Pow10(n: nat): nat {
    if n == 0 then 1 else 10 * Pow10(n - 1)
  }

  /** Where the exponent mark stands, if there is one. */
  function MarkIndex(s: string): nat
    ensures MarkIndex(s) <= |s|
    ensures MarkIndex(s) < |s| ==> s[MarkIndex(s)] == 'e'
    ensures forall i :: 0 <= i < MarkIndex(s) ==> s[i] != 'e'
  {
    if s == "" then 0 else if s[0] == 'e' then 0 else 1 + MarkIndex(s[1..])
  }

  /** What a NUMERIC(78, 0) column holds: 78 digits and a sign. */
  predicate Fits(v: int) {
    0 - Pow10(78) < v < Pow10(78)
  }

  /** The integers a NUMERIC text denotes: decimal digits with an optional sign, or such a number times a
      power of ten. */
  function ReadNumber(s: string): Option<int> {
    var k := MarkIndex(s);
    if k == |s| then SetString(s)
    else
      var mantissa, exponent := SetString(s[..k]), s[k + 1..];
      if mantissa.None? || !AllDigits(exponent) then None
      else Some(mantissa.value * Pow10(Value(exponent)))
  }

  /** The column refuses what it cannot read and what it cannot hold. */
  function StoredNumber(s: string): Option<int> {
    match ReadNumber(s)
    case None => None
    case Some(v) => if Fits(v) then Some(v) else None
  }

  /** The policy the gas worker reads back; it skips applications with a zero or negative amount. */
  datatype Stored = Stored(min: int, refill: int)

  function StorePolicy(signerMin: string, signerRefill: string): Option<Stored> {
    match (StoredNumber(NonEmptyOrZero(signerMin)), StoredNumber(NonEmptyOrZero(signerRefill)))
    case (Some(m), Some(r)) => Some(Stored(m, r))
    case _ => None
  }

  predicate WorkerActs(p: Stored) {
    p.min > 0 && p.refill > 0
  }

  /** A string `big.Int` can read, or an empty one. */
  predicate IsPlain(s: string) {
    s == "" || SetString(s).Some?
  }

  /** Digits contain no exponent mark. */
  lemma PlainHasNoMark(s: string)
    requires SetString(s).Some?
    ensures MarkIndex(s) == |s| && ReadNumber(s) == SetString(s)
  {
    assert forall i :: 0 <= i < |s| ==> s[i] != 'e';
  }

  lemma {:induction false} Pow10Grows(n: nat)
    ensures Pow10(n) > n
  {
    if n > 0 {
      Pow10Grows(n - 1);
    }
  }

  lemma ZeroIsStored()
    ensures StoredNumber("0") == Some(0)
  {
    Pow10Grows(78);
    assert "0"[..0] == "" && MarkIndex("0") == 1;
    assert SetString("0") == Some(0);
  }

  /** The check reads a string as the database does exactly when the string is plain, or stores nothing
      the worker would act on. */
  lemma CheckedAsStoredIff(s: string)
    requires StoredNumber(NonEmptyOrZero(s)).Some?
    ensures var stored := StoredNumber(NonEmptyOrZero(s)).value;
            ParseUintOrZero(s) == (if stored < 0 then 0 else stored) <==> IsPlain(s) || stored <= 0
  {
    if s == "" {
      ZeroIsStored();
    } else if IsPlain(s) {
      PlainHasNoMark(s);
    }
  }

  /** A plain amount within the column's range. */
  predicate IsStorable(s: string) {
    s == "" || (SetString(s).Some? && Fits(SetString(s).value))
  }

  /** A plain decimal policy that is accepted is stored as it is if and only if the column holds both amounts. The
      worker acts on it if and only if the minimum is positive, and then refills above the minimum. */
  lemma AcceptedPolicyRefillsAboveMinimum(signerMin: string, signerRefill: string)
    requires IsPlain(signerMin) && IsPlain(signerRefill)
    requires ValidateGasPolicy(signerMin, signerRefill).Accepted?
    ensures StorePolicy(signerMin, signerRefill).Some? <==> IsStorable(signerMin) && IsStorable(signerRefill)
    ensures var p := StorePolicy(signerMin, signerRefill);
            p.Some? ==>
              && p.value.min == Amount(signerMin) && p.value.refill == Amount(signerRefill)
              && (WorkerActs(p.value) <==> 0 < Amount(signerMin))
              && (WorkerActs(p.value) ==> p.value.min < p.value.refill)
  {
    StoredIsParsed(signerMin);
    StoredIsParsed(signerRefill);
    PolicyIsAcceptedIff(signerMin, signerRefill);
  }

  lemma StoredIsParsed(s: string)
    requires IsPlain(s)
    ensures var v := StoredNumber(NonEmptyOrZero(s));
            && (v.Some? <==> IsStorable(s)) && (v.Some? && v.value > 0 ==> ParseUintOrZero(s) == v.value)
            && (v.Some? ==> v.value == Amount(s))
  {
    if s == "" {
      ZeroIsStored();
    } else {
      PlainHasNoMark(s);
    }
  }

  function Zeros(n: nat): string {
    if n == 0 then "" else Zeros(n - 1) + "0"
  }

  /** A one and `n` zeros. */
  lemma {:induction false} PowerText(n: nat)
    ensures AllDigits("1" + Zeros(n)) && Value("1" + Zeros(n)) == Pow10(n)
  {
    var s := "1" + Zeros(n);
    if n == 0 {
      assert s == "1" && "1"[..0] == "" && Value("1") == 1;
    } else {
      PowerText(n - 1);
      assert s == ("1" + Zeros(n - 1)) + "0";
      assert s[..|s| - 1] == "1" + Zeros(n - 1) && s[|s| - 1] == '0';
    }
  }

  /** The check accepts amounts the column cannot hold: a minimum of 1 and a refill of 10^78 or more. */
  lemma AcceptedButNotStored(n: nat)
    requires n >= 78
    ensures ValidateGasPolicy("1", "1" + Zeros(n)).Accepted? && StorePolicy("1", "1" + Zeros(n)).None?
  {
    PowerIsRead(n);
    Pow10Grows(n);
    Pow10Monotone(78, n);
    StoredIsParsed("1" + Zeros(n));
    OneIsRead();
  }

  lemma PowerIsRead(n: nat)
    ensures SetString("1" + Zeros(n)) == Some(Pow10(n)) && ParseUintOrZero("1" + Zeros(n)) == Pow10(n)
  {
    PowerText(n);
    assert Unsigned("1" + Zeros(n)) == "1" + Zeros(n);
  }

  lemma OneIsRead()
    ensures ParseUintOrZero("1") == 1
  {
    assert "1"[..0] == "" && SetString("1") == Some(1);
  }

  lemma {:induction false} Pow10Monotone(m: nat, n: nat)
    requires m <= n
    ensures Pow10(m) <= Pow10(n)
    decreases n
  {
    if m < n {
      Pow10Monotone(m, n - 1);
    }
  }

  /** ... and so a signer that spends nothing is topped up at most once under it. */
  lemma AcceptedPolicyDoesNotThrash(signerMin: string, signerRefill: string, treasuryMin: nat)
    requires IsPlain(signerMin) && IsPlain(signerRefill)
    requires ValidateGasPolicy(signerMin, signerRefill).Accepted?
    requires StorePolicy(signerMin, signerRefill).Some?
    requires WorkerActs(StorePolicy(signerMin, signerRefill).value)
    ensures var p := StorePolicy(signerMin, signerRefill).value;
            GasThrash.IdleSignersSettle(Gas.Policy(p.min, p.refill, treasuryMin))
  {
    AcceptedPolicyRefillsAboveMinimum(signerMin, signerRefill);
    var p := StorePolicy(signerMin, signerRefill).value;
    GasThrash.IdleSignersSettleIff(Gas.Policy(p.min, p.refill, treasuryMin));
  }

  /** The check misses amounts in exponent form: here the minimum is 20 and the refill 10. */
  lemma ExponentFormEscapesTheCheck()
    ensures ValidateGasPolicy("2e1", "1e1").Accepted?
    ensures StorePolicy("2e1", "1e1") == Some(Stored(20, 10)) && WorkerActs(Stored(20, 10))
  {
    Pow10Grows(78);
    ExponentExample("2e1", 2);
    ExponentExample("1e1", 1);
  }

  lemma ExponentExample(s: string, d: nat)
    requires |s| == 3 && IsDigit(s[0]) && Digit(s[0]) == d && s[1..] == "e1"
    ensures ParseUintOrZero(s) == 0 && ReadNumber(s) == Some(10 * d)
  {
    assert s[1] == s[1..][0] == 'e' && s[2] == s[1..][1] == '1';
    assert !IsDigit(Unsigned(s)[1]);
    assert MarkIndex(s[1..]) == 0 && MarkIndex(s) == 1;
    assert s[..1] == [s[0]] && [s[0]][..0] == "" && Value([s[0]]) == d;
    assert s[2..] == ['1'] && ['1'][..0] == "" && Value(['1']) == 1;
    assert Pow10(1) == 10 * Pow10(0);
  }
}
