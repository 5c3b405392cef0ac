/** Outcome resolver: the fixed table of test card numbers and, for any other number,
    the weighted draw (`DetermineTransactionResult`, `SimulateRandomResult` and
    `GenerateAuthCode` in ECommerceAPI/Services/BasePaymentSimulator.cs). The random
    draws are parameters: `chance` is `Random.Next(100)` and `authDraw` is
    `Random.Next(100000, 999999)`. */
module OutcomeResolver {
  import opened PaymentEnums
  import opened Wrappers
  import opened CardClassifier

  /** What a payment attempt resolves to. */
  datatype Outcome = Outcome(status: PaymentStatus, message: string, errorCode: Option<string>, authCode: Option<string>)

  /** The status, message and error code of a fixed test number. */
  datatype Verdict = Verdict(status: PaymentStatus, message: string, errorCode: Option<string>)

  /** An authorisation code accompanies exactly the approvals, an error code exactly the rest. */
  predicate WellFormed(o: Outcome) {
    && (o.authCode.Some? <==> o.status == Approved)
    && (o.errorCode.Some? <==> o.status != Approved)
  }

  /** The statuses a payment can resolve to. */
  predicate IsResolved(s: PaymentStatus) {
    s == Approved || s == Declined || s == Failed
  }

  const ApprovedMessage: string := "Pago aprobado exitosamente"

  /** The test numbers and what each of them always yields. */
  const TestCards: map<string, Verdict> := map[
    "4242424242424242" := Verdict(Approved, ApprovedMessage, None),
    "4000000000000002" := Verdict(Declined, "Tarjeta declinada", Some("card_declined")),
    "4000000000000069" := Verdict(Declined, "Tarjeta expirada", Some("expired_card")),
    "4000000000000127" := Verdict(Declined, "CVC incorrecto", Some("incorrect_cvc")),
    "4000000000000119" := Verdict(Failed, "Error de procesamiento", Some("processing_error")),
    "4000000000009995" := Verdict(Declined, "Fondos insuficientes", Some("insufficient_funds")),
    "5555555555554444" := Verdict(Approved, ApprovedMessage, None),
    "378282246310005" := Verdict(Approved, ApprovedMessage, None)
  ]

  // Decimal digits

  predicate IsDigit(c: char) {
    '0' <= c <= '9'
  }

  predicate AllDigits(s: string) {
    forall i :: 0 <= i < |s| ==> IsDigit(s[i])
  }

  function DigitChar(d: nat): (c: char)
    requires d < 10
    ensures IsDigit(c) && c as int - '0' as int == d
  {
    ('0' as int + d) as char
  }

  /** The value of a string of decimal digits. */
  function DigitsValue(s: string): nat
    requires AllDigits(s)
  {
    if s == [] then 0 else 10 * DigitsValue(s[..|s| - 1]) + (s[|s| - 1] as int - '0' as int)
  }

  function Pow10(k: nat): (p: nat)
    ensures p >= 1
  {
    if k == 0 then 1 else 10 * Pow10(k - 1)
  }

  /** `n.ToString()` for a non-negative integer: its decimal digits, most significant first. */
  function DecimalString(n: nat): (r: string)
    ensures |r| >= 1 && AllDigits(r)
  {
    if n < 10 then [DigitChar(n)] else DecimalString(n / 10) + [DigitChar(n % 10)]
  }

  /** Reading the decimal string back gives the number. */
  lemma {:induction false} DecimalStringValue(n: nat)
    ensures DigitsValue(DecimalString(n)) == n
  {
    var r := DecimalString(n);
    if n >= 10 {
      DecimalStringValue(n / 10);
      assert r[..|r| - 1] == DecimalString(n / 10);
    }
  }

  /** A number with k + 1 digits is written with k + 1 characters. */
  lemma {:induction false} DecimalStringLength(n: nat, k: nat)
    requires Pow10(k) <= n < Pow10(k + 1)
    ensures |DecimalString(n)| == k + 1
  {
    if k > 0 {
      assert Pow10(k) == 10 * Pow10(k - 1);
      assert Pow10(k - 1) <= n / 10 < Pow10(k);
      DecimalStringLength(n / 10, k - 1);
    } else {
      assert n < 10;
    }
  }

  /** `GenerateAuthCode`: the decimal rendering of a draw from [100000, 999999). */
  function GenerateAuthCode(authDraw: int): (code: string)
    requires 100000 <= authDraw < 999999
    ensures |code| == 6 && AllDigits(code)
    ensures DigitsValue(code) == authDraw
  {
    assert Pow10(5) == 100000 && Pow10(6) == 1000000;
    DecimalStringLength(authDraw, 5);
    DecimalStringValue(authDraw);
    DecimalString(authDraw)
  }

  /** Different draws never produce the same authorisation code. */
  lemma AuthCodesDistinct(d1: int, d2: int)
    requires 100000 <= d1 < 999999 && 100000 <= d2 < 999999 && d1 != d2
    ensures GenerateAuthCode(d1) != GenerateAuthCode(d2)
  {
  }

  /** `SimulateRandomResult`: 80 of the 100 values of `chance` approve, the next 15
      decline and the last 5 fail. */
  function SimulateRandomResult(chance: int, authDraw: int): (r: Outcome)
    requires 0 <= chance < 100
    requires 100000 <= authDraw < 999999
    ensures WellFormed(r) && IsResolved(r.status)
    ensures r.status == Approved <==> chance < 80
    ensures r.status == Declined <==> 80 <= chance < 95
    ensures r.status == Failed <==> 95 <= chance
    ensures r.status == Approved ==> r.message == ApprovedMessage && r.authCode == Some(GenerateAuthCode(authDraw))
    ensures r.status == Declined ==> r.message == "Tarjeta declinada por el banco" && r.errorCode == Some("card_declined")
    ensures r.status == Failed ==> r.message == "Error de conexión con el procesador" && r.errorCode == Some("gateway_error")
  {
    if chance < 80 then Outcome(Approved, ApprovedMessage, None, Some(GenerateAuthCode(authDraw)))
    else if chance < 95 then Outcome(Declined, "Tarjeta declinada por el banco", Some("card_declined"), None)
    else Outcome(Failed, "Error de conexión con el procesador", Some("gateway_error"), None)
  }

  /** `DetermineTransactionResult`: a test number gets its tabled verdict, any other
      number the weighted draw. */
  function DetermineTransactionResult(cardNumber: string, chance: int, authDraw: int): (r: Outcome)
    requires 0 <= chance < 100
    requires 100000 <= authDraw < 999999
    ensures WellFormed(r) && IsResolved(r.status)
    ensures Clean(cardNumber) in TestCards ==>
      Verdict(r.status, r.message, r.errorCode) == TestCards[Clean(cardNumber)]
    ensures Clean(cardNumber) !in TestCards ==> r == SimulateRandomResult(chance, authDraw)
    ensures r.status == Approved ==> r.authCode == Some(GenerateAuthCode(authDraw))
  {
    match Clean(cardNumber)
    case "4242424242424242" => Outcome(Approved, ApprovedMessage, None, Some(GenerateAuthCode(authDraw)))
    case "4000000000000002" => Outcome(Declined, "Tarjeta declinada", Some("card_declined"), None)
    case "4000000000000069" => Outcome(Declined, "Tarjeta expirada", Some("expired_card"), None)
    case "4000000000000127" => Outcome(Declined, "CVC incorrecto", Some("incorrect_cvc"), None)
    case "4000000000000119" => Outcome(Failed, "Error de procesamiento", Some("processing_error"), None)
    case "4000000000009995" => Outcome(Declined, "Fondos insuficientes", Some("insufficient_funds"), None)
    case "5555555555554444" => Outcome(Approved, ApprovedMessage, None, Some(GenerateAuthCode(authDraw)))
    case "378282246310005" => Outcome(Approved, ApprovedMessage, None, Some(GenerateAuthCode(authDraw)))
    case _ => SimulateRandomResult(chance, authDraw)
  }

  /** Two resolutions of a test number agree on everything but the value of the
      authorisation code, whatever the draws. */
  lemma TestCardsIgnoreChance(cardNumber: string, c1: int, a1: int, c2: int, a2: int)
    requires Clean(cardNumber) in TestCards
    requires 0 <= c1 < 100 && 0 <= c2 < 100
    requires 100000 <= a1 < 999999 && 100000 <= a2 < 999999
    ensures var r1, r2 := DetermineTransactionResult(cardNumber, c1, a1), DetermineTransactionResult(cardNumber, c2, a2);
      r1.status == r2.status && r1.message == r2.message && r1.errorCode == r2.errorCode
  {
  }

  lemma DeclinedTestCard(chance: int, authDraw: int)
    requires 0 <= chance < 100 && 100000 <= authDraw < 999999
    ensures var r := DetermineTransactionResult("4000000000000002", chance, authDraw);
      r.status == Declined && r.errorCode == Some("card_declined") && r.authCode == None
  {
    CleanWithoutSeparators("4000000000000002");
  }

  lemma ProcessingErrorTestCard(chance: int, authDraw: int)
    requires 0 <= chance < 100 && 100000 <= authDraw < 999999
    ensures var r := DetermineTransactionResult("4000000000000119", chance, authDraw);
      r.status == Failed && r.errorCode == Some("processing_error") && r.authCode == None
  {
    CleanWithoutSeparators("4000000000000119");
  }

  lemma ApprovedTestCard(chance: int, authDraw: int)
    requires 0 <= chance < 100 && 100000 <= authDraw < 999999
    ensures var r := DetermineTransactionResult("4242424242424242", chance, authDraw);
      && r.status == Approved && r.errorCode == None
      && r.authCode.Some? && |r.authCode.value| == 6 && AllDigits(r.authCode.value)
  {
    CleanWithoutSeparators("4242424242424242");
  }

  /** The values of `chance` for which the fallback draw gives `status`. */
  function DrawsGiving(status: PaymentStatus, authDraw: int): set<int>
    requires 100000 <= authDraw < 999999
  {
    set c | 0 <= c < 100 && SimulateRandomResult(c, authDraw).status == status
  }

  /** The integers in [lo, hi). */
  function Interval(lo: int, hi: int): (r: set<int>)
    ensures forall c :: c in r <==> lo <= c < hi
    decreases hi - lo
  {
    if lo >= hi then {} else Interval(lo, hi - 1) + {hi - 1}
  }

  lemma {:induction false} IntervalSize(lo: int, hi: int)
    requires lo <= hi
    ensures |Interval(lo, hi)| == hi - lo
    decreases hi - lo
  {
    if lo < hi {
      IntervalSize(lo, hi - 1);
      assert hi - 1 !in Interval(lo, hi - 1);
    }
  }

  /** Over the 100 equally likely values of `chance` the fallback approves 80,
      declines 15 and fails 5: the 80/15/5 split. */
  lemma DrawSplit(authDraw: int)
    requires 100000 <= authDraw < 999999
    ensures |DrawsGiving(Approved, authDraw)| == 80
    ensures |DrawsGiving(Declined, authDraw)| == 15
    ensures |DrawsGiving(Failed, authDraw)| == 5
  {
    assert DrawsGiving(Approved, authDraw) == Interval(0, 80);
    assert DrawsGiving(Declined, authDraw) == Interval(80, 95);
    assert DrawsGiving(Failed, authDraw) == Interval(95, 100);
    IntervalSize(0, 80);
    IntervalSize(80, 95);
    IntervalSize(95, 100);
  }
}
