/** The transaction store's contents and the two operations that change them, as
    functions of the store's value: a payment inserts one record, a refund moves one
    record from Approved to Refunded (`ProcessPaymentAsync`, `ProcessRefundAsync`,
    `GenerateTransactionId` and `TransactionRecord` in
    ECommerceAPI/Services/BasePaymentSimulator.cs). The simulator's methods are proved
    against these functions. */
module Transactions {
  import opened PaymentEnums
  import opened Wrappers
  import opened CardClassifier
  import opened OutcomeResolver

  // Identifiers

  predicate IsLowerHex(c: char) {
    '0' <= c <= '9' || 'a' <= c <= 'f'
  }

  /** A GUID in its "N" rendering: 32 lower-case hexadecimal digits. */
  predicate IsGuidN(guid: string) {
    |guid| == 32 && forall i :: 0 <= i < |guid| ==> IsLowerHex(guid[i])
  }

  predicate IsTransactionId(id: string) {
    |id| == 24 && id[..4] == "txn_" && forall i :: 4 <= i < |id| ==> IsLowerHex(id[i])
  }

  predicate IsRefundId(id: string) {
    |id| == 20 && id[..4] == "ref_" && forall i :: 4 <= i < |id| ==> IsLowerHex(id[i])
  }

  /** `GenerateTransactionId`: "txn_" and the GUID, cut to 24 characters. */
  function GenerateTransactionId(guid: string): (id: string)
    requires IsGuidN(guid)
    ensures IsTransactionId(id)
    ensures id[4..] == guid[..20]
  {
    ("txn_" + guid)[..24]
  }

  /** The refund identifier: "ref_" and the GUID, cut to 20 characters. */
  function GenerateRefundId(guid: string): (id: string)
    requires IsGuidN(guid)
    ensures IsRefundId(id)
    ensures id[4..] == guid[..16]
  {
    ("ref_" + guid)[..20]
  }

  /** Transaction ids are a function of the first 20 GUID digits and tell them apart. */
  lemma TransactionIdsDistinguishGuids(g1: string, g2: string)
    requires IsGuidN(g1) && IsGuidN(g2)
    ensures GenerateTransactionId(g1) == GenerateTransactionId(g2) <==> g1[..20] == g2[..20]
  {
  }

  // Records, requests and responses

  /** A stored transaction. Only `status`, `updatedAt` and `refundId` ever change. */
  datatype TransactionRecord = TransactionRecord(
    transactionId: string,
    status: PaymentStatus,
    amount: Amount,
    currency: string,
    gateway: PaymentGateway,
    createdAt: Timestamp,
    updatedAt: Option<Timestamp>,
    refundId: Option<string>)

  type Transactions = map<string, TransactionRecord>

  datatype CardInfo = CardInfo(number: string, expiryMonth: int, expiryYear: int, cvc: string, holderName: string)

  datatype PaymentRequest = PaymentRequest(
    amount: Amount,
    currency: string,
    gateway: PaymentGateway,
    card: CardInfo,
    description: Option<string>,
    customerId: Option<string>,
    metadata: Option<map<string, string>>)

  datatype PaymentResponse = PaymentResponse(
    transactionId: string,
    status: PaymentStatus,
    message: string,
    amount: Amount,
    currency: string,
    gateway: PaymentGateway,
    authorizationCode: Option<string>,
    cardLastFour: string,
    cardType: CardType,
    errorCode: Option<string>,
    timestamp: Timestamp)

  datatype RefundRequest = RefundRequest(amount: Option<Amount>, reason: Option<string>)

  datatype RefundResponse = RefundResponse(
    refundId: string,
    originalTransactionId: string,
    status: PaymentStatus,
    amount: Amount,
    currency: string,
    message: string,
    timestamp: Timestamp)

  const NotFoundMessage: string := "Transacción no encontrada"
  const NotApprovedMessage: string := "Solo se pueden reembolsar transacciones aprobadas"
  const RefundedMessage: string := "Reembolso procesado exitosamente"

  // Invariants

  /** What every stored record satisfies: it is filed under its own id, its status is
      one a payment or a refund leaves behind, and it carries refund data exactly when
      it has been refunded. */
  predicate RecordInvariant(id: string, rec: TransactionRecord) {
    && rec.transactionId == id
    && IsTransactionId(id)
    && (IsResolved(rec.status) || rec.status == Refunded)
    && (rec.refundId.Some? <==> rec.status == Refunded)
    && (rec.updatedAt.Some? <==> rec.status == Refunded)
    && (rec.refundId.Some? ==> IsRefundId(rec.refundId.value))
  }

  predicate StoreInvariant(m: Transactions) {
    forall id :: id in m ==> RecordInvariant(id, m[id])
  }

  /** The fields fixed when a record is created. */
  predicate SameImmutableFields(a: TransactionRecord, b: TransactionRecord) {
    && a.transactionId == b.transactionId
    && a.amount == b.amount
    && a.currency == b.currency
    && a.gateway == b.gateway
    && a.createdAt == b.createdAt
  }

  /** How the store may evolve: no record disappears, no fixed field changes, and a
      status changes only from Approved to Refunded. */
  predicate Evolves(m: Transactions, m': Transactions) {
    && m.Keys <= m'.Keys
    && forall k :: k in m ==>
         && SameImmutableFields(m[k], m'[k])
         && (m'[k].status == m[k].status || (m[k].status == Approved && m'[k].status == Refunded))
  }

  lemma EvolvesTransitive(m1: Transactions, m2: Transactions, m3: Transactions)
    requires Evolves(m1, m2) && Evolves(m2, m3)
    ensures Evolves(m1, m3)
  {
  }

  /** Refunded is final: however the store evolves, a refunded record stays refunded. */
  lemma RefundedIsFinal(m: Transactions, m': Transactions, id: string)
    requires Evolves(m, m') && id in m && m[id].status == Refunded
    ensures m'[id].status == Refunded
  {
  }

  // Operations

  /** `ProcessPaymentAsync` on the store's value: resolve the card, then file exactly one
      record, under the new id, whatever the outcome. */
  function Pay(m: Transactions, gateway: PaymentGateway, request: PaymentRequest, txnGuid: string,
               now: Timestamp, chance: int, authDraw: int): (r: (Transactions, PaymentResponse))
    requires |request.card.number| >= 4
    requires IsGuidN(txnGuid)
    requires 0 <= chance < 100 && 100000 <= authDraw < 999999
    ensures var (m', resp) := r;
      var id := resp.transactionId;
      && id == GenerateTransactionId(txnGuid)
      && m'.Keys == m.Keys + {id}
      && (forall k :: k in m && k != id ==> m'[k] == m[k])
      && m'[id] == TransactionRecord(id, resp.status, request.amount, request.currency, gateway, now, None, None)
      && (id !in m ==> |m'| == |m| + 1)
    ensures var resp := r.1;
      var number := request.card.number;
      var outcome := DetermineTransactionResult(number, chance, authDraw);
      && resp.status == outcome.status
      && resp.message == outcome.message
      && resp.authorizationCode == outcome.authCode
      && resp.errorCode == outcome.errorCode
      && IsResolved(resp.status)
      && (resp.authorizationCode.Some? <==> resp.status == Approved)
      && (resp.errorCode.Some? <==> resp.status != Approved)
      && resp.amount == request.amount
      && resp.currency == request.currency
      && resp.gateway == gateway
      && resp.cardType == DetectCardType(number)
      && resp.cardLastFour == number[|number| - 4..]
      && resp.timestamp == now
  {
    var id := GenerateTransactionId(txnGuid);
    var number := request.card.number;
    var outcome := DetermineTransactionResult(number, chance, authDraw);
    var response := PaymentResponse(id, outcome.status, outcome.message, request.amount, request.currency, gateway,
                                    outcome.authCode, number[|number| - 4..], DetectCardType(number),
                                    outcome.errorCode, now);
    (m[id := TransactionRecord(id, outcome.status, request.amount, request.currency, gateway, now, None, None)],
     response)
  }

  /** On a number made only of separators the source's classifier reads past the end
      of the cleaned number and the payment throws before anything is filed; `Pay`
      uses the corrected classifier instead and files the payment with an unknown
      brand. */
  lemma SeparatorOnlyNumberIsFiled(m: Transactions, gateway: PaymentGateway, request: PaymentRequest,
                                   txnGuid: string, now: Timestamp, chance: int, authDraw: int)
    requires request.card.number == BlankCardNumber
    requires IsGuidN(txnGuid)
    requires 0 <= chance < 100 && 100000 <= authDraw < 999999
    ensures Clean(request.card.number) == []
    ensures var (m', resp) := Pay(m, gateway, request, txnGuid, now, chance, authDraw);
      resp.cardType == Unknown && resp.transactionId in m'
  {
  }

  /** A payment files a record that satisfies the store invariant. */
  lemma PayKeepsInvariant(m: Transactions, gateway: PaymentGateway, request: PaymentRequest, txnGuid: string,
                          now: Timestamp, chance: int, authDraw: int)
    requires |request.card.number| >= 4
    requires IsGuidN(txnGuid)
    requires 0 <= chance < 100 && 100000 <= authDraw < 999999
    requires StoreInvariant(m)
    ensures StoreInvariant(Pay(m, gateway, request, txnGuid, now, chance, authDraw).0)
  {
  }

  /** A payment under an id not yet in use only adds to the store. */
  lemma PayEvolves(m: Transactions, gateway: PaymentGateway, request: PaymentRequest, txnGuid: string,
                   now: Timestamp, chance: int, authDraw: int)
    requires |request.card.number| >= 4
    requires IsGuidN(txnGuid)
    requires 0 <= chance < 100 && 100000 <= authDraw < 999999
    requires GenerateTransactionId(txnGuid) !in m
    ensures Evolves(m, Pay(m, gateway, request, txnGuid, now, chance, authDraw).0)
  {
  }

  /** `ProcessRefundAsync` on the store's value: only an Approved record is refunded; a
      missing id or any other status is rejected and changes nothing. */
  function Refund(m: Transactions, id: string, request: RefundRequest, refundGuid: string,
                  now: Timestamp): (r: (Transactions, RefundResponse))
    requires IsGuidN(refundGuid)
    ensures var (m', resp) := r;
      && resp.originalTransactionId == id
      && resp.timestamp == now
      && (resp.status == Refunded <==> id in m && m[id].status == Approved)
      && (resp.status != Refunded ==> resp.status == Failed && m' == m && resp.amount == 0.0 && resp.refundId == "")
      && (id !in m ==> resp.currency == "USD" && resp.message == NotFoundMessage)
      && (id in m ==> resp.currency == m[id].currency)
      && (id in m && m[id].status != Approved ==> resp.message == NotApprovedMessage)
    ensures var (m', resp) := r;
      resp.status == Refunded ==>
        && resp.refundId == GenerateRefundId(refundGuid)
        && resp.message == RefundedMessage
        && resp.amount == (if request.amount.Some? then request.amount.value else m[id].amount)
        && m'.Keys == m.Keys
        && (forall k :: k in m && k != id ==> m'[k] == m[k])
        && SameImmutableFields(m[id], m'[id])
        && m'[id].status == Refunded
        && m'[id].updatedAt == Some(now)
        && m'[id].refundId == Some(resp.refundId)
    ensures Evolves(m, r.0)
    ensures StoreInvariant(m) ==> StoreInvariant(r.0)
  {
    if id !in m then
      (m, RefundResponse("", id, Failed, 0.0, "USD", NotFoundMessage, now))
    else if m[id].status != Approved then
      (m, RefundResponse("", id, Failed, 0.0, m[id].currency, NotApprovedMessage, now))
    else
      var refundAmount := if request.amount.Some? then request.amount.value else m[id].amount;
      var refundId := GenerateRefundId(refundGuid);
      (m[id := m[id].(status := Refunded, updatedAt := Some(now), refundId := Some(refundId))],
       RefundResponse(refundId, id, Refunded, refundAmount, m[id].currency, RefundedMessage, now))
  }

  /** A refunded transaction cannot be refunded again. */
  lemma SecondRefundFails(m: Transactions, id: string, r1: RefundRequest, g1: string, t1: Timestamp,
                          r2: RefundRequest, g2: string, t2: Timestamp)
    requires IsGuidN(g1) && IsGuidN(g2)
    requires Refund(m, id, r1, g1, t1).1.status == Refunded
    ensures var second := Refund(Refund(m, id, r1, g1, t1).0, id, r2, g2, t2);
      && second.1.status == Failed
      && second.1.message == NotApprovedMessage
      && second.0 == Refund(m, id, r1, g1, t1).0
  {
  }

  /** An approved payment can be refunded in full once: a refund without an amount
      returns the amount paid, in the currency paid. */
  lemma ApprovedPaymentRefundsInFull(m: Transactions, gateway: PaymentGateway, request: PaymentRequest,
                                      txnGuid: string, now: Timestamp, chance: int, authDraw: int,
                                      refundGuid: string, later: Timestamp)
    requires |request.card.number| >= 4
    requires IsGuidN(txnGuid) && IsGuidN(refundGuid)
    requires 0 <= chance < 100 && 100000 <= authDraw < 999999
    requires Pay(m, gateway, request, txnGuid, now, chance, authDraw).1.status == Approved
    ensures var (m1, paid) := Pay(m, gateway, request, txnGuid, now, chance, authDraw);
      var refund := Refund(m1, paid.transactionId, RefundRequest(None, None), refundGuid, later).1;
      && refund.status == Refunded
      && refund.amount == request.amount
      && refund.currency == request.currency
  {
  }
}
