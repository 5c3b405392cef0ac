/** The gateway simulator (`BasePaymentSimulator` in
    ECommerceAPI/Services/BasePaymentSimulator.cs) and the in-memory transaction store
    it writes to. The store is a static dictionary shared by every simulator; here it
    is a `TransactionStore` object passed to each simulator, and the registry keeps
    every simulator it files on one store. Ids, clock readings
    and random draws are the methods' parameters. */
module Simulator {
  import opened PaymentEnums
  import opened Wrappers
  import opened CardClassifier
  import opened OutcomeResolver
  import opened Transactions
  import opened Gateways

  /** `_transactions`: transaction id to record. */
  class TransactionStore {
    var transactions: Transactions

    ghost predicate Valid()
      reads this
    {
      StoreInvariant(transactions)
    }

    constructor ()
      ensures Valid() && transactions == map[]
    {
      transactions := map[];
    }

    /** `GetTransaction`: the record filed under the id, if any. */
    function GetTransaction(transactionId: string): (r: Option<TransactionRecord>)
      reads this
      ensures r.Some? <==> transactionId in transactions
      ensures r.Some? ==> r.value == transactions[transactionId]
      ensures Valid() && r.Some? ==>
        && r.value.transactionId == transactionId
        && r.value.status != Pending && r.value.status != Processing && r.value.status != Cancelled
    {
      if transactionId in transactions then Some(transactions[transactionId]) else None
    }
  }

  class PaymentSimulator {
    const gatewayType: PaymentGateway
    const store: TransactionStore

    constructor (gatewayType: PaymentGateway, store: TransactionStore)
      ensures this.gatewayType == gatewayType && this.store == store
    {
      this.gatewayType := gatewayType;
      this.store := store;
    }

    /** `GetGatewayInfo`: this provider's metadata; every provider is active, simulated
        and accepts the three recognised brands. */
    function GetGatewayInfo(): (info: GatewayInfo)
      ensures info.gateway == gatewayType
      ensures info.name == GatewayName(gatewayType) && info.description == GatewayDescription(gatewayType)
      ensures info.supportedCurrencies == SupportedCurrencies(gatewayType)
      ensures info.supportedCardTypes == [Visa, MasterCard, AmericanExpress]
      ensures info.isActive && info.isSimulated
    {
      GatewayInfo(gatewayType, GatewayName(gatewayType), GatewayDescription(gatewayType),
                  SupportedCurrencies(gatewayType), [Visa, MasterCard, AmericanExpress], true, true)
    }

    /** `ProcessPaymentAsync` without its delay: classify and resolve the card, answer,
        and file one record under the new id. The record's gateway is this simulator's,
        not the one named in the request. */
    method ProcessPayment(request: PaymentRequest, txnGuid: string, now: Timestamp, chance: int, authDraw: int)
      returns (response: PaymentResponse)
      requires store.Valid()
      requires |request.card.number| >= 4
      requires IsGuidN(txnGuid)
      requires 0 <= chance < 100 && 100000 <= authDraw < 999999
      modifies store
      ensures store.Valid()
      ensures (store.transactions, response)
           == Pay(old(store.transactions), gatewayType, request, txnGuid, now, chance, authDraw)
      ensures store.GetTransaction(response.transactionId)
           == Some(TransactionRecord(response.transactionId, response.status, request.amount, request.currency,
                                     gatewayType, now, None, None))
    {
      var transactionId := GenerateTransactionId(txnGuid);
      var cardType := DetectCardType(request.card.number);
      var lastFour := request.card.number[|request.card.number| - 4..];
      var outcome := DetermineTransactionResult(request.card.number, chance, authDraw);
      response := PaymentResponse(transactionId, outcome.status, outcome.message, request.amount, request.currency,
                                  gatewayType, outcome.authCode, lastFour, cardType, outcome.errorCode, now);
      store.transactions := store.transactions[transactionId :=
        TransactionRecord(transactionId, outcome.status, request.amount, request.currency, gatewayType, now, None, None)];
      PayKeepsInvariant(old(store.transactions), gatewayType, request, txnGuid, now, chance, authDraw);
    }

    /** `ProcessRefundAsync` without its delay: refund an Approved transaction, in full
        unless an amount is given; reject anything else without touching the store. */
    method ProcessRefund(transactionId: string, request: RefundRequest, refundGuid: string, now: Timestamp)
      returns (response: RefundResponse)
      requires store.Valid()
      requires IsGuidN(refundGuid)
      modifies store
      ensures store.Valid()
      ensures (store.transactions, response) == Refund(old(store.transactions), transactionId, request, refundGuid, now)
    {
      if transactionId !in store.transactions {
        return RefundResponse("", transactionId, Failed, 0.0, "USD", NotFoundMessage, now);
      }
      var transaction := store.transactions[transactionId];
      if transaction.status != Approved {
        return RefundResponse("", transactionId, Failed, 0.0, transaction.currency, NotApprovedMessage, now);
      }
      var refundAmount := if request.amount.Some? then request.amount.value else transaction.amount;
      var refundId := GenerateRefundId(refundGuid);
      transaction := transaction.(status := Refunded);
      transaction := transaction.(updatedAt := Some(now));
      transaction := transaction.(refundId := Some(refundId));
      store.transactions := store.transactions[transactionId := transaction];
      response := RefundResponse(refundId, transactionId, Refunded, refundAmount, transaction.currency,
                                 RefundedMessage, now);
    }
  }
}
