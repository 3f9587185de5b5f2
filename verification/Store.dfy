/** The in-memory transaction store (internal/subsystems/storage/inmemory_store.go). */
module Store {
  import opened Text
  import opened Payments

  // ---------- Payloads ----------

  /** The payload text: nothing, not JSON, `{}`, or an encoded payment response. */
  datatype Payload = NoText | Malformed | EmptyObject | Response(response: PaymentResponse)

  function Unmarshal(p: Payload): Option<PaymentResponse> {
    match p
    case NoText => None
    case Malformed => None
    case EmptyObject => Some(ZERO_RESPONSE)
    case Response(r) => Some(r)
  }

  predicate Anonymous(r: PaymentResponse) {
    r.id == "" && r.merchantID == "" && r.idempotencyKey == ""
  }

  /** A response without any id is only scrubbed of its verification code. */
  function SanitizePayload(p: Payload): Payload {
    match p
    case Response(r) =>
      if Anonymous(r) then Response(r.(info := r.info.(customer := WithoutCvv(r.info.customer))))
      else Response(Sanitized(r))
    case _ => p
  }

  /** No stored text keeps a verification code; one with an id keeps no token and a masked card only. */
  lemma StoredTextIsSafe(p: Payload)
    ensures match SanitizePayload(p)
            case Response(after) =>
              && p.Response? && after.info.customer.cvvCode == ""
              && var before := p.response;
                 if before.id != "" || before.merchantID != "" || before.idempotencyKey != "" then
                   after.details.token == ""
                   && after.info.customer.cardNumber == MaskCardNumber(before.info.customer.cardNumber)
                 else after.(info := after.info.(customer := before.info.customer)) == before
            case other => other == p
  {
    hide MaskCardNumber, TokenPreview;
  }

  // ---------- Transactions ----------

  datatype StoredTx = StoredTx(status: string, payload: Payload, idempotencyKey: string, createdAt: Time,
                               updatedAt: Time)

  datatype Transactions = Transactions(byIdempotency: map<string, StoredTx>, byPaymentID: map<string, StoredTx>)

  const NO_TRANSACTIONS := Transactions(map[], map[])

  datatype SaveCall = SaveCall(
    merchantID: string, paymentID: string, idempotencyKey: string, status: string, payload: Payload, updatedAt: Time)

  predicate Accepted(c: SaveCall) {
    c.merchantID != "" && c.idempotencyKey != "" && c.payload != Malformed
  }

  function SavedTx(t: Transactions, c: SaveCall): StoredTx {
    var key := Composite(c.merchantID, c.idempotencyKey);
    var createdAt := if key in t.byIdempotency && t.byIdempotency[key].createdAt != ZERO_TIME
                     then t.byIdempotency[key].createdAt else c.updatedAt;
    StoredTx(c.status, SanitizePayload(c.payload), c.idempotencyKey, createdAt, c.updatedAt)
  }

  /** One save on both indexes; a refused save changes nothing. */
  function SaveStep(t: Transactions, c: SaveCall): Transactions {
    if !Accepted(c) then t
    else
      var tx := SavedTx(t, c);
      Transactions(
        t.byIdempotency[Composite(c.merchantID, c.idempotencyKey) := tx],
        if c.paymentID == "" then t.byPaymentID
        else t.byPaymentID[Composite(c.merchantID, c.paymentID) := tx])
  }

  /** What a handler that may write leaves behind. */
  function Saved(t: Transactions, c: Option<SaveCall>): Transactions {
    match c
    case None => t
    case Some(call) => SaveStep(t, call)
  }

  function FindByKey(t: Transactions, merchantID: string, idempotencyKey: string): Option<StoredTx> {
    var key := Composite(merchantID, idempotencyKey);
    if key in t.byIdempotency then Some(t.byIdempotency[key]) else None
  }

  function FindByPayment(t: Transactions, merchantID: string, paymentID: string): Option<StoredTx> {
    var key := Composite(merchantID, paymentID);
    if key in t.byPaymentID then Some(t.byPaymentID[key]) else None
  }

  /** A save without a merchant or a key, or with a broken text, changes nothing. Any other is what both lookups then
      find, the one by payment only if the save has a payment id; and no other key is touched. */
  lemma SaveTells(t: Transactions, c: SaveCall)
    ensures var after := SaveStep(t, c);
            if c.merchantID == "" || c.idempotencyKey == "" || c.payload == Malformed then after == t && !Accepted(c)
            else
              && Accepted(c)
              && FindByKey(after, c.merchantID, c.idempotencyKey).Some?
              && var tx := FindByKey(after, c.merchantID, c.idempotencyKey).value;
                 && tx.status == c.status && tx.idempotencyKey == c.idempotencyKey && tx.updatedAt == c.updatedAt
                 && tx.payload == SanitizePayload(c.payload)
                 && (c.paymentID != "" ==> FindByPayment(after, c.merchantID, c.paymentID) == Some(tx))
                 && (c.paymentID == "" ==> after.byPaymentID == t.byPaymentID)
    ensures forall key :: key != Composite(c.merchantID, c.idempotencyKey) && key in t.byIdempotency ==>
              key in SaveStep(t, c).byIdempotency && SaveStep(t, c).byIdempotency[key] == t.byIdempotency[key]
    ensures forall key :: key != Composite(c.merchantID, c.paymentID) && key in t.byPaymentID ==>
              key in SaveStep(t, c).byPaymentID && SaveStep(t, c).byPaymentID[key] == t.byPaymentID[key]
  {
    hide SanitizePayload, Composite;
  }

  /** A text that the store decodes: nothing from an empty or broken one, an empty response from `{}`. */
  lemma DecodedText(p: Payload)
    ensures Unmarshal(p).None? <==> p == NoText || p == Malformed
    ensures p == EmptyObject ==> Unmarshal(p) == Some(ZERO_RESPONSE)
    ensures p.Response? ==> Unmarshal(p) == Some(p.response)
  {
  }

  // ---------- Refunds ----------

  const PROCESS_REFUND := "PROCESS_REFUND"
  const SUCCESS_REFUND := "SUCCESS_REFUND"
  const FAIL_REFUND := "FAIL_REFUND"

  function NormalizeRefundStatus(status: string): (s: string)
    ensures s == PROCESS_REFUND || s == SUCCESS_REFUND || s == FAIL_REFUND
  {
    var s := Upper(Trim(status));
    if s in [PROCESS_REFUND, "PROCESS", "PROCESSING", "PENDING"] then PROCESS_REFUND
    else if s in [SUCCESS_REFUND, "SUCCESS", "SUCCEEDED", "SUCCEEDED_REFUND"] then SUCCESS_REFUND
    else if s in [FAIL_REFUND, "FAIL", "FAILED", "CANCELED", "CANCELLED"] then FAIL_REFUND
    else PROCESS_REFUND
  }

  datatype Refund = Refund(
    id: string, merchantID: string, status: string, amount: Money, entityID: string, paymentID: string,
    idempotencyKey: string, provider: string, paymentSystem: string, externalRefundID: string,
    providerStatus: string, providerErrorCode: string, providerErrorMessage: string,
    refundType: string, reason: string, createdAt: Time, updatedAt: Time)

  type Refunds = map<string, Refund>

  predicate RefundAccepted(r: Refund) {
    r.merchantID != "" && r.id != ""
  }

  function SaveRefundStep(refunds: Refunds, r: Refund): Refunds {
    if !RefundAccepted(r) then refunds
    else refunds[Composite(r.merchantID, r.id) := r.(status := NormalizeRefundStatus(r.status))]
  }

  /** A refund without a merchant or an id is not stored; any other is, under both, in one of three statuses. */
  lemma SaveRefundTells(refunds: Refunds, r: Refund)
    ensures var after, key := SaveRefundStep(refunds, r), Composite(r.merchantID, r.id);
            if r.merchantID == "" || r.id == "" then after == refunds && !RefundAccepted(r)
            else
              && RefundAccepted(r) && key in after
              && after[key].status in {"PROCESS_REFUND", "SUCCESS_REFUND", "FAIL_REFUND"}
              && after[key].status == NormalizeRefundStatus(r.status)
              && after[key].(status := r.status) == r && after == refunds[key := after[key]]
  {
    hide NormalizeRefundStatus, Composite;
  }

  /** The record at `key` belongs to the merchant and the idempotency key. */
  predicate RefundMatches(refunds: Refunds, key: string, merchantID: string, idempotencyKey: string) {
    key in refunds && refunds[key].merchantID == merchantID && refunds[key].idempotencyKey == idempotencyKey
  }

  // ---------- The store ----------

  const IDS_REQUIRED := "merchantID and idempotencyKey are required"

  class InMemoryTransactionStore {
    var byIdempotency: map<string, StoredTx>
    var byPaymentID: map<string, StoredTx>
    var refunds: Refunds

    function State(): Transactions
      reads this`byIdempotency, this`byPaymentID
    {
      Transactions(byIdempotency, byPaymentID)
    }

    constructor ()
      ensures State() == NO_TRANSACTIONS && refunds == map[]
    {
      byIdempotency, byPaymentID, refunds := map[], map[], map[];
    }

    method Save(merchantID: string, paymentID: string, idempotencyKey: string, status: string, payloadJSON: Payload,
                updatedAt: Time)
      returns (err: Option<string>)
      modifies this`byIdempotency, this`byPaymentID
      ensures var c := SaveCall(merchantID, paymentID, idempotencyKey, status, payloadJSON, updatedAt);
              State() == SaveStep(old(State()), c) && (err == None <==> Accepted(c))
    {
      if merchantID == "" || idempotencyKey == "" {
        return Some(IDS_REQUIRED);
      }
      var payload := payloadJSON;
      if payload != NoText {
        payload := SanitizePayload(payload);
        if payload == Malformed {
          return Some("invalid payload");
        }
      }
      var key := Composite(merchantID, idempotencyKey);
      var tx := StoredTx(status, payload, idempotencyKey, updatedAt, updatedAt);
      if key in byIdempotency && byIdempotency[key].createdAt != ZERO_TIME {
        tx := tx.(createdAt := byIdempotency[key].createdAt);
      }
      byIdempotency := byIdempotency[key := tx];
      if paymentID != "" {
        byPaymentID := byPaymentID[Composite(merchantID, paymentID) := tx];
      }
      return None;
    }

    method GetByIdempotencyKey(merchantID: string, idempotencyKey: string) returns (found: Outcome<Option<StoredTx>>)
      ensures found.Err? <==> merchantID == "" || idempotencyKey == ""
      ensures found.Ok? ==> found.value == FindByKey(State(), merchantID, idempotencyKey)
    {
      if merchantID == "" || idempotencyKey == "" {
        return Err(IDS_REQUIRED);
      }
      var key := Composite(merchantID, idempotencyKey);
      if key !in byIdempotency {
        return Ok(None);
      }
      return Ok(Some(byIdempotency[key]));
    }

    method GetByPaymentID(merchantID: string, paymentID: string) returns (found: Outcome<Option<StoredTx>>)
      ensures found.Err? <==> merchantID == "" || paymentID == ""
      ensures found.Ok? ==> found.value == FindByPayment(State(), merchantID, paymentID)
    {
      if merchantID == "" || paymentID == "" {
        return Err("merchantID and paymentID are required");
      }
      var key := Composite(merchantID, paymentID);
      if key !in byPaymentID {
        return Ok(None);
      }
      return Ok(Some(byPaymentID[key]));
    }

    method SaveRefund(refund: Refund) returns (err: Option<string>)
      modifies this`refunds
      ensures refunds == SaveRefundStep(old(refunds), refund)
      ensures err == None <==> RefundAccepted(refund)
    {
      if refund.merchantID == "" || refund.id == "" {
        return Some("merchantID and refundID are required");
      }
      var saved := refund.(status := NormalizeRefundStatus(refund.status));
      refunds := refunds[Composite(saved.merchantID, saved.id) := saved];
      return None;
    }

    /** Walks the map in no particular order and returns some match, if there is one. */
    method GetRefundByIdempotencyKey(merchantID: string, idempotencyKey: string)
      returns (found: Outcome<Option<Refund>>)
      ensures found.Err? <==> merchantID == "" || idempotencyKey == ""
      ensures found.Ok? && found.value.Some? ==>
                exists key ::
                  RefundMatches(refunds, key, merchantID, idempotencyKey) && refunds[key] == found.value.value
      ensures found.Ok? && found.value.None? ==> forall key :: !RefundMatches(refunds, key, merchantID, idempotencyKey)
    {
      if merchantID == "" || idempotencyKey == "" {
        return Err(IDS_REQUIRED);
      }
      var todo := refunds.Keys;
      while todo != {}
        invariant todo <= refunds.Keys
        invariant forall key :: key in refunds && key !in todo ==>
                    !RefundMatches(refunds, key, merchantID, idempotencyKey)
        decreases |todo|
      {
        var key :| key in todo;
        if refunds[key].merchantID == merchantID && refunds[key].idempotencyKey == idempotencyKey {
          assert RefundMatches(refunds, key, merchantID, idempotencyKey);
          return Ok(Some(refunds[key]));
        }
        todo := todo - {key};
      }
      return Ok(None);
    }
  }
}
