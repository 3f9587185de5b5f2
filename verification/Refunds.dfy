/** The idempotent refund handler and its ledger (internal/httpapi/refunds/handler.go). */
module Refunds {
  import opened Text
  import opened Payments
  import opened Store

  datatype RefundRequest = RefundRequest(
    merchantID: string, paymentID: string, idempotencyKey: string, amount: Option<Money>, reason: string)

  datatype RefundResult = RefundResult(
    externalRefundID: string, paymentSystem: string, status: string, providerStatus: string, errorMessage: string)

  /** The adapter factory's answer for the payment's provider. */
  datatype Resolved = NotConfigured | NoRefunds | Refunding(provider: string)

  /** What one call learns from outside. */
  datatype RefundEnv = RefundEnv(
    authorized: bool, resolved: Resolved, hex: string, answer: Outcome<RefundResult>, now: Time, later: Time)

  /** A call, full or partial, and the transactions it finds. */
  datatype RefundCall = RefundCall(req: RefundRequest, full: bool, env: RefundEnv, payments: Transactions)

  datatype RefundAnswer = Refused(code: string) | Answered(refund: Refund)

  function TrimmedRequest(r: RefundRequest): RefundRequest {
    RefundRequest(Trim(r.merchantID), Trim(r.paymentID), Trim(r.idempotencyKey), r.amount, Trim(r.reason))
  }

  predicate ValidRequest(r: RefundRequest, full: bool) {
    r.merchantID != "" && r.paymentID != "" && r.idempotencyKey != ""
    && (!full ==> r.amount.Some? && r.amount.value.value > 0.0)
  }

  function NewRefundID(hex: string): string {
    "ref_" + hex
  }

  /** The captured payment the refund is for, or why there is none. */
  function CapturedPayment(t: Transactions, r: RefundRequest): Outcome<PaymentResponse> {
    match FindByPayment(t, r.merchantID, r.paymentID)
    case None => Err("PAYMENT_NOT_FOUND")
    case Some(tx) =>
      match Unmarshal(tx.payload)
      case None => Err("INVALID_STORED_PAYMENT")
      case Some(payment) => if payment.currentStatus == CAPTURED then Ok(payment) else Err("PAYMENT_NOT_CAPTURED")
  }

  function RefundAmount(r: RefundRequest, full: bool, payment: PaymentResponse): Money
    requires !full ==> r.amount.Some?
  {
    var amount := if full then payment.info.amount else r.amount.value;
    if amount.currency == "" then amount.(currency := payment.info.amount.currency) else amount
  }

  /** The record as first saved, before the adapter is called. */
  function Requested(r: RefundRequest, full: bool, payment: PaymentResponse, provider: string, env: RefundEnv): Refund
    requires !full ==> r.amount.Some?
  {
    Refund(NewRefundID(env.hex), r.merchantID, PROCESS_REFUND, RefundAmount(r, full, payment), r.paymentID, r.paymentID,
           r.idempotencyKey, provider, payment.details.paymentSystem, "", "", "", "",
           if full then "full" else "partial", r.reason, env.now, env.now)
  }

  function AdapterAnswer(payment: PaymentResponse, env: RefundEnv): RefundResult {
    match env.answer
    case Ok(result) => result
    case Err(message) => RefundResult("", payment.details.paymentSystem, FAIL_REFUND, "error", message)
  }

  /** The record as saved again with the adapter's answer. */
  function Completed(refund: Refund, result: RefundResult, env: RefundEnv): Refund {
    var status := NormalizeRefundStatus(result.status);
    refund.(status := status, paymentSystem := FirstNonBlankTrimmed(result.paymentSystem, refund.paymentSystem),
            externalRefundID := result.externalRefundID, providerStatus := result.providerStatus,
            providerErrorMessage := result.errorMessage,
            providerErrorCode := if status == FAIL_REFUND then "REFUND_FAILED" else refund.providerErrorCode,
            updatedAt := env.later)
  }

  // ---------- One call ----------

  /** The refund map and the adapter refund calls made so far, by merchant and key. */
  datatype Ledger = Ledger(refunds: Refunds, calls: seq<(string, string)>)

  /** The two saves of a new refund. */
  function Recorded(refunds: Refunds, c: RefundCall, payment: PaymentResponse): Refunds
    requires ValidRequest(TrimmedRequest(c.req), c.full) && c.env.resolved.Refunding?
  {
    var first := Requested(TrimmedRequest(c.req), c.full, payment, c.env.resolved.provider, c.env);
    SaveRefundStep(SaveRefundStep(refunds, first), Completed(first, AdapterAnswer(payment, c.env), c.env))
  }

  function NewRecord(c: RefundCall, payment: PaymentResponse): Refund
    requires ValidRequest(TrimmedRequest(c.req), c.full) && c.env.resolved.Refunding?
  {
    var first := Requested(TrimmedRequest(c.req), c.full, payment, c.env.resolved.provider, c.env);
    Completed(first, AdapterAnswer(payment, c.env), c.env)
  }

  /** A record with the merchant and the key exists. */
  ghost predicate AlreadyRecorded(refunds: Refunds, m: string, k: string) {
    exists key :: RefundMatches(refunds, key, m, k)
  }

  /** What one call may do: the lookup by key may find any matching record. */
  ghost predicate RefundStep(before: Ledger, c: RefundCall, after: Ledger, answer: RefundAnswer) {
    var r := TrimmedRequest(c.req);
    if !ValidRequest(r, c.full) then after == before && answer == Refused("VALIDATION_ERROR")
    else if !c.env.authorized then after == before && answer == Refused("FORBIDDEN")
    else if AlreadyRecorded(before.refunds, r.merchantID, r.idempotencyKey) then
      && after == before
      && exists key :: RefundMatches(before.refunds, key, r.merchantID, r.idempotencyKey)
                       && answer == Answered(before.refunds[key])
    else
      match CapturedPayment(c.payments, r)
      case Err(code) => after == before && answer == Refused(code)
      case Ok(payment) =>
        if c.env.resolved.NotConfigured? then after == before && answer == Refused("ADAPTER_FACTORY_ERROR")
        else if c.env.resolved.NoRefunds? then after == before && answer == Refused("REFUND_NOT_SUPPORTED")
        else
          && after.refunds == Recorded(before.refunds, c, payment)
          && after.calls == before.calls + [(r.merchantID, r.idempotencyKey)]
          && answer == Answered(NewRecord(c, payment))
  }

  class RefundHandler {
    const store: InMemoryTransactionStore
    ghost var calls: seq<(string, string)>

    constructor (store: InMemoryTransactionStore)
      ensures this.store == store && calls == []
    {
      this.store := store;
      calls := [];
    }

    method Create(request: RefundRequest, full: bool, env: RefundEnv) returns (answer: RefundAnswer)
      modifies this`calls, store`refunds
      ensures RefundStep(Ledger(old(store.refunds), old(calls)), RefundCall(request, full, env, store.State()),
                         Ledger(store.refunds, calls), answer)
    {
      hide TrimmedRequest, Requested, Completed, AdapterAnswer, SaveRefundStep;
      var req := TrimmedRequest(request);
      if !ValidRequest(req, full) {
        return Refused("VALIDATION_ERROR");
      }
      if !env.authorized {
        return Refused("FORBIDDEN");
      }
      var cached := store.GetRefundByIdempotencyKey(req.merchantID, req.idempotencyKey);
      if cached.value.Some? {
        return Answered(cached.value.value);
      }
      var found := store.GetByPaymentID(req.merchantID, req.paymentID);
      if found.value.None? {
        return Refused("PAYMENT_NOT_FOUND");
      }
      var decoded := Unmarshal(found.value.value.payload);
      if decoded.None? {
        return Refused("INVALID_STORED_PAYMENT");
      }
      var payment := decoded.value;
      if payment.currentStatus != CAPTURED {
        return Refused("PAYMENT_NOT_CAPTURED");
      }
      var amount := payment.info.amount;
      if !full {
        amount := req.amount.value;
      }
      if amount.currency == "" {
        amount := amount.(currency := payment.info.amount.currency);
      }
      match env.resolved {
        case NotConfigured => return Refused("ADAPTER_FACTORY_ERROR");
        case NoRefunds => return Refused("REFUND_NOT_SUPPORTED");
        case Refunding(provider) =>
          answer := Settle(req, full, amount, payment, provider, env);
      }
    }

    /** Save the request, call the adapter once, save the outcome. */
    method Settle(req: RefundRequest, full: bool, amount: Money, payment: PaymentResponse, provider: string,
                  env: RefundEnv)
      returns (answer: RefundAnswer)
      requires ValidRequest(req, full) && amount == RefundAmount(req, full, payment)
      modifies this`calls, store`refunds
      ensures var first := Requested(req, full, payment, provider, env);
              var last := Completed(first, AdapterAnswer(payment, env), env);
              && store.refunds == SaveRefundStep(SaveRefundStep(old(store.refunds), first), last)
              && calls == old(calls) + [(req.merchantID, req.idempotencyKey)]
              && answer == Answered(last)
    {
      hide FirstNonBlankTrimmed, NormalizeRefundStatus, NewRefundID, SaveRefundStep, ValidRequest;
      var refund := Refund(NewRefundID(env.hex), req.merchantID, PROCESS_REFUND, amount, req.paymentID, req.paymentID,
                           req.idempotencyKey, provider, payment.details.paymentSystem, "", "", "", "",
                           if full then "full" else "partial", req.reason, env.now, env.now);
      var _ := store.SaveRefund(refund);
      calls := calls + [(req.merchantID, req.idempotencyKey)];
      var result: RefundResult;
      match env.answer {
        case Ok(r) => result := r;
        case Err(message) => result := RefundResult("", payment.details.paymentSystem, FAIL_REFUND, "error", message);
      }
      refund := refund.(status := NormalizeRefundStatus(result.status));
      refund := refund.(paymentSystem := FirstNonBlankTrimmed(result.paymentSystem, refund.paymentSystem));
      refund := refund.(externalRefundID := result.externalRefundID, providerStatus := result.providerStatus);
      refund := refund.(providerErrorMessage := result.errorMessage, updatedAt := env.later);
      if refund.status == FAIL_REFUND {
        refund := refund.(providerErrorCode := "REFUND_FAILED");
      }
      var _ := store.SaveRefund(refund);
      return Answered(refund);
    }
  }

  // ---------- Whole runs ----------

  /** Refund ids never repeat and hold no colon. */
  predicate FreshIds(calls: seq<RefundCall>) {
    && (forall i :: 0 <= i < |calls| ==> ':' !in calls[i].env.hex)
    && (forall i, j :: 0 <= i < j < |calls| ==> calls[i].env.hex != calls[j].env.hex)
  }

  /** A sequential run from the empty ledger. */
  ghost predicate RunOf(calls: seq<RefundCall>, ledgers: seq<Ledger>, answers: seq<RefundAnswer>) {
    && |ledgers| == |calls| + 1 && |answers| == |calls| && ledgers[0] == Ledger(map[], [])
    && forall i :: 0 <= i < |calls| ==> RefundStep(ledgers[i], calls[i], ledgers[i + 1], answers[i])
  }

  /** The payment the call is for is stored, and was CAPTURED then. */
  predicate PaysFor(c: RefundCall, payment: PaymentResponse) {
    match FindByPayment(c.payments, Trim(c.req.merchantID), Trim(c.req.paymentID))
    case None => false
    case Some(tx) => Unmarshal(tx.payload) == Some(payment) && payment.currentStatus == "CAPTURED"
  }

  /** A full refund has the payment's amount, a partial one the amount asked for; the payment's currency
      stands in for one that is not given. */
  predicate AmountFits(refund: Refund, c: RefundCall, payment: PaymentResponse) {
    (!c.full ==> c.req.amount.Some?) &&
    var value := if c.full then payment.info.amount.value else c.req.amount.value.value;
    var currency := if c.full then payment.info.amount.currency else c.req.amount.value.currency;
    && refund.refundType == (if c.full then "full" else "partial") && (c.full || refund.amount.value > 0.0)
    && refund.amount.value == value
    && refund.amount.currency == if currency != "" then currency else payment.info.amount.currency
  }

  predicate SaysSuccess(said: string) {
    said == "SUCCESS_REFUND" || said == "SUCCESS" || said == "SUCCEEDED" || said == "SUCCEEDED_REFUND"
  }

  predicate SaysFailure(said: string) {
    said == "FAIL_REFUND" || said == "FAIL" || said == "FAILED" || said == "CANCELED" || said == "CANCELLED"
  }

  /** What the adapter answered. */
  predicate AnswerFits(refund: Refund, c: RefundCall, payment: PaymentResponse) {
    match c.env.answer
    case Err(message) =>
      && refund.status == "FAIL_REFUND" && refund.providerErrorCode == "REFUND_FAILED"
      && refund.providerStatus == "error" && refund.providerErrorMessage == message && refund.externalRefundID == ""
      && refund.paymentSystem == Trim(payment.details.paymentSystem)
    case Ok(a) =>
      var said := Upper(Trim(a.status));
      && (refund.status == "SUCCESS_REFUND" <==> SaysSuccess(said))
      && (refund.status == "FAIL_REFUND" <==> SaysFailure(said))
      && refund.providerErrorCode == (if refund.status == "FAIL_REFUND" then "REFUND_FAILED" else "")
      && refund.providerStatus == a.providerStatus && refund.providerErrorMessage == a.errorMessage
      && refund.externalRefundID == a.externalRefundID
      && IsFirstNonBlank([a.paymentSystem, payment.details.paymentSystem], refund.paymentSystem)
  }

  /** The record was created by the call, for a payment that was CAPTURED then. */
  predicate CreatedBy(refund: Refund, c: RefundCall) {
    && c.env.authorized && c.env.resolved.Refunding?
    && refund.merchantID == Trim(c.req.merchantID) != "" && refund.paymentID == Trim(c.req.paymentID) != ""
    && refund.idempotencyKey == Trim(c.req.idempotencyKey) != "" && refund.id == "ref_" + c.env.hex
    && refund.entityID == refund.paymentID && refund.provider == c.env.resolved.provider
    && refund.reason == Trim(c.req.reason) && refund.createdAt == c.env.now && refund.updatedAt == c.env.later
    && CapturedPayment(c.payments, TrimmedRequest(c.req)).Ok?
    && var payment := CapturedPayment(c.payments, TrimmedRequest(c.req)).value;
       PaysFor(c, payment) && AmountFits(refund, c, payment) && AnswerFits(refund, c, payment)
  }

  predicate OneOfThree(status: string) {
    status == PROCESS_REFUND || status == SUCCESS_REFUND || status == FAIL_REFUND
  }

  /** The record at `key`: under its own ids, with one of the three statuses, made by one of the calls. */
  ghost predicate Explained(refunds: Refunds, key: string, calls: seq<RefundCall>)
    requires key in refunds
  {
    && key == Composite(refunds[key].merchantID, refunds[key].id)
    && OneOfThree(refunds[key].status)
    && exists c :: c in calls && CreatedBy(refunds[key], c)
  }

  ghost predicate AllExplained(refunds: Refunds, calls: seq<RefundCall>) {
    forall key :: key in refunds ==> Explained(refunds, key, calls)
  }

  ghost predicate OneRecordEach(refunds: Refunds) {
    forall m, k, a, b :: RefundMatches(refunds, a, m, k) && RefundMatches(refunds, b, m, k) ==> a == b
  }

  /** At most one adapter call each, and never without a record. */
  ghost predicate OneCallEach(l: Ledger) {
    forall m, k :: multiset(l.calls)[(m, k)] <= if AlreadyRecorded(l.refunds, m, k) then 1 else 0
  }

  ghost predicate GoodLedger(l: Ledger, calls: seq<RefundCall>) {
    AllExplained(l.refunds, calls) && OneRecordEach(l.refunds) && OneCallEach(l)
  }

  lemma MakerOf(refunds: Refunds, key: string, calls: seq<RefundCall>) returns (i: nat)
    requires key in refunds && Explained(refunds, key, calls)
    ensures i < |calls| && refunds[key].id == NewRefundID(calls[i].env.hex)
  {
    var maker :| maker in calls && CreatedBy(refunds[key], maker);
    i :| 0 <= i < |calls| && calls[i] == maker;
  }

  lemma FreshPair(calls: seq<RefundCall>, c: RefundCall, i: nat)
    requires FreshIds(calls + [c]) && i < |calls|
    ensures ':' !in NewRefundID(calls[i].env.hex) && ':' !in NewRefundID(c.env.hex)
    ensures NewRefundID(calls[i].env.hex) != NewRefundID(c.env.hex)
  {
    var all := calls + [c];
    assert all[i] == calls[i] && all[|calls|] == c;
    assert NewRefundID(calls[i].env.hex)[4..] == calls[i].env.hex && NewRefundID(c.env.hex)[4..] == c.env.hex;
  }

  lemma NewIdIsNew(calls: seq<RefundCall>, c: RefundCall, refunds: Refunds, m: string)
    requires FreshIds(calls + [c]) && AllExplained(refunds, calls)
    ensures Composite(m, NewRefundID(c.env.hex)) !in refunds
  {
    var key := Composite(m, NewRefundID(c.env.hex));
    if key in refunds {
      var i := MakerOf(refunds, key, calls);
      FreshPair(calls, c, i);
      CompositeInjectiveById(m, NewRefundID(c.env.hex), refunds[key].merchantID, refunds[key].id);
    }
  }

  lemma CapturedPays(c: RefundCall, payment: PaymentResponse)
    requires CapturedPayment(c.payments, TrimmedRequest(c.req)) == Ok(payment)
    ensures PaysFor(c, payment)
  {
    hide Trim, Unmarshal;
  }

  lemma AnswerIsCompleted(first: Refund, c: RefundCall, payment: PaymentResponse)
    requires first.paymentSystem == payment.details.paymentSystem && first.providerErrorCode == ""
    ensures AnswerFits(Completed(first, AdapterAnswer(payment, c.env), c.env), c, payment)
  {
    hide Trim, Upper, NormalizeRefundStatus, SaysSuccess, SaysFailure, IsFirstNonBlank, FirstNonBlankTrimmed;
    NormalIsNormalized(FAIL_REFUND);
    StatusSaid(AdapterAnswer(payment, c.env).status);
    FirstOfTwo(AdapterAnswer(payment, c.env).paymentSystem, payment.details.paymentSystem);
  }

  /** Four words mean success and five failure; anything else is still in process. */
  lemma StatusSaid(status: string)
    ensures var normal, said := NormalizeRefundStatus(status), Upper(Trim(status));
            && (normal == "SUCCESS_REFUND" <==> SaysSuccess(said))
            && (normal == "FAIL_REFUND" <==> SaysFailure(said))
  {
    hide Trim, Upper;
  }

  lemma FirstOfTwo(a: string, b: string)
    ensures IsFirstNonBlank([a, b], FirstNonBlankTrimmed(a, b))
    ensures a == b ==> FirstNonBlankTrimmed(a, b) == Trim(a)
  {
    assert Trim("") == "";
    assert [a, b][0] == a && [a, b][1] == b;
    hide Trim;
  }

  lemma NewRecordIsCreatedBy(c: RefundCall, payment: PaymentResponse)
    requires ValidRequest(TrimmedRequest(c.req), c.full) && c.env.resolved.Refunding? && c.env.authorized
    requires CapturedPayment(c.payments, TrimmedRequest(c.req)) == Ok(payment)
    ensures CreatedBy(NewRecord(c, payment), c)
  {
    hide Trim, CapturedPayment, PaysFor, AnswerFits, AdapterAnswer, NormalizeRefundStatus, FirstNonBlankTrimmed;
    CapturedPays(c, payment);
    AnswerIsCompleted(Requested(TrimmedRequest(c.req), c.full, payment, c.env.resolved.provider, c.env), c, payment);
  }

  /** Both saves go under one new key, so the map gains exactly the completed record. */
  lemma RecordedIsOneRecord(refunds: Refunds, c: RefundCall, payment: PaymentResponse)
    requires ValidRequest(TrimmedRequest(c.req), c.full) && c.env.resolved.Refunding?
    requires CapturedPayment(c.payments, TrimmedRequest(c.req)) == Ok(payment) && c.env.authorized
    ensures var record := NewRecord(c, payment);
            && Recorded(refunds, c, payment) == refunds[Composite(record.merchantID, record.id) := record]
            && CreatedBy(record, c) && OneOfThree(record.status)
            && record.id == NewRefundID(c.env.hex)
            && record.merchantID == TrimmedRequest(c.req).merchantID
            && record.idempotencyKey == TrimmedRequest(c.req).idempotencyKey
  {
    hide CreatedBy, CapturedPayment, SaveRefundStep, FirstNonBlankTrimmed;
    NewRecordIsCreatedBy(c, payment);
    SavedTwice(refunds, Requested(TrimmedRequest(c.req), c.full, payment, c.env.resolved.provider, c.env),
               NewRecord(c, payment));
  }

  /** When a call is refused, and with which code: checked in this order. */
  lemma RefusedInOrder(before: Ledger, c: RefundCall, after: Ledger, answer: RefundAnswer)
    requires RefundStep(before, c, after, answer)
    ensures var found := FindByPayment(c.payments, Trim(c.req.merchantID), Trim(c.req.paymentID));
            if Trim(c.req.merchantID) == "" || Trim(c.req.paymentID) == "" || Trim(c.req.idempotencyKey) == ""
               || (!c.full && (c.req.amount.None? || c.req.amount.value.value <= 0.0))
            then answer == Refused("VALIDATION_ERROR")
            else if !c.env.authorized then answer == Refused("FORBIDDEN")
            else if AlreadyRecorded(before.refunds, Trim(c.req.merchantID), Trim(c.req.idempotencyKey))
            then answer.Answered?
            else if found.None? then answer == Refused("PAYMENT_NOT_FOUND")
            else if Unmarshal(found.value.payload).None? then answer == Refused("INVALID_STORED_PAYMENT")
            else if Unmarshal(found.value.payload).value.currentStatus != "CAPTURED"
            then answer == Refused("PAYMENT_NOT_CAPTURED")
            else if c.env.resolved.NotConfigured? then answer == Refused("ADAPTER_FACTORY_ERROR")
            else if c.env.resolved.NoRefunds? then answer == Refused("REFUND_NOT_SUPPORTED")
            else answer.Answered?
    ensures answer.Refused? ==> after == before
  {
    hide Trim, AlreadyRecorded, Recorded, NewRecord, Unmarshal;
  }

  /** A record and its completion go under one key; a normalised status is stored as it is. */
  lemma SavedTwice(refunds: Refunds, first: Refund, last: Refund)
    requires first.merchantID == last.merchantID && first.id == last.id && RefundAccepted(first)
             && OneOfThree(last.status)
    ensures SaveRefundStep(SaveRefundStep(refunds, first), last) == refunds[Composite(last.merchantID, last.id) := last]
  {
    NormalIsNormalized(last.status);
    assert last.(status := NormalizeRefundStatus(last.status)) == last;
  }

  lemma StatusesAreUpperText()
    ensures UpperText(PROCESS_REFUND) && UpperText(SUCCESS_REFUND) && UpperText(FAIL_REFUND)
  {
  }

  lemma NormalIsNormalized(status: string)
    requires OneOfThree(status)
    ensures NormalizeRefundStatus(status) == status
  {
    StatusesAreUpperText();
    UpperTextIsFixed(status);
    assert Trim(status) == status;
  }

  /** Normalising a status again changes nothing. */
  lemma NormalizedTwice(status: string)
    ensures NormalizeRefundStatus(NormalizeRefundStatus(status)) == NormalizeRefundStatus(status)
  {
    NormalIsNormalized(NormalizeRefundStatus(status));
  }

  lemma MoreCallsExplain(refunds: Refunds, key: string, calls: seq<RefundCall>, c: RefundCall)
    requires key in refunds && Explained(refunds, key, calls)
    ensures Explained(refunds, key, calls + [c])
  {
    var maker :| maker in calls && CreatedBy(refunds[key], maker);
    assert maker in calls + [c];
  }

  lemma AddedIsExplained(refunds: Refunds, calls: seq<RefundCall>, c: RefundCall, key: string, record: Refund)
    requires AllExplained(refunds, calls) && CreatedBy(record, c) && OneOfThree(record.status)
    requires key == Composite(record.merchantID, record.id)
    ensures AllExplained(refunds[key := record], calls + [c])
  {
    var after := refunds[key := record];
    forall k | k in after ensures Explained(after, k, calls + [c]) {
      if k == key {
        assert c in calls + [c];
      } else {
        MoreCallsExplain(refunds, k, calls, c);
        assert after[k] == refunds[k];
      }
    }
  }

  lemma AddedIsUnique(refunds: Refunds, key: string, record: Refund)
    requires OneRecordEach(refunds) && key !in refunds
    requires !AlreadyRecorded(refunds, record.merchantID, record.idempotencyKey)
    ensures OneRecordEach(refunds[key := record])
  {
    var after := refunds[key := record];
    forall m, k, a, b | RefundMatches(after, a, m, k) && RefundMatches(after, b, m, k) ensures a == b {
      assert a != key ==> RefundMatches(refunds, a, m, k);
      assert b != key ==> RefundMatches(refunds, b, m, k);
    }
  }

  lemma AddedIsOneCall(l: Ledger, key: string, record: Refund)
    requires OneCallEach(l) && key !in l.refunds
    requires !AlreadyRecorded(l.refunds, record.merchantID, record.idempotencyKey)
    ensures OneCallEach(Ledger(l.refunds[key := record], l.calls + [(record.merchantID, record.idempotencyKey)]))
  {
    var after := l.refunds[key := record];
    var calls := l.calls + [(record.merchantID, record.idempotencyKey)];
    assert RefundMatches(after, key, record.merchantID, record.idempotencyKey);
    forall m, k ensures multiset(calls)[(m, k)] <= if AlreadyRecorded(after, m, k) then 1 else 0 {
      if AlreadyRecorded(l.refunds, m, k) {
        var other :| RefundMatches(l.refunds, other, m, k);
        assert RefundMatches(after, other, m, k);
      }
      assert multiset(calls)[(m, k)]
        == multiset(l.calls)[(m, k)] + if (m, k) == (record.merchantID, record.idempotencyKey) then 1 else 0;
    }
  }

  lemma AddedRecordKeepsGood(l: Ledger, calls: seq<RefundCall>, c: RefundCall, record: Refund)
    requires GoodLedger(l, calls) && CreatedBy(record, c) && OneOfThree(record.status)
    requires Composite(record.merchantID, record.id) !in l.refunds
    requires !AlreadyRecorded(l.refunds, record.merchantID, record.idempotencyKey)
    ensures GoodLedger(Ledger(l.refunds[Composite(record.merchantID, record.id) := record],
                              l.calls + [(record.merchantID, record.idempotencyKey)]), calls + [c])
  {
    var key := Composite(record.merchantID, record.id);
    AddedIsExplained(l.refunds, calls, c, key, record);
    AddedIsUnique(l.refunds, key, record);
    AddedIsOneCall(l, key, record);
  }

  lemma MoreCallsKeepGood(l: Ledger, calls: seq<RefundCall>, c: RefundCall)
    requires GoodLedger(l, calls)
    ensures GoodLedger(l, calls + [c])
  {
    forall k | k in l.refunds ensures Explained(l.refunds, k, calls + [c]) {
      MoreCallsExplain(l.refunds, k, calls, c);
    }
  }

  lemma StepKeepsGood(before: Ledger, calls: seq<RefundCall>, c: RefundCall, after: Ledger, answer: RefundAnswer)
    requires GoodLedger(before, calls) && FreshIds(calls + [c]) && RefundStep(before, c, after, answer)
    ensures GoodLedger(after, calls + [c])
  {
    var r := TrimmedRequest(c.req);
    if after == before {
      MoreCallsKeepGood(before, calls, c);
    } else {
      var payment := CapturedPayment(c.payments, r).value;
      RecordedIsOneRecord(before.refunds, c, payment);
      NewIdIsNew(calls, c, before.refunds, r.merchantID);
      AddedRecordKeepsGood(before, calls, c, NewRecord(c, payment));
    }
  }

  /** In any sequential run with fresh refund ids, each (merchant, key) has at most one record and at
      most one adapter call, and every record is explained by a call for a payment CAPTURED then. */
  lemma {:induction false} RunsKeepGood(calls: seq<RefundCall>, ledgers: seq<Ledger>, answers: seq<RefundAnswer>,
                                        n: nat)
    requires RunOf(calls, ledgers, answers) && FreshIds(calls) && n <= |calls|
    ensures GoodLedger(ledgers[n], calls[..n])
  {
    if n > 0 {
      RunsKeepGood(calls, ledgers, answers, n - 1);
      assert calls[..n - 1] + [calls[n - 1]] == calls[..n];
      StepKeepsGood(ledgers[n - 1], calls[..n - 1], calls[n - 1], ledgers[n], answers[n - 1]);
    }
  }

  /** Once a call has been answered with a record, every later valid call of the same merchant and key
      returns that one record and changes nothing. */
  lemma LaterRefundsReplay(calls: seq<RefundCall>, ledgers: seq<Ledger>, answers: seq<RefundAnswer>, i: nat, j: nat)
    requires RunOf(calls, ledgers, answers) && FreshIds(calls) && i < j < |calls|
    requires var a, b := TrimmedRequest(calls[i].req), TrimmedRequest(calls[j].req);
             a.merchantID == b.merchantID && a.idempotencyKey == b.idempotencyKey
    requires answers[i].Answered?
    requires ValidRequest(TrimmedRequest(calls[j].req), calls[j].full) && calls[j].env.authorized
    ensures ledgers[j + 1] == ledgers[j] && answers[j] == answers[i]
  {
    RunsKeepGood(calls, ledgers, answers, j);
    var key := AnsweredIsRecorded(ledgers[i], calls[i], ledgers[i + 1], answers[i]);
    RecordStays(calls, ledgers, answers, i + 1, j, key);
    ReplayStep(ledgers[j], calls[j], ledgers[j + 1], answers[j], key);
  }

  lemma ReplayStep(l: Ledger, c: RefundCall, after: Ledger, answer: RefundAnswer, key: string)
    requires OneRecordEach(l.refunds) && RefundStep(l, c, after, answer)
    requires ValidRequest(TrimmedRequest(c.req), c.full) && c.env.authorized
    requires RefundMatches(l.refunds, key, TrimmedRequest(c.req).merchantID, TrimmedRequest(c.req).idempotencyKey)
    ensures after == l && answer == Answered(l.refunds[key])
  {
  }

  lemma AnsweredIsRecorded(before: Ledger, c: RefundCall, after: Ledger, answer: RefundAnswer) returns (key: string)
    requires RefundStep(before, c, after, answer) && answer.Answered?
    ensures RefundMatches(after.refunds, key, TrimmedRequest(c.req).merchantID, TrimmedRequest(c.req).idempotencyKey)
    ensures answer == Answered(after.refunds[key])
  {
    var r := TrimmedRequest(c.req);
    if AlreadyRecorded(before.refunds, r.merchantID, r.idempotencyKey) {
      key :| RefundMatches(before.refunds, key, r.merchantID, r.idempotencyKey)
              && answer == Answered(before.refunds[key]);
    } else {
      var payment := CapturedPayment(c.payments, r).value;
      RecordedIsOneRecord(before.refunds, c, payment);
      key := Composite(r.merchantID, NewRefundID(c.env.hex));
    }
  }

  /** A step either changes nothing or adds one record under a new key. */
  lemma StepAddsOne(before: Ledger, calls: seq<RefundCall>, c: RefundCall, after: Ledger, answer: RefundAnswer)
    returns (added: Option<string>)
    requires GoodLedger(before, calls) && FreshIds(calls + [c]) && RefundStep(before, c, after, answer)
    ensures added.None? ==> after == before
    ensures added.Some? ==> added.value !in before.refunds && added.value in after.refunds
                            && after.refunds == before.refunds[added.value := after.refunds[added.value]]
  {
    var r := TrimmedRequest(c.req);
    added := None;
    if ValidRequest(r, c.full) && c.env.authorized && !AlreadyRecorded(before.refunds, r.merchantID, r.idempotencyKey)
       && CapturedPayment(c.payments, r).Ok? && c.env.resolved.Refunding? {
      RecordedIsOneRecord(before.refunds, c, CapturedPayment(c.payments, r).value);
      NewIdIsNew(calls, c, before.refunds, r.merchantID);
      added := Some(Composite(r.merchantID, NewRefundID(c.env.hex)));
    }
  }

  /** A record is never rewritten by a later call. */
  lemma {:induction false} RecordStays(calls: seq<RefundCall>, ledgers: seq<Ledger>, answers: seq<RefundAnswer>,
                                       i: nat, j: nat, key: string)
    requires RunOf(calls, ledgers, answers) && FreshIds(calls) && i <= j <= |calls| && key in ledgers[i].refunds
    ensures key in ledgers[j].refunds && ledgers[j].refunds[key] == ledgers[i].refunds[key]
    decreases j - i
  {
    if i < j {
      RecordStays(calls, ledgers, answers, i, j - 1, key);
      RunsKeepGood(calls, ledgers, answers, j - 1);
      FreshPrefix(calls, j);
      var added := StepAddsOne(ledgers[j - 1], calls[..j - 1], calls[j - 1], ledgers[j], answers[j - 1]);
      KeptBesideAdded(ledgers[j - 1].refunds, ledgers[j].refunds, added, key);
    }
  }

  lemma KeptBesideAdded(before: Refunds, after: Refunds, added: Option<string>, key: string)
    requires key in before
    requires added.None? ==> after == before
    requires added.Some?
             ==> added.value !in before && added.value in after && after == before[added.value := after[added.value]]
    ensures key in after && after[key] == before[key]
  {
  }

  lemma FreshPrefix(calls: seq<RefundCall>, n: nat)
    requires FreshIds(calls) && 0 < n <= |calls|
    ensures FreshIds(calls[..n - 1] + [calls[n - 1]])
  {
    assert calls[..n - 1] + [calls[n - 1]] == calls[..n];
  }
}
