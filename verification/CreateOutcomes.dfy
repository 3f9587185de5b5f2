/** What CreatePayment answers, stores and sends, stage by stage (internal/orchestrator/simple). */
module CreateOutcomes {
  import opened Text
  import opened Payments
  import opened Store
  import opened Validator
  import opened Orchestrator
  import opened Lifecycle

  // ---------- When the adapter is reached ----------

  /** Every stage before the adapter went well, and the risk check did not block. */
  predicate ReachesAdapter(env: Env) {
    && env.checks.Passed?
    && env.fraud.Ok? && env.fraud.value.result != "BLOCKED"
    && env.route.Ok? && env.token.Ok? && env.resolved.Ok?
  }

  /** A call the store has no answer for yet. */
  predicate IsNew(t: Transactions, req: PaymentRequest) {
    && req.merchantID != "" && req.idempotencyKey != "" && req.paymentID != ""
    && Composite(req.merchantID, req.idempotencyKey) !in t.byIdempotency
  }

  lemma NoFailureIffReached(env: Env)
    ensures env.checks.Passed? && FirstFailure(env) == None <==> ReachesAdapter(env)
  {
  }

  lemma SentIffReached(req: PaymentRequest, env: Env)
    ensures Process(req, env).sent > 0 <==> ReachesAdapter(env)
  {
    hide FailureResponse, FinalResponse, SaveOf, SafeRequest, Normalized, AfterRejection, ResultOf, FirstFailure;
    NoFailureIffReached(env);
  }

  /** A call sends anything at all exactly when it is new and reaches the adapter. */
  lemma SendsExactlyWhenReached(t: Transactions, req: PaymentRequest, env: Env)
    ensures CreateStep(t, req, env).sends != [] <==> IsNew(t, req) && ReachesAdapter(env)
  {
    hide Process, Replayed, ReachesAdapter, Composite;
    SentIffReached(req, env);
  }

  // ---------- What the earlier stages save ----------

  /** The save carries the status, and an error with the code and the message. */
  predicate FailsWith(c: SaveCall, status: string, code: string, message: string) {
    c.status == status && c.payload.Response? && c.payload.response.currentStatus == status
    && c.payload.response.error == Some(GatewayError(code, Trim(message)))
  }

  lemma FailSaves(req: PaymentRequest, env: Env, status: string, code: string, message: string, service: string)
    requires Trimmed(code) && NoSmallLetters(code)
    ensures FailsWith(Fail(req, env, status, code, message, service).save, status, code, message)
  {
    hide Trim, Trimmed, Upper, NoSmallLetters, SanitizedCustomer, TokenPreview;
    CaseFixedPoints(code);
  }

  lemma CodesAreUpper()
    ensures forall code :: code in ["VALIDATION_ERROR", "ANTIFRAUD_ERROR", "ANTIFRAUD_DECLINED"]
                           ==> Trimmed(code) && NoSmallLetters(code)
  {
    assert Trimmed("VALIDATION_ERROR") && NoSmallLetters("VALIDATION_ERROR");
    assert Trimmed("ANTIFRAUD_ERROR") && NoSmallLetters("ANTIFRAUD_ERROR");
    assert Trimmed("ANTIFRAUD_DECLINED") && NoSmallLetters("ANTIFRAUD_DECLINED");
    hide Trimmed, NoSmallLetters;
  }

  lemma LaterCodesAreUpper()
    ensures forall code :: code in ["ROUTING_ERROR", "TOKENIZATION_ERROR", "ADAPTER_FACTORY_ERROR"]
                           ==> Trimmed(code) && NoSmallLetters(code)
  {
    assert Trimmed("ROUTING_ERROR") && NoSmallLetters("ROUTING_ERROR");
    assert Trimmed("TOKENIZATION_ERROR") && NoSmallLetters("TOKENIZATION_ERROR");
    assert Trimmed("ADAPTER_FACTORY_ERROR") && NoSmallLetters("ADAPTER_FACTORY_ERROR");
    hide Trimmed, NoSmallLetters;
  }

  /** The first stage that goes wrong decides what is saved, in this order. */
  predicate SavedByStage(c: SaveCall, env: Env) {
    match env.checks
    case Rejected(message) => FailsWith(c, FAILED, "VALIDATION_ERROR", message)
    case ContextDone(message) => FailsWith(c, FAILED, "VALIDATION_ERROR", message)
    case Passed =>
      if env.fraud.Err? then FailsWith(c, FAILED, "ANTIFRAUD_ERROR", env.fraud.message)
      else if env.fraud.value.result == "BLOCKED" then
        FailsWith(c, DECLINED, "ANTIFRAUD_DECLINED",
                  if env.fraud.value.reason == "" then "payment blocked by antifraud" else env.fraud.value.reason)
      else if env.route.Err? then FailsWith(c, FAILED, "ROUTING_ERROR", env.route.message)
      else if env.token.Err? then FailsWith(c, FAILED, "TOKENIZATION_ERROR", env.token.message)
      else if env.resolved.Err? then FailsWith(c, FAILED, "ADAPTER_FACTORY_ERROR", env.resolved.message)
      else true
  }

  lemma CheckedSavesByStage(req: PaymentRequest, valid: PaymentRequest, env: Env)
    requires env.checks.Passed? && !ReachesAdapter(env)
    ensures SavedByStage(ProcessChecked(req, valid, env).save, env)
  {
    hide Fail, FailsWith, SendAndAnswer, Trimmed, NoSmallLetters;
    CodesAreUpper();
    LaterCodesAreUpper();
    match FirstFailure(env)
    case Some(f) => FailSaves(valid, env, f.status, f.code, f.message, f.service);
    case None =>
  }

  lemma RejectedSaves(req: PaymentRequest, env: Env)
    requires !env.checks.Passed?
    ensures FailsWith(Process(req, env).save, FAILED, "VALIDATION_ERROR", RejectionOf(env.checks))
  {
    hide Fail, FailsWith, ProcessChecked, AfterRejection, Trimmed, NoSmallLetters;
    CodesAreUpper();
    FailSaves(AfterRejection(req, env.checks), env, FAILED, "VALIDATION_ERROR", RejectionOf(env.checks), "validator");
  }

  lemma PassedSave(req: PaymentRequest, env: Env)
    requires env.checks.Passed?
    ensures Process(req, env).save == ProcessChecked(req, SafeRequest(Normalized(req)), env).save
  {
    hide ProcessChecked, SafeRequest, Normalized;
  }

  lemma ProcessSavesByStage(req: PaymentRequest, env: Env)
    requires !ReachesAdapter(env)
    ensures SavedByStage(Process(req, env).save, env)
  {
    hide Process, ProcessChecked, ReachesAdapter, SafeRequest, Normalized, FailsWith;
    if env.checks.Passed? {
      PassedSave(req, env);
      CheckedSavesByStage(req, SafeRequest(Normalized(req)), env);
    } else {
      RejectedSaves(req, env);
    }
  }

  function RejectionOf(checks: Checks): string {
    match checks
    case Passed => ""
    case Rejected(message) => message
    case ContextDone(message) => message
  }

  /** Nothing is sent, the save is made, and the answer is the very response saved, unless the save is refused. */
  predicate AnsweredAsSaved(step: Created, t: Transactions, c: SaveCall) {
    && step.sends == [] && step.store == SaveStep(t, c) && c.payload.Response?
    && step.result == if Accepted(c) then Ok(c.payload.response) else Err(IDS_REQUIRED)
  }

  /** A new call that does not reach the adapter saves and answers the failure of its first bad stage. */
  lemma FailuresByStage(t: Transactions, req: PaymentRequest, env: Env) returns (c: SaveCall)
    requires IsNew(t, req) && !ReachesAdapter(env)
    ensures SavedByStage(c, env) && AnsweredAsSaved(CreateStep(t, req, env), t, c)
  {
    hide Process, CreateStep, ReachesAdapter, SavedByStage, AnsweredAsSaved, IsNew, SoundlyDone;
    c := Process(req, env).save;
    ProcessSavesByStage(req, env);
    SentIffReached(req, env);
    ProcessIsSound(req, env);
    FailedAsSaved(t, req, env, Process(req, env));
  }

  lemma FailedAsSaved(t: Transactions, req: PaymentRequest, env: Env, done: Processed)
    requires IsNew(t, req) && done == Process(req, env) && done.sent == 0 && SoundlyDone(done)
    ensures AnsweredAsSaved(CreateStep(t, req, env), t, done.save)
  {
    hide Process, SaveStep, Clean, ErrorFits, Composite, Replayed;
  }

  // ---------- What the adapter's answers lead to ----------

  /** The attempt ends the call: an answer with a status that is never retried. */
  predicate Final(env: Env, attempt: nat) {
    env.answers(attempt).Ok?
    && env.answers(attempt).value.status in {"CAPTURED", "PENDING", "CAPTURE_REQUESTED", "DECLINED", "CANCELLED"}
  }

  /** The first final attempt of three, or the third. */
  predicate IsLast(env: Env, last: nat) {
    last < 3 && (forall i: nat :: i < last ==> !Final(env, i)) && (Final(env, last) || last == 2)
  }

  lemma FinalIsSettled(env: Env, system: string, attempt: nat)
    ensures Settled(ResultOf(env.answers, system, attempt).status) <==> Final(env, attempt)
  {
  }

  lemma LastStops(env: Env, system: string, last: nat)
    requires IsLast(env, last)
    ensures StopsAt(env.answers, system, MAX_ATTEMPTS, 0) == last
  {
    hide ResultOf, Final, Settled;
    forall i: nat ensures Settled(ResultOf(env.answers, system, i).status) <==> Final(env, i) {
      FinalIsSettled(env, system, i);
    }
    assert last > 0 ==> StopsAt(env.answers, system, MAX_ATTEMPTS, 0) == StopsAt(env.answers, system, MAX_ATTEMPTS, 1);
    assert last > 1 ==> StopsAt(env.answers, system, MAX_ATTEMPTS, 1) == StopsAt(env.answers, system, MAX_ATTEMPTS, 2);
  }

  /** The error of an answer: none while the payment goes on or is captured; else its own code and message, or
      the default ones of its kind. */
  predicate AnswersWith(r: PaymentResponse, answer: Outcome<AdapterResult>) {
    match answer
    case Err(message) =>
      r.currentStatus == "FAILED"
      && r.error == Some(NewGatewayError("PROVIDER_UNAVAILABLE",
                                         if message == "" then "payment adapter returned failed status" else message))
    case Ok(a) =>
      if a.status in {"CAPTURED", "PENDING", "CAPTURE_REQUESTED"} then r.currentStatus == a.status && r.error == None
      else
        var refused := a.status in {"DECLINED", "CANCELLED"};
        && r.currentStatus == (if refused then a.status else "FAILED")
        && r.error == Some(NewGatewayError(
             if a.errorCode != "" then a.errorCode else if refused then "PAYMENT_DECLINED" else "ADAPTER_FAILED",
             if a.errorMessage != "" then a.errorMessage
             else if refused then "payment was declined by external payment provider"
             else "payment adapter returned failed status"))
  }

  lemma FinalAnswersWith(valid: PaymentRequest, env: Env, system: string, token: string, last: nat, now: Time)
    ensures AnswersWith(FinalResponse(valid, ResultOf(env.answers, system, last), token, last, now), env.answers(last))
  {
    hide Trim, Upper, SanitizedCustomer, TokenPreview, FormatOptionalTime, NewGatewayError;
  }

  /** The validated request in the answer: ids, amount, method, items and text as they were, the card masked twice
      and the CVV gone. */
  predicate CarriesRequest(r: PaymentResponse, valid: PaymentRequest) {
    && r.id == valid.paymentID && r.merchantID == valid.merchantID && r.idempotencyKey == valid.idempotencyKey
    && r.info.amount == valid.amount && r.info.methodType == valid.methodType && r.info.items == valid.items
    && r.info.digitalRuble == valid.digitalRuble && r.info.description == valid.description
    && r.info.createdAt == valid.createdAt
    && r.info.customer == valid.customer.(cvvCode := "",
                                          cardNumber := MaskCardNumber(MaskCardNumber(valid.customer.cardNumber)))
  }

  /** The adapter's answer in the response; its expiry in whole seconds; of the token a preview only. */
  predicate CarriesAnswer(d: Details, a: AdapterResult, system: string, token: string, retries: nat) {
    && d.externalTransactionID == a.externalTransactionID && d.providerStatus == a.providerStatus
    && d.paymentSystem == (if a.paymentSystem == "" then system else a.paymentSystem)
    && d.paymentURL == a.paymentURL && d.qrID == a.qrID && d.qrPayload == a.qrPayload
    && d.qrImageDataURI == a.qrImageDataURI && d.participantBank == a.participantBank
    && d.schemaVersion == a.schemaVersion && d.settlementHint == a.settlementHint && d.moneyMark == a.moneyMark
    && d.smartContractID == a.smartContractID && d.smartContractResult == a.smartContractResult
    && d.smartContractReason == a.smartContractReason && d.platformMessageID == a.platformMessageID
    && d.platformTransport == a.platformTransport && d.platformSignatureType == a.platformSignatureType
    && (d.qrExpiresAt == None <==> a.qrExpiresAt == ZERO_TIME)
    && (d.qrExpiresAt.Some? ==>
          d.qrExpiresAt.value % 1_000_000_000 == 0 && 0 <= a.qrExpiresAt - d.qrExpiresAt.value < 1_000_000_000)
    && d.token == "" && d.tokenPreview == TokenPreview(token) && d.retryCount == retries
  }

  lemma FinalCarriesRequest(valid: PaymentRequest, result: AdapterResult, token: string, retries: nat, now: Time)
    ensures CarriesRequest(FinalResponse(valid, result, token, retries, now), valid)
  {
    hide Trim, Upper, MaskCardNumber, TokenPreview, FormatOptionalTime, CallbackError, CallbackStatus;
  }

  lemma PreviewOfNothing()
    ensures TokenPreview("") == ""
  {
  }

  lemma FinalCarriesAnswer(valid: PaymentRequest, env: Env, system: string, token: string, last: nat, now: Time)
    requires env.answers(last).Ok?
    ensures CarriesAnswer(FinalResponse(valid, ResultOf(env.answers, system, last), token, last, now).details,
                          env.answers(last).value, system, token, last)
  {
    PreviewOfNothing();
    hide Trim, Upper, MaskCardNumber, SanitizedCustomer, TokenPreview, CallbackError, CallbackStatus;
  }

  lemma ReachedProcess(req: PaymentRequest, env: Env, last: nat)
    requires ReachesAdapter(env) && IsLast(env, last)
    ensures var valid := SafeRequest(Normalized(req));
            var r := FinalResponse(valid, ResultOf(env.answers, env.route.value.paymentSystem, last), env.token.value,
                                   last, env.respondedAt);
            && Process(req, env).response == r && Process(req, env).save == SaveOf(valid, r, env.savedAt)
            && Process(req, env).sent == last + 1
  {
    hide FinalResponse, SafeRequest, Normalized, SaveOf, ResultOf, StopsAt, IsLast, FirstFailure;
    NoFailureIffReached(env);
    LastStops(env, env.route.value.paymentSystem, last);
  }

  /** A new call that reaches the adapter sends up to and including its last attempt, each time under its trimmed
      merchant and key, and answers and saves by that attempt. */
  lemma AnsweredByAdapter(t: Transactions, req: PaymentRequest, env: Env, last: nat) returns (r: PaymentResponse)
    requires IsNew(t, req) && ReachesAdapter(env) && IsLast(env, last)
    ensures var step := CreateStep(t, req, env);
            && step.result == Ok(r)
            && step.sends == Repeat(Composite(Trim(req.merchantID), Trim(req.idempotencyKey)), last + 1)
            && step.store == SaveStep(t, SaveCall(r.merchantID, r.id, r.idempotencyKey, r.currentStatus, Response(r),
                                                  env.savedAt))
    ensures AnswersWith(r, env.answers(last)) && CarriesRequest(r, SafeRequest(Normalized(req)))
    ensures env.answers(last).Ok? ==>
              CarriesAnswer(r.details, env.answers(last).value, env.route.value.paymentSystem, env.token.value, last)
  {
    assert env.route.Ok? && env.token.Ok?;
    var valid, system, token := SafeRequest(Normalized(req)), env.route.value.paymentSystem, env.token.value;
    hide Process, ReachesAdapter, FinalResponse, SafeRequest, Normalized, ResultOf, SaveStep, IsLast, AnswersWith,
         CarriesRequest, CarriesAnswer, Clean, ErrorFits, Trim, Composite;
    r := FinalResponse(valid, ResultOf(env.answers, system, last), token, last, env.respondedAt);
    ReachedProcess(req, env, last);
    ProcessIsSound(req, env);
    FinalAnswersWith(valid, env, system, token, last, env.respondedAt);
    FinalCarriesRequest(valid, ResultOf(env.answers, system, last), token, last, env.respondedAt);
    if env.answers(last).Ok? {
      FinalCarriesAnswer(valid, env, system, token, last, env.respondedAt);
    }
    CarriedIds(r, req);
    SavedAsReturned(t, req, env, r, last);
  }

  lemma CarriedIds(r: PaymentResponse, req: PaymentRequest)
    requires CarriesRequest(r, SafeRequest(Normalized(req)))
    ensures r.merchantID == Trim(req.merchantID) && r.idempotencyKey == Trim(req.idempotencyKey)
            && r.id == Trim(req.paymentID)
  {
    hide Trim, NormalizedCustomer, NormalizedItems, Upper, MaskCardNumber;
  }

  lemma SavedAsReturned(t: Transactions, req: PaymentRequest, env: Env, r: PaymentResponse, last: nat)
    requires IsNew(t, req)
    requires var done := Process(req, env);
             SoundlyDone(done) && done.response == r && done.sent == last + 1 && done.save.updatedAt == env.savedAt
             && done.save.merchantID == Trim(req.merchantID) && done.save.idempotencyKey == Trim(req.idempotencyKey)
    ensures var step := CreateStep(t, req, env);
            && step.result == Ok(r)
            && step.sends == Repeat(Composite(Trim(req.merchantID), Trim(req.idempotencyKey)), last + 1)
            && step.store == SaveStep(t, SaveCall(r.merchantID, r.id, r.idempotencyKey, r.currentStatus, Response(r),
                                                  env.savedAt))
  {
    hide Process, SaveStep, Clean, ErrorFits, Trim, Composite;
  }

  /** A failure, too, carries the request as far as the stage got it, but for its digital rouble data. */
  lemma FailureCarriesRequest(req: PaymentRequest, env: Env, status: string, code: string, message: string,
                              service: string)
    ensures var r := Fail(req, env, status, code, message, service).response;
            && CarriesRequest(r, SafeRequest(req).(digitalRuble := NO_DIGITAL_RUBLE))
            && r.details == NO_DETAILS.(fraudCheckResult := if code == "ANTIFRAUD_DECLINED" then "BLOCKED"
                                                            else if service == "antifraud" then "ERROR" else "")
  {
    PreviewOfNothing();
    hide Trim, Upper, MaskCardNumber, TokenPreview;
  }

  /** A rejected request is answered under its ids as they came; its items are normalised, unless the call was
      cancelled before. */
  lemma RejectionCarriesRequest(req: PaymentRequest, env: Env)
    requires !env.checks.Passed?
    ensures var r := Process(req, env).response;
            && r.id == req.paymentID && r.merchantID == req.merchantID && r.idempotencyKey == req.idempotencyKey
            && r.info.amount == req.amount && r.info.description == req.description
            && r.info.items == if env.checks.ContextDone? then req.items else NormalizedItems(req.items)
  {
    FailureCarriesRequest(AfterRejection(req, env.checks), env, FAILED, "VALIDATION_ERROR", RejectionOf(env.checks),
                          "validator");
    hide FailureResponse, ProcessChecked, MaskCardNumber, NormalizedItems;
  }

  // ---------- Replays and statuses ----------

  /** A stored answer is replayed from its text: an empty text gives the request back in the stored status, `{}` an
      empty response, a broken one an error. */
  lemma ReplayTells(t: Transactions, req: PaymentRequest, env: Env, tx: StoredTx)
    requires req.merchantID != "" && req.idempotencyKey != "" && req.paymentID != ""
    requires FindByKey(t, req.merchantID, req.idempotencyKey) == Some(tx)
    ensures var step := CreateStep(t, req, env);
            && step.store == t && step.sends == [] && step.statuses == []
            && match tx.payload
               case NoText =>
                 && step.result.Ok? && step.result.value.currentStatus == tx.status && step.result.value.error == None
                 && CarriesRequest(step.result.value, req.(digitalRuble := NO_DIGITAL_RUBLE))
               case Malformed => step.result.Err?
               case EmptyObject => step.result == Ok(Sanitized(ZERO_RESPONSE))
               case Response(r) => step.result == Ok(Sanitized(r))
  {
    hide Process, Composite, MaskCardNumber, TokenPreview;
  }

  /** The statuses of a call that does not reach the adapter: CREATED, PENDING once the checks passed, and the
      failure. */
  lemma FailureTrace(req: PaymentRequest, env: Env)
    requires !ReachesAdapter(env)
    ensures var done, raw := Process(req, env), Composite(req.merchantID, req.paymentID);
            var trimmed := Composite(Trim(req.merchantID), Trim(req.paymentID));
            done.statuses
            == if env.checks.Passed? then
                 [StatusSet(raw, "CREATED")]
                 + ([StatusSet(trimmed, "PENDING")] + [StatusSet(trimmed, done.save.status)])
               else [StatusSet(raw, "CREATED")] + [StatusSet(raw, done.save.status)]
  {
    NoFailureIffReached(env);
    if env.checks.Passed? {
      PassedTrace(req, env);
    } else {
      RejectedTrace(req, env);
    }
  }

  lemma FailTrace(req: PaymentRequest, env: Env, status: string, code: string, message: string, service: string)
    ensures var done := Fail(req, env, status, code, message, service);
            done.statuses == [StatusSet(Composite(req.merchantID, req.paymentID), done.save.status)]
  {
    hide MaskCardNumber, TokenPreview, NewGatewayError, Composite;
  }

  lemma RejectedTrace(req: PaymentRequest, env: Env)
    requires !env.checks.Passed?
    ensures var done, raw := Process(req, env), Composite(req.merchantID, req.paymentID);
            done.statuses == [StatusSet(raw, "CREATED")] + [StatusSet(raw, done.save.status)]
  {
    hide Fail, ProcessChecked, NormalizedItems, Composite;
    FailTrace(AfterRejection(req, env.checks), env, FAILED, "VALIDATION_ERROR", RejectionOf(env.checks), "validator");
  }

  lemma PassedTrace(req: PaymentRequest, env: Env)
    requires env.checks.Passed? && FirstFailure(env).Some?
    ensures var done, raw := Process(req, env), Composite(req.merchantID, req.paymentID);
            var trimmed := Composite(Trim(req.merchantID), Trim(req.paymentID));
            done.statuses
            == [StatusSet(raw, "CREATED")] + ([StatusSet(trimmed, "PENDING")] + [StatusSet(trimmed, done.save.status)])
  {
    hide Fail, FirstFailure, SendAndAnswer, NormalizedCustomer, NormalizedItems, Upper, Trim, Composite;
    var f := FirstFailure(env).value;
    FailTrace(SafeRequest(Normalized(req)), env, f.status, f.code, f.message, f.service);
  }
}
