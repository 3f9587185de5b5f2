/** The payment lifecycle (internal/orchestrator/simple). The validator's checks, the risk verdict,
    the router, the tokeniser and the adapters are arbitrary oracles. */
module Orchestrator {
  import opened Text
  import opened Payments
  import opened Store
  import opened Validator

  datatype AdapterResult = AdapterResult(
    externalTransactionID: string, paymentSystem: string, status: string, providerStatus: string, errorCode: string,
    paymentURL: string, qrID: string, qrPayload: string, qrImageDataURI: string, qrExpiresAt: Time,
    participantBank: string, schemaVersion: string, settlementHint: string,
    moneyMark: string, smartContractID: string, smartContractResult: string, smartContractReason: string,
    platformMessageID: string, platformTransport: string, platformSignatureType: string, errorMessage: string)

  const NO_RESULT := AdapterResult("", "", "", "", "", "", "", "", "", ZERO_TIME, "", "", "", "", "", "", "", "", "",
                                   "", "")

  // ---------- Retry (retry.go) ----------

  const MAX_ATTEMPTS := 3

  /** The five statuses that are never retried. */
  predicate Settled(status: string) {
    status in [CAPTURED, PENDING, CAPTURE_REQUESTED, DECLINED, CANCELLED]
  }

  predicate ShouldRetry(maxAttempts: int, status: string, retryCount: int) {
    retryCount < maxAttempts - 1 && !Settled(status)
  }

  /** Milliseconds before the given retry. */
  function RetryAfter(attempt: int): int {
    (if attempt <= 0 then 1 else attempt) * 100
  }

  /** The adapter's answers, attempt by attempt. */
  type Answers = nat -> Outcome<AdapterResult>

  /** An adapter error becomes a failed result; a missing payment system is filled in. */
  function ResultOf(answers: Answers, system: string, attempt: nat): AdapterResult {
    match answers(attempt)
    case Err(message) =>
      NO_RESULT.(paymentSystem := system, status := FAILED, errorCode := "PROVIDER_UNAVAILABLE",
                 errorMessage := message)
    case Ok(result) => if result.paymentSystem == "" then result.(paymentSystem := system) else result
  }

  /** The index of the attempt the loop stops at, going on from attempt `i`. */
  function StopsAt(answers: Answers, system: string, maxAttempts: int, i: nat): (last: nat)
    ensures last >= i
    decreases maxAttempts - i
  {
    if ShouldRetry(maxAttempts, ResultOf(answers, system, i).status, i)
    then StopsAt(answers, system, maxAttempts, i + 1) else i
  }

  /** The total of the pauses before retries 1 to `retries`. */
  function TotalSleep(retries: nat): int {
    if retries == 0 then 0 else TotalSleep(retries - 1) + RetryAfter(retries)
  }

  /** The loop makes at most `maxAttempts` attempts (and always one); every attempt but the last
      was unsettled, and the last one is unsettled only if the attempts ran out. */
  lemma {:induction false} LoopStops(answers: Answers, system: string, maxAttempts: int, i: nat)
    requires i == 0 || i < maxAttempts
    requires forall j: nat :: j < i ==> !Settled(ResultOf(answers, system, j).status)
    ensures var last := StopsAt(answers, system, maxAttempts, i);
            && (last == 0 || last < maxAttempts)
            && (forall j: nat :: j < last ==> !Settled(ResultOf(answers, system, j).status))
            && (!Settled(ResultOf(answers, system, last).status) ==> last >= maxAttempts - 1)
    decreases maxAttempts - i
  {
    if ShouldRetry(maxAttempts, ResultOf(answers, system, i).status, i) {
      LoopStops(answers, system, maxAttempts, i + 1);
    }
  }

  lemma {:induction false} SleepIsQuadratic(retries: nat)
    ensures TotalSleep(retries) == 50 * retries * (retries + 1)
  {
    if retries > 0 { SleepIsQuadratic(retries - 1); }
  }

  /** Attempts and pauses are bounded by the limit alone. */
  lemma LoopIsBounded(answers: Answers, system: string, n: int)
    requires n >= 1
    ensures var last := StopsAt(answers, system, n, 0);
            last + 1 <= n && TotalSleep(last) <= 50 * n * (n - 1)
  {
    hide StopsAt, TotalSleep;
    LoopStops(answers, system, n, 0);
    var last := StopsAt(answers, system, n, 0);
    SleepIsQuadratic(last);
    Products(last, n);
  }

  lemma Products(last: nat, n: int)
    requires last + 1 <= n
    ensures 50 * last * (last + 1) <= 50 * n * (n - 1)
  {
    assert last * (last + 1) <= (n - 1) * (last + 1) <= (n - 1) * n;
  }

  // ---------- Callback (callback.go) ----------

  /** RFC 3339 keeps whole seconds; the zero time is written as an empty text. */
  function FormatOptionalTime(t: Time): Option<Time> {
    if t == ZERO_TIME then None else Some(t - t % 1_000_000_000)
  }

  function CallbackStatus(status: string): string {
    if Progressing(status) || status == DECLINED || status == CANCELLED then status else FAILED
  }

  function CallbackError(result: AdapterResult): Option<GatewayError> {
    var message, code := result.errorMessage, result.errorCode;
    if Progressing(result.status) then None
    else if result.status == DECLINED || result.status == CANCELLED then
      Some(NewGatewayError(if code == "" then "PAYMENT_DECLINED" else code,
                           if message == "" then "payment was declined by external payment provider" else message))
    else
      Some(NewGatewayError(if code == "" then "ADAPTER_FAILED" else code,
                           if message == "" then "payment adapter returned failed status" else message))
  }

  function HandleCallback(result: AdapterResult, req: PaymentRequest, token: string, now: Time): PaymentResponse {
    var status := CallbackStatus(result.status);
    PaymentResponse(
      req.paymentID, req.merchantID, req.idempotencyKey, status,
      PaymentInfo(req.amount, req.methodType, SanitizedCustomer(req.customer), req.items, req.digitalRuble,
                  req.description, req.createdAt, now),
      NO_DETAILS.(
        externalTransactionID := result.externalTransactionID, paymentSystem := result.paymentSystem,
        providerStatus := result.providerStatus, paymentURL := result.paymentURL,
        qrID := result.qrID, qrPayload := result.qrPayload, qrImageDataURI := result.qrImageDataURI,
        qrExpiresAt := FormatOptionalTime(result.qrExpiresAt),
        participantBank := result.participantBank, schemaVersion := result.schemaVersion,
        settlementHint := result.settlementHint, moneyMark := result.moneyMark,
        smartContractID := result.smartContractID, smartContractResult := result.smartContractResult,
        smartContractReason := result.smartContractReason, platformMessageID := result.platformMessageID,
        platformTransport := result.platformTransport, platformSignatureType := result.platformSignatureType,
        tokenPreview := TokenPreview(token), fraudCheckResult := if status == FAILED then "FAILED" else "PASSED"),
      CallbackError(result))
  }

  // ---------- State manager (state_manager.go) ----------

  datatype StatusSet = StatusSet(key: string, status: string)

  /** The map left by a sequence of updates. */
  function Latest(trace: seq<StatusSet>): map<string, string> {
    if trace == [] then map[]
    else Latest(trace[..|trace| - 1])[trace[|trace| - 1].key := trace[|trace| - 1].status]
  }

  /** The map holds for each key the status of its last update, and nothing for a key never updated. */
  lemma {:induction false} LatestIsLast(trace: seq<StatusSet>, key: string)
    ensures key !in Latest(trace) <==> forall i :: 0 <= i < |trace| ==> trace[i].key != key
    ensures key in Latest(trace) ==>
              exists i :: 0 <= i < |trace| && trace[i] == StatusSet(key, Latest(trace)[key])
                          && forall j :: i < j < |trace| ==> trace[j].key != key
  {
    if trace != [] {
      var n := |trace| - 1;
      LatestIsLast(trace[..n], key);
      assert forall i :: 0 <= i < n ==> trace[..n][i] == trace[i];
    }
  }

  class StateManager {
    var byPayment: map<string, string>
    ghost var trace: seq<StatusSet>

    ghost predicate Valid()
      reads this
    {
      byPayment == Latest(trace)
    }

    constructor ()
      ensures Valid() && trace == []
    {
      byPayment, trace := map[], [];
    }

    method SetStatus(merchantID: string, paymentID: string, status: string)
      requires Valid()
      modifies this
      ensures Valid() && trace == old(trace) + [StatusSet(Composite(merchantID, paymentID), status)]
    {
      var update := StatusSet(Composite(merchantID, paymentID), status);
      byPayment := byPayment[update.key := status];
      trace := trace + [update];
      assert trace[..|trace| - 1] == old(trace);
    }

    method GetStatus(merchantID: string, paymentID: string) returns (status: string)
      requires Valid()
      ensures var key := Composite(merchantID, paymentID);
              status == if key in Latest(trace) then Latest(trace)[key] else ""
    {
      var key := Composite(merchantID, paymentID);
      status := if key in byPayment then byPayment[key] else "";
    }
  }

  // ---------- CreatePayment: what one call does ----------

  datatype FraudResult = FraudResult(result: string, reason: string)
  datatype Route = Route(paymentSystem: string, adapterKey: string)

  /** Everything a call learns from outside: the checks, the oracles and the clock. */
  datatype Env = Env(
    checks: Checks, fraud: Outcome<FraudResult>, route: Outcome<Route>, token: Outcome<string>,
    resolved: Outcome<string>, answers: Answers, respondedAt: Time, savedAt: Time)

  /** What a call that is not a replay produces: the response, the save, the statuses it goes
      through and the number of adapter sends. */
  datatype Processed = Processed(response: PaymentResponse, save: SaveCall, statuses: seq<StatusSet>, sent: nat)

  function BuildErrorResponse(req: PaymentRequest, status: string, code: string, message: string, now: Time)
    : PaymentResponse
  {
    Sanitized(PaymentResponse(
      req.paymentID, req.merchantID, req.idempotencyKey, status,
      PaymentInfo(req.amount, req.methodType, SanitizedCustomer(req.customer), req.items, NO_DIGITAL_RUBLE,
                  req.description, req.createdAt, now),
      NO_DETAILS, Some(NewGatewayError(code, message))))
  }

  /** The save of a response: it is sanitised once more before it is encoded. */
  function SaveOf(req: PaymentRequest, response: PaymentResponse, at: Time): SaveCall {
    SaveCall(req.merchantID, req.paymentID, req.idempotencyKey, response.currentStatus, Response(Sanitized(response)),
             at)
  }

  function StatusFor(req: PaymentRequest, status: string): StatusSet {
    StatusSet(Composite(req.merchantID, req.paymentID), status)
  }

  function FailureResponse(req: PaymentRequest, status: string, code: string, message: string, service: string,
                           now: Time): PaymentResponse
  {
    var response := BuildErrorResponse(SafeRequest(req), status, code, message, now);
    response.(details := response.details.(
      fraudCheckResult := if code == "ANTIFRAUD_DECLINED" then "BLOCKED"
                          else if service == "antifraud" then "ERROR" else response.details.fraudCheckResult))
  }

  function Fail(req: PaymentRequest, env: Env, status: string, code: string, message: string, service: string)
    : Processed
  {
    var response := FailureResponse(req, status, code, message, service, env.respondedAt);
    Processed(response, SaveOf(req, response, env.savedAt), [StatusFor(req, status)], 0)
  }

  function Repeat<T>(x: T, n: nat): (s: seq<T>)
    ensures |s| == n && forall i :: 0 <= i < n ==> s[i] == x
  {
    seq(n, _ => x)
  }

  function FinalResponse(valid: PaymentRequest, result: AdapterResult, token: string, retries: nat, now: Time)
    : PaymentResponse
  {
    var response := Sanitized(HandleCallback(result, valid, token, now));
    response.(details := response.details.(retryCount := retries))
  }

  /** Past all the checks: send, retry, answer. The in-flight statuses go under the ids as they came. */
  function SendAndAnswer(req: PaymentRequest, valid: PaymentRequest, env: Env, system: string, token: string)
    : Processed
  {
    var last := StopsAt(env.answers, system, MAX_ATTEMPTS, 0);
    var response := FinalResponse(valid, ResultOf(env.answers, system, last), token, last, env.respondedAt);
    Processed(response, SaveOf(valid, response, env.savedAt),
              Repeat(StatusFor(req, CAPTURE_REQUESTED), last + 1) + [StatusFor(req, response.currentStatus)],
              last + 1)
  }

  datatype Failure = Failure(status: string, code: string, message: string, service: string)

  /** The first stage after validation that ends the call, if any: risk, route, token, adapter. */
  function FirstFailure(env: Env): (f: Option<Failure>)
    ensures f.Some? ==> f.value.status == FAILED || f.value.status == DECLINED
  {
    if env.fraud.Err? then Some(Failure(FAILED, "ANTIFRAUD_ERROR", env.fraud.message, "antifraud"))
    else if env.fraud.value.result == "BLOCKED" then
      Some(Failure(DECLINED, "ANTIFRAUD_DECLINED",
                   if env.fraud.value.reason == "" then "payment blocked by antifraud" else env.fraud.value.reason,
                   "antifraud"))
    else if env.route.Err? then Some(Failure(FAILED, "ROUTING_ERROR", env.route.message, "orchestrator"))
    else if env.token.Err? then Some(Failure(FAILED, "TOKENIZATION_ERROR", env.token.message, "tokenizer"))
    else if env.resolved.Err? then Some(Failure(FAILED, "ADAPTER_FACTORY_ERROR", env.resolved.message, "adapter"))
    else None
  }

  /** From the risk check on. */
  function ProcessChecked(req: PaymentRequest, valid: PaymentRequest, env: Env): Processed {
    match FirstFailure(env)
    case Some(f) => Fail(valid, env, f.status, f.code, f.message, f.service)
    case None => SendAndAnswer(req, valid, env, env.route.value.paymentSystem, env.token.value)
  }

  function Preceded(before: seq<StatusSet>, done: Processed): Processed {
    done.(statuses := before + done.statuses)
  }

  /** From validation on. */
  function ProcessReceived(req: PaymentRequest, env: Env): Processed {
    match Validate(req, env.checks)
    case Err(message) => Fail(AfterRejection(req, env.checks), env, FAILED, "VALIDATION_ERROR", message, "validator")
    case Ok(valid) => Preceded([StatusFor(valid, PENDING)], ProcessChecked(req, valid, env))
  }

  /** A call without a stored answer. */
  function Process(req: PaymentRequest, env: Env): Processed {
    Preceded([StatusFor(req, CREATED)], ProcessReceived(req, env))
  }

  lemma Regroup<T>(a: seq<T>, b: seq<T>, c: seq<T>)
    ensures (a + b) + c == a + (b + c)
  {
  }

  /** A failed save is reported only on the failure paths. */
  function ResultOfProcessed(done: Processed): Outcome<PaymentResponse> {
    if done.sent == 0 && !Accepted(done.save) then Err(IDS_REQUIRED) else Ok(done.response)
  }

  /** Sends are recorded under the validated merchant and key. */
  function SendsOf(done: Processed): seq<string> {
    Repeat(Composite(done.save.merchantID, done.save.idempotencyKey), done.sent)
  }

  /** The answer to a replay. */
  function Replayed(req: PaymentRequest, tx: StoredTx, now: Time): Outcome<PaymentResponse> {
    if tx.payload == NoText then
      Ok(Sanitized(PaymentResponse(
        req.paymentID, req.merchantID, req.idempotencyKey, tx.status,
        PaymentInfo(req.amount, req.methodType, SanitizedCustomer(WithoutCvv(req.customer)), req.items,
                    NO_DIGITAL_RUBLE, req.description, req.createdAt, now),
        NO_DETAILS, None)))
    else
      match Unmarshal(tx.payload)
      case None => Err("failed to unmarshal cached response")
      case Some(cached) => Ok(Sanitized(cached))
  }

  predicate HasIds(req: PaymentRequest) {
    req.merchantID != "" && req.idempotencyKey != "" && req.paymentID != ""
  }

  datatype Created = Created(
    result: Outcome<PaymentResponse>, store: Transactions, statuses: seq<StatusSet>, sends: seq<string>)

  /** One whole call on a store. */
  function CreateStep(t: Transactions, req: PaymentRequest, env: Env): Created {
    if !HasIds(req) then Created(Err("merchant_id, idempotency_key and payment_id are required"), t, [], [])
    else
      match FindByKey(t, req.merchantID, req.idempotencyKey)
      case Some(tx) => Created(Replayed(req, tx, env.respondedAt), t, [], [])
      case None =>
        var done := Process(req, env);
        Created(ResultOfProcessed(done), SaveStep(t, done.save), done.statuses, SendsOf(done))
  }

  // ---------- The orchestrator ----------

  class SimpleOrchestrator {
    const store: InMemoryTransactionStore
    const states: StateManager
    ghost var sends: seq<string>

    constructor (store: InMemoryTransactionStore)
      ensures this.store == store && fresh(states) && states.Valid() && states.trace == [] && sends == []
    {
      this.store := store;
      states := new StateManager();
      sends := [];
    }

    method FailAndSave(req: PaymentRequest, env: Env, status: string, code: string, message: string, service: string)
      returns (result: Outcome<PaymentResponse>, ghost done: Processed)
      requires states.Valid()
      modifies states, store`byIdempotency, store`byPaymentID
      ensures states.Valid() && done == Fail(req, env, status, code, message, service)
      ensures result == ResultOfProcessed(done) && store.State() == SaveStep(old(store.State()), done.save)
      ensures states.trace == old(states.trace) + done.statuses && SendsOf(done) == []
    {
      done := Fail(req, env, status, code, message, service);
      var safe := SafeRequest(req);
      states.SetStatus(safe.merchantID, safe.paymentID, status);
      var response := BuildErrorResponse(safe, status, code, message, env.respondedAt);
      if code == "ANTIFRAUD_DECLINED" {
        response := response.(details := response.details.(fraudCheckResult := "BLOCKED"));
      } else if service == "antifraud" {
        response := response.(details := response.details.(fraudCheckResult := "ERROR"));
      }
      var err := store.Save(safe.merchantID, safe.paymentID, safe.idempotencyKey, status, Response(Sanitized(response)),
                            env.savedAt);
      result := if err == None then Ok(response) else Err(IDS_REQUIRED);
    }

    /** The bounded retry loop; pauses are only added up. */
    method SendWithRetries(req: PaymentRequest, valid: PaymentRequest, env: Env, system: string)
      returns (result: AdapterResult, retryCount: nat, slept: int)
      requires states.Valid()
      modifies states, this`sends
      ensures states.Valid()
      ensures retryCount == StopsAt(env.answers, system, MAX_ATTEMPTS, 0)
      ensures result == ResultOf(env.answers, system, retryCount) && slept == TotalSleep(retryCount)
      ensures states.trace == old(states.trace) + Repeat(StatusFor(req, CAPTURE_REQUESTED), retryCount + 1)
      ensures sends == old(sends) + Repeat(Composite(valid.merchantID, valid.idempotencyKey), retryCount + 1)
    {
      hide ResultOf, Latest;
      retryCount, slept := 0, 0;
      ghost var key := Composite(valid.merchantID, valid.idempotencyKey);
      while true
        invariant states.Valid() && retryCount <= MAX_ATTEMPTS - 1
        invariant slept == TotalSleep(retryCount)
        invariant StopsAt(env.answers, system, MAX_ATTEMPTS, retryCount)
                  == StopsAt(env.answers, system, MAX_ATTEMPTS, 0)
        invariant states.trace == old(states.trace) + Repeat(StatusFor(req, CAPTURE_REQUESTED), retryCount)
        invariant sends == old(sends) + Repeat(key, retryCount)
        decreases MAX_ATTEMPTS - retryCount
      {
        states.SetStatus(req.merchantID, req.paymentID, CAPTURE_REQUESTED);
        sends := sends + [key];
        result := SendOnce(env, system, retryCount);
        if result.status == CAPTURED || !ShouldRetry(MAX_ATTEMPTS, result.status, retryCount) {
          break;
        }
        retryCount := retryCount + 1;
        slept := slept + RetryAfter(retryCount);
      }
    }

    /** One attempt: an error becomes a failed result. */
    method SendOnce(env: Env, system: string, attempt: nat) returns (result: AdapterResult)
      ensures result == ResultOf(env.answers, system, attempt)
    {
      var answer := env.answers(attempt);
      match answer {
        case Ok(r) => result := r;
        case Err(message) =>
          result := NO_RESULT.(paymentSystem := system, status := FAILED, errorCode := "PROVIDER_UNAVAILABLE",
                               errorMessage := message);
      }
      if result.paymentSystem == "" {
        result := result.(paymentSystem := system);
      }
    }

    method FinishResponse(valid: PaymentRequest, result: AdapterResult, token: string, retryCount: nat, now: Time)
      returns (response: PaymentResponse)
      ensures response == FinalResponse(valid, result, token, retryCount, now)
    {
      response := Sanitized(HandleCallback(result, valid, token, now));
      response := response.(details := response.details.(retryCount := retryCount));
    }

    /** The end of a call that passed every check. */
    method Complete(req: PaymentRequest, valid: PaymentRequest, env: Env, system: string, token: string)
      returns (response: PaymentResponse, ghost done: Processed)
      requires states.Valid()
      modifies states, this`sends, store`byIdempotency, store`byPaymentID
      ensures states.Valid() && done == SendAndAnswer(req, valid, env, system, token)
      ensures ResultOfProcessed(done) == Ok(response) && store.State() == SaveStep(old(store.State()), done.save)
      ensures states.trace == old(states.trace) + done.statuses && sends == old(sends) + SendsOf(done)
    {
      hide FinalResponse, ResultOf, StopsAt, TotalSleep, Latest, SaveStep;
      done := SendAndAnswer(req, valid, env, system, token);
      ghost var before := states.trace;
      var adapterResult, retryCount, slept := SendWithRetries(req, valid, env, system);
      response := FinishResponse(valid, adapterResult, token, retryCount, env.respondedAt);
      states.SetStatus(req.merchantID, req.paymentID, response.currentStatus);
      Regroup(before, Repeat(StatusFor(req, CAPTURE_REQUESTED), retryCount + 1),
              [StatusFor(req, response.currentStatus)]);
      var _ := store.Save(valid.merchantID, valid.paymentID, valid.idempotencyKey, response.currentStatus,
                          Response(Sanitized(response)), env.savedAt);
    }

    /** A validated call: risk, route, token and adapter, each of which may end it. */
    method ProcessValid(req: PaymentRequest, valid: PaymentRequest, env: Env)
      returns (result: Outcome<PaymentResponse>, ghost done: Processed)
      requires states.Valid()
      modifies states, this`sends, store`byIdempotency, store`byPaymentID
      ensures states.Valid() && done == ProcessChecked(req, valid, env)
      ensures result == ResultOfProcessed(done) && store.State() == SaveStep(old(store.State()), done.save)
      ensures states.trace == old(states.trace) + done.statuses && sends == old(sends) + SendsOf(done)
    {
      var failure := FindFailure(env);
      if failure.Some? {
        var f := failure.value;
        result, done := FailAndSave(valid, env, f.status, f.code, f.message, f.service);
        assert sends == old(sends) + [];
      } else {
        var response;
        response, done := Complete(req, valid, env, env.route.value.paymentSystem, env.token.value);
        result := Ok(response);
      }
    }

    /** Risk, route, token, adapter, in this order. */
    method FindFailure(env: Env) returns (failure: Option<Failure>)
      ensures failure == FirstFailure(env)
    {
      if env.fraud.Err? {
        return Some(Failure(FAILED, "ANTIFRAUD_ERROR", env.fraud.message, "antifraud"));
      }
      if env.fraud.value.result == "BLOCKED" {
        var message := env.fraud.value.reason;
        if message == "" {
          message := "payment blocked by antifraud";
        }
        return Some(Failure(DECLINED, "ANTIFRAUD_DECLINED", message, "antifraud"));
      }
      if env.route.Err? {
        return Some(Failure(FAILED, "ROUTING_ERROR", env.route.message, "orchestrator"));
      }
      if env.token.Err? {
        return Some(Failure(FAILED, "TOKENIZATION_ERROR", env.token.message, "tokenizer"));
      }
      if env.resolved.Err? {
        return Some(Failure(FAILED, "ADAPTER_FACTORY_ERROR", env.resolved.message, "adapter"));
      }
      return None;
    }

    /** From validation on. */
    method ProcessValidated(req: PaymentRequest, env: Env)
      returns (result: Outcome<PaymentResponse>, ghost done: Processed)
      requires states.Valid()
      modifies states, this`sends, store`byIdempotency, store`byPaymentID
      ensures states.Valid() && done == ProcessReceived(req, env)
      ensures result == ResultOfProcessed(done) && store.State() == SaveStep(old(store.State()), done.save)
      ensures states.trace == old(states.trace) + done.statuses && sends == old(sends) + SendsOf(done)
    {
      match Validate(req, env.checks) {
        case Err(message) =>
          var rejected := AfterRejection(req, env.checks);
          result, done := FailAndSave(rejected, env, FAILED, "VALIDATION_ERROR", message, "validator");
        case Ok(valid) =>
          result, done := ProcessPending(req, valid, env);
      }
    }

    method ProcessPending(req: PaymentRequest, valid: PaymentRequest, env: Env)
      returns (result: Outcome<PaymentResponse>, ghost done: Processed)
      requires states.Valid()
      modifies states, this`sends, store`byIdempotency, store`byPaymentID
      ensures states.Valid() && done == Preceded([StatusFor(valid, PENDING)], ProcessChecked(req, valid, env))
      ensures result == ResultOfProcessed(done) && store.State() == SaveStep(old(store.State()), done.save)
      ensures states.trace == old(states.trace) + done.statuses && sends == old(sends) + SendsOf(done)
    {
      ghost var before := states.trace;
      states.SetStatus(valid.merchantID, valid.paymentID, PENDING);
      result, done := ProcessValid(req, valid, env);
      Regroup(before, [StatusFor(valid, PENDING)], done.statuses);
      done := Preceded([StatusFor(valid, PENDING)], done);
    }

    /** A call without a stored answer. */
    method ProcessNew(req: PaymentRequest, env: Env) returns (result: Outcome<PaymentResponse>, ghost done: Processed)
      requires states.Valid()
      modifies states, this`sends, store`byIdempotency, store`byPaymentID
      ensures states.Valid() && done == Process(req, env)
      ensures result == ResultOfProcessed(done) && store.State() == SaveStep(old(store.State()), done.save)
      ensures states.trace == old(states.trace) + done.statuses && sends == old(sends) + SendsOf(done)
    {
      ghost var before := states.trace;
      states.SetStatus(req.merchantID, req.paymentID, CREATED);
      result, done := ProcessValidated(req, env);
      Regroup(before, [StatusFor(req, CREATED)], done.statuses);
      done := Preceded([StatusFor(req, CREATED)], done);
    }

    method CreatePayment(req: PaymentRequest, env: Env) returns (result: Outcome<PaymentResponse>)
      requires states.Valid()
      modifies states, this`sends, store`byIdempotency, store`byPaymentID
      ensures states.Valid()
      ensures var step := CreateStep(old(store.State()), req, env);
              && result == step.result
              && store.State() == step.store
              && states.trace == old(states.trace) + step.statuses
              && sends == old(sends) + step.sends
    {
      if req.merchantID == "" || req.idempotencyKey == "" || req.paymentID == "" {
        return Err("merchant_id, idempotency_key and payment_id are required");
      }
      var found := store.GetByIdempotencyKey(req.merchantID, req.idempotencyKey);
      if found.value.Some? {
        return Replayed(req, found.value.value, env.respondedAt);
      }
      ghost var done;
      result, done := ProcessNew(req, env);
    }
  }
}
