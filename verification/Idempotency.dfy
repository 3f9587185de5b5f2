/** Whole sequential runs of CreatePayment and the webhooks: one answer and at most three sends per (merchant, key). */
module Idempotency {
  import opened Text
  import opened Payments
  import opened Store
  import opened Validator
  import opened Orchestrator
  import opened Webhooks
  import opened Lifecycle

  // ---------- The retry loop's outcome ----------

  /** No attempt before the given one was settled. */
  ghost predicate Unsettled(answers: Answers, system: string, attempts: nat) {
    forall j: nat :: j < attempts ==> !Settled(ResultOf(answers, system, j).status)
  }

  /** The loop stops at a settled attempt after unsettled ones, unless all the allowed attempts were unsettled. */
  lemma LoopVerdict(answers: Answers, system: string, n: nat)
    requires n >= 1
    ensures var last := StopsAt(answers, system, n, 0);
            && last < n && Unsettled(answers, system, last)
            && (Settled(ResultOf(answers, system, last).status) <==> !Unsettled(answers, system, n))
  {
    LoopStops(answers, system, n, 0);
  }

  /** The response is FAILED exactly when every allowed attempt was unsettled; otherwise its status
      is the last attempt's, and all earlier attempts were unsettled. */
  lemma RetryOutcome(answers: Answers, system: string, n: nat, valid: PaymentRequest, token: string, now: Time)
    requires n >= 1
    ensures var last := StopsAt(answers, system, n, 0);
            var r := FinalResponse(valid, ResultOf(answers, system, last), token, last, now);
            && r.details.retryCount == last < n && Unsettled(answers, system, last)
            && (r.currentStatus == FAILED <==> Unsettled(answers, system, n))
            && (r.currentStatus != FAILED ==> r.currentStatus == ResultOf(answers, system, last).status)
  {
    LoopVerdict(answers, system, n);
    var last := StopsAt(answers, system, n, 0);
    FinalStatus(valid, ResultOf(answers, system, last), token, last, now);
  }

  lemma FinalStatus(valid: PaymentRequest, result: AdapterResult, token: string, retries: nat, now: Time)
    ensures var r := FinalResponse(valid, result, token, retries, now);
            && r.details.retryCount == retries
            && r.currentStatus == if Settled(result.status) then result.status else FAILED
    ensures Settled(result.status) ==> result.status != FAILED
  {
  }

  lemma SendTrace(req: PaymentRequest, valid: PaymentRequest, env: Env, system: string, token: string)
    ensures var done := SendAndAnswer(req, valid, env, system, token);
            && 1 <= done.sent <= MAX_ATTEMPTS
            && done.statuses == Repeat(StatusFor(req, CAPTURE_REQUESTED), done.sent)
               + [StatusFor(req, done.save.status)]
  {
    LoopStops(env.answers, system, MAX_ATTEMPTS, 0);
  }

  /** The statuses a call goes through when nothing ends it before the adapter: in-flight statuses
      go under the ids as they came, one CAPTURE_REQUESTED for each send, then the saved status. */
  lemma StatusTrace(req: PaymentRequest, env: Env)
    requires env.checks.Passed? && FirstFailure(env) == None
    ensures var done := Process(req, env);
            && 1 <= done.sent <= MAX_ATTEMPTS
            && done.statuses
               == [StatusSet(Composite(req.merchantID, req.paymentID), "CREATED")]
                  + ([StatusSet(Composite(Trim(req.merchantID), Trim(req.paymentID)), "PENDING")]
                     + (Repeat(StatusSet(Composite(req.merchantID, req.paymentID), "CAPTURE_REQUESTED"), done.sent)
                        + [StatusSet(Composite(req.merchantID, req.paymentID), done.save.status)]))
  {
    SendTrace(req, SafeRequest(Normalized(req)), env, env.route.value.paymentSystem, env.token.value);
  }

  // ---------- Where a call saves ----------

  function KeyOf(req: PaymentRequest): string {
    Composite(req.merchantID, req.idempotencyKey)
  }

  predicate TrimmedIds(req: PaymentRequest) {
    Trimmed(req.merchantID) && Trimmed(req.idempotencyKey)
  }

  lemma CheckedSavedUnder(req: PaymentRequest, valid: PaymentRequest, env: Env)
    ensures var done := ProcessChecked(req, valid, env);
            && done.save.merchantID == valid.merchantID && done.save.idempotencyKey == valid.idempotencyKey
            && done.save.payload != Malformed
            && done.sent <= MAX_ATTEMPTS && (done.sent > 0 <==> FirstFailure(env) == None)
  {
    if FirstFailure(env) == None {
      LoopStops(env.answers, env.route.value.paymentSystem, MAX_ATTEMPTS, 0);
    }
  }

  lemma FailSavedUnder(req: PaymentRequest, env: Env, status: string, code: string, message: string, service: string)
    ensures var done := Fail(req, env, status, code, message, service);
            && done.save.merchantID == req.merchantID && done.save.idempotencyKey == req.idempotencyKey
            && done.save.payload != Malformed && done.sent == 0
  {
  }

  /** The lookup goes by the ids as they came; the save goes by the trimmed ones once the checks passed. */
  lemma SavedUnder(req: PaymentRequest, env: Env)
    ensures var done := Process(req, env);
            && done.save.merchantID == (if env.checks.Passed? then Trim(req.merchantID) else req.merchantID)
            && done.save.idempotencyKey == (if env.checks.Passed? then Trim(req.idempotencyKey) else req.idempotencyKey)
            && done.save.payload != Malformed
            && done.sent <= MAX_ATTEMPTS && (done.sent > 0 <==> env.checks.Passed? && FirstFailure(env) == None)
  {
    match Validate(req, env.checks)
    case Ok(valid) => CheckedSavedUnder(req, valid, env);
    case Err(message) =>
      FailSavedUnder(AfterRejection(req, env.checks), env, FAILED, "VALIDATION_ERROR", message, "validator");
  }

  lemma OtherKeysStay(t: Transactions, c: SaveCall, key: string)
    requires key in t.byIdempotency && key != Composite(c.merchantID, c.idempotencyKey)
    ensures var after := SaveStep(t, c);
            key in after.byIdempotency && after.byIdempotency[key] == t.byIdempotency[key]
  {
  }

  /** A key that has an answer keeps exactly that record. */
  lemma StepKeepsAnswers(t: Transactions, req: PaymentRequest, env: Env, key: string)
    requires TrimmedIds(req) && key in t.byIdempotency
    ensures var after := CreateStep(t, req, env).store;
            key in after.byIdempotency && after.byIdempotency[key] == t.byIdempotency[key]
  {
    if HasIds(req) && FindByKey(t, req.merchantID, req.idempotencyKey).None? {
      SavedUnder(req, env);
      OtherKeysStay(t, Process(req, env).save, key);
    }
  }

  /** The stored payload of an answered key, replayed. */
  predicate AnsweredBy(tx: StoredTx, result: Outcome<PaymentResponse>) {
    tx.payload.Response? && result == Ok(Sanitized(tx.payload.response))
  }

  /** After any call its key has a record whose replay is the very result of the call. */
  lemma CallIsAnswered(t: Transactions, req: PaymentRequest, env: Env)
    requires GoodStore(t) && HasIds(req) && TrimmedIds(req)
    ensures var step := CreateStep(t, req, env);
            KeyOf(req) in step.store.byIdempotency && AnsweredBy(step.store.byIdempotency[KeyOf(req)], step.result)
  {
    hide CreateStep, TrimmedIds, AnsweredBy, GoodStore;
    if FindByKey(t, req.merchantID, req.idempotencyKey).None? {
      NewCallIsAnswered(t, req, env);
    } else {
      OldCallIsAnswered(t, req, env);
    }
  }

  lemma OldCallIsAnswered(t: Transactions, req: PaymentRequest, env: Env)
    requires GoodStore(t) && HasIds(req) && KeyOf(req) in t.byIdempotency
    ensures var step := CreateStep(t, req, env);
            step.store == t && AnsweredBy(t.byIdempotency[KeyOf(req)], step.result)
  {
    hide CreateStep;
    var tx := t.byIdempotency[KeyOf(req)];
    assert GoodTx(tx);
    ReplayOfAnswer(t, req, env, Ok(Sanitized(tx.payload.response)));
  }

  lemma NewCallIsAnswered(t: Transactions, req: PaymentRequest, env: Env)
    requires HasIds(req) && TrimmedIds(req) && FindByKey(t, req.merchantID, req.idempotencyKey).None?
    ensures var step := CreateStep(t, req, env);
            KeyOf(req) in step.store.byIdempotency && AnsweredBy(step.store.byIdempotency[KeyOf(req)], step.result)
  {
    hide Process, SoundlyDone, AnsweredBy, SavedTx, Composite;
    SavedUnder(req, env);
    ProcessIsSound(req, env);
    SavedAsAnswered(t, Process(req, env));
  }

  lemma SavedAsAnswered(t: Transactions, done: Processed)
    requires SoundlyDone(done) && Accepted(done.save)
    ensures AnsweredBy(SavedTx(t, done.save), Ok(done.response))
  {
    CleanIsStable(done.response);
  }

  // ---------- Runs ----------

  /** One whole call of a sequential run. */
  datatype Call =
    | Create(req: PaymentRequest, env: Env)
    | Yoo(p: YooPayment, now: Time)
    | Pay(c: PayCall, now: Time)
    | Scan(q: ScanRequest, now: Time, nanos: nat)

  function After(t: Transactions, call: Call): Transactions {
    match call
    case Create(req, env) => CreateStep(t, req, env).store
    case Yoo(p, now) => YooStep(t, p, now)
    case Pay(c, now) => PayStep(t, c, now)
    case Scan(q, now, nanos) => ScanStep(t, q, now, nanos)
  }

  /** Only CreatePayment sends. */
  function SendsIn(t: Transactions, call: Call): seq<string> {
    if call.Create? then CreateStep(t, call.req, call.env).sends else []
  }

  /** The save of a call, if it makes one. */
  function WritesOf(t: Transactions, call: Call): Option<SaveCall> {
    match call
    case Create(req, env) => CreateWrites(t, req, env)
    case Yoo(p, now) => YooWrites(t, p, now)
    case Pay(c, now) => PayWrites(t, c, now)
    case Scan(q, now, nanos) => ScanWrites(t, TrimmedScan(q), now, nanos)
  }

  lemma AfterSaves(t: Transactions, call: Call)
    ensures After(t, call) == Saved(t, WritesOf(t, call))
  {
    hide CreateStep, CreateWrites, YooWrites, PayWrites, ScanWrites, Saved;
    if call.Create? {
      CreateStepSaves(t, call.req, call.env);
    }
  }

  function RunFrom(t: Transactions, calls: seq<Call>): Transactions {
    if calls == [] then t else After(RunFrom(t, calls[..|calls| - 1]), calls[|calls| - 1])
  }

  function StoreAfter(calls: seq<Call>): Transactions {
    RunFrom(NO_TRANSACTIONS, calls)
  }

  function SendsAfter(calls: seq<Call>): seq<string> {
    if calls == [] then []
    else SendsAfter(calls[..|calls| - 1]) + SendsIn(StoreAfter(calls[..|calls| - 1]), calls[|calls| - 1])
  }

  lemma RunFromNext(t: Transactions, calls: seq<Call>, n: nat)
    requires n < |calls|
    ensures RunFrom(t, calls[..n + 1]) == After(RunFrom(t, calls[..n]), calls[n])
  {
    hide After;
    assert calls[..n + 1][..n] == calls[..n];
  }

  predicate Creates(calls: seq<Call>, i: nat) {
    i < |calls| && calls[i].Create? && HasIds(calls[i].req)
  }

  function ResultAt(calls: seq<Call>, i: nat): Outcome<PaymentResponse>
    requires Creates(calls, i)
  {
    CreateStep(StoreAfter(calls[..i]), calls[i].req, calls[i].env).result
  }

  predicate AllTrimmed(calls: seq<Call>) {
    forall i :: 0 <= i < |calls| && calls[i].Create? ==> TrimmedIds(calls[i].req)
  }

  lemma CallKeepsGood(t: Transactions, call: Call)
    requires GoodStore(t)
    ensures GoodStore(After(t, call))
  {
    match call
    case Create(req, env) => CreateKeepsGood(t, req, env);
    case Yoo(p, now) => YooKeepsGood(t, p, now);
    case Pay(c, now) => PayKeepsGood(t, c, now);
    case Scan(q, now, nanos) => ScanKeepsGood(t, q, now, nanos);
  }

  lemma CallWritesSoundly(t: Transactions, call: Call)
    ensures WritesOf(t, call).Some? ==> SoundSave(WritesOf(t, call).value)
  {
    hide CreateWrites, YooWrites, PayWrites, ScanWrites, SoundSave;
    match call
    case Create(req, env) => CreateWritesSoundly(t, req, env);
    case Yoo(p, now) => YooWritesSoundly(t, p, now);
    case Pay(c, now) => PayWritesSoundly(t, c, now);
    case Scan(q, now, nanos) => ScanWritesSoundly(t, TrimmedScan(q), now, nanos);
  }

  lemma {:induction false} RunsAreGood(calls: seq<Call>)
    ensures GoodStore(StoreAfter(calls))
  {
    if calls != [] {
      RunsAreGood(calls[..|calls| - 1]);
      CallKeepsGood(StoreAfter(calls[..|calls| - 1]), calls[|calls| - 1]);
    }
  }

  lemma StoreAfterNext(calls: seq<Call>, i: nat)
    requires i < |calls|
    ensures StoreAfter(calls[..i + 1]) == After(StoreAfter(calls[..i]), calls[i])
  {
    hide RunFrom, After;
    RunFromNext(NO_TRANSACTIONS, calls, i);
  }

  /** No save ever removes a key. */
  lemma SavedKeepsKeys(t: Transactions, c: Option<SaveCall>, key: string)
    requires key in t.byIdempotency
    ensures key in Saved(t, c).byIdempotency
  {
  }

  lemma CallKeepsKeys(t: Transactions, call: Call, key: string)
    requires key in t.byIdempotency
    ensures key in After(t, call).byIdempotency
  {
    hide After, WritesOf, Saved;
    AfterSaves(t, call);
    SavedKeepsKeys(t, WritesOf(t, call), key);
  }

  lemma {:induction false} KeysStay(calls: seq<Call>, i: nat, j: nat, key: string)
    requires i <= j <= |calls| && key in StoreAfter(calls[..i]).byIdempotency
    ensures key in StoreAfter(calls[..j]).byIdempotency
    decreases j - i
  {
    hide After, StoreAfter;
    if i < j {
      KeysStay(calls, i, j - 1, key);
      CallKeepsKeys(StoreAfter(calls[..j - 1]), calls[j - 1], key);
      StoreAfterNext(calls, j - 1);
    }
  }

  lemma {:induction false} AnswersStay(calls: seq<Call>, i: nat, j: nat, key: string)
    requires i <= j <= |calls| && AllTrimmed(calls) && key in StoreAfter(calls[..i]).byIdempotency
    requires forall n :: i <= n < j ==> calls[n].Create?
    ensures key in StoreAfter(calls[..j]).byIdempotency
    ensures StoreAfter(calls[..j]).byIdempotency[key] == StoreAfter(calls[..i]).byIdempotency[key]
    decreases j - i
  {
    hide After, StoreAfter, TrimmedIds, CreateStep;
    if i < j {
      AnswersStay(calls, i, j - 1, key);
      CreateKeepsAnswers(StoreAfter(calls[..j - 1]), calls[j - 1], key);
      StoreAfterNext(calls, j - 1);
    }
  }

  lemma CreateKeepsAnswers(t: Transactions, call: Call, key: string)
    requires call.Create? && TrimmedIds(call.req) && key in t.byIdempotency
    ensures key in After(t, call).byIdempotency && After(t, call).byIdempotency[key] == t.byIdempotency[key]
  {
    hide CreateStep, TrimmedIds;
    StepKeepsAnswers(t, call.req, call.env, key);
  }

  lemma AnsweredInRun(calls: seq<Call>, i: nat)
    requires Creates(calls, i) && AllTrimmed(calls)
    ensures var after := StoreAfter(calls[..i + 1]);
            && KeyOf(calls[i].req) in after.byIdempotency
            && AnsweredBy(after.byIdempotency[KeyOf(calls[i].req)], ResultAt(calls, i))
  {
    RunsAreGood(calls[..i]);
    CallIsAnswered(StoreAfter(calls[..i]), calls[i].req, calls[i].env);
    StoreAfterNext(calls, i);
  }

  /** In any run, a later call with the key of an earlier one returns what is stored under the key by
      then, whatever it asks for, sends nothing and leaves the store alone. */
  lemma LaterCallsSendNothing(calls: seq<Call>, i: nat, j: nat)
    requires i < j && Creates(calls, i) && Creates(calls, j) && AllTrimmed(calls)
    requires KeyOf(calls[i].req) == KeyOf(calls[j].req)
    ensures var before := StoreAfter(calls[..j]);
            && KeyOf(calls[j].req) in before.byIdempotency
            && before.byIdempotency[KeyOf(calls[j].req)].payload.Response?
            && ResultAt(calls, j) == Ok(before.byIdempotency[KeyOf(calls[j].req)].payload.response)
            && StoreAfter(calls[..j + 1]) == before && SendsIn(before, calls[j]) == []
  {
    AnsweredInRun(calls, i);
    KeysStay(calls, i + 1, j, KeyOf(calls[i].req));
    StoreAfterNext(calls, j);
    RunsAreGood(calls[..j]);
    GoodRecordIsReplayed(StoreAfter(calls[..j]), calls[j].req, calls[j].env);
  }

  lemma GoodRecordIsReplayed(t: Transactions, req: PaymentRequest, env: Env)
    requires GoodStore(t) && HasIds(req) && KeyOf(req) in t.byIdempotency
    ensures t.byIdempotency[KeyOf(req)].payload.Response?
    ensures CreateStep(t, req, env) == Created(Ok(t.byIdempotency[KeyOf(req)].payload.response), t, [], [])
  {
    var tx := t.byIdempotency[KeyOf(req)];
    assert GoodTx(tx);
    CleanIsStable(tx.payload.response);
    ReplayOfAnswer(t, req, env, Ok(Sanitized(tx.payload.response)));
  }

  /** With no webhook in between, that is the very result of the earlier call. */
  lemma LaterCallsReplay(calls: seq<Call>, i: nat, j: nat)
    requires i < j && Creates(calls, i) && Creates(calls, j) && AllTrimmed(calls)
    requires KeyOf(calls[i].req) == KeyOf(calls[j].req)
    requires forall n :: i < n < j ==> calls[n].Create?
    ensures ResultAt(calls, j) == ResultAt(calls, i)
    ensures StoreAfter(calls[..j + 1]) == StoreAfter(calls[..j])
    ensures SendsIn(StoreAfter(calls[..j]), calls[j]) == []
  {
    AnsweredInRun(calls, i);
    AnswersStay(calls, i + 1, j, KeyOf(calls[i].req));
    StoreAfterNext(calls, j);
    ReplayOfAnswer(StoreAfter(calls[..j]), calls[j].req, calls[j].env, ResultAt(calls, i));
  }

  lemma ReplayOfAnswer(t: Transactions, req: PaymentRequest, env: Env, result: Outcome<PaymentResponse>)
    requires HasIds(req) && KeyOf(req) in t.byIdempotency && AnsweredBy(t.byIdempotency[KeyOf(req)], result)
    ensures CreateStep(t, req, env) == Created(result, t, [], [])
  {
  }

  lemma {:induction false} RepeatCount(x: string, n: nat, y: string)
    ensures multiset(Repeat(x, n))[y] == if x == y then n else 0
  {
    if n > 0 {
      RepeatCount(x, n - 1, y);
      assert Repeat(x, n) == Repeat(x, n - 1) + [x];
    } else {
      assert Repeat(x, n) == [];
    }
  }

  /** Over any run of CreatePayment and the webhooks, each (merchant, key) causes at most three adapter sends. */
  lemma {:induction false} AtMostThreeSends(calls: seq<Call>, key: string)
    requires AllTrimmed(calls)
    ensures multiset(SendsAfter(calls))[key] <= MAX_ATTEMPTS
    ensures key !in StoreAfter(calls).byIdempotency ==> multiset(SendsAfter(calls))[key] == 0
  {
    if calls != [] {
      var n := |calls| - 1;
      AtMostThreeSends(calls[..n], key);
      CallSends(StoreAfter(calls[..n]), calls[n], key);
    }
  }

  lemma CallSends(t: Transactions, call: Call, key: string)
    requires call.Create? ==> TrimmedIds(call.req)
    ensures multiset(SendsIn(t, call))[key] <= MAX_ATTEMPTS
    ensures multiset(SendsIn(t, call))[key] > 0 ==> key !in t.byIdempotency && key in After(t, call).byIdempotency
    ensures key in t.byIdempotency ==> key in After(t, call).byIdempotency
  {
    if call.Create? {
      StepSends(t, call.req, call.env, key);
    }
    if key in t.byIdempotency {
      CallKeepsKeys(t, call, key);
    }
  }

  lemma StepSends(t: Transactions, req: PaymentRequest, env: Env, key: string)
    requires TrimmedIds(req)
    ensures var step := CreateStep(t, req, env);
            && multiset(step.sends)[key] <= MAX_ATTEMPTS
            && (multiset(step.sends)[key] > 0 ==> key !in t.byIdempotency && key in step.store.byIdempotency)
            && (key in t.byIdempotency ==> key in step.store.byIdempotency)
  {
    hide Process;
    if HasIds(req) && FindByKey(t, req.merchantID, req.idempotencyKey).None? {
      SavedUnder(req, env);
      RepeatCount(KeyOf(req), Process(req, env).sent, key);
    }
  }

  // ---------- Ids with spaces around them ----------

  /** After a first call that reached the adapter, the same request sends again
      exactly when its merchant id or its key has spaces around it. */
  lemma SendsAgainIffUntrimmed(t: Transactions, req: PaymentRequest, env: Env, again: Env)
    requires HasIds(req) && FindByKey(t, req.merchantID, req.idempotencyKey).None?
    requires env.checks.Passed? && FirstFailure(env) == None
    requires again.checks.Passed? && FirstFailure(again) == None
    ensures CreateStep(CreateStep(t, req, env).store, req, again).sends == [] <==> TrimmedIds(req)
  {
    hide Process, Composite;
    SavedUnder(req, env);
    SavedUnder(req, again);
    CompositeOfTrimmed(req.merchantID, req.idempotencyKey);
  }

  const PHONE := "+79991234567"

  /** A request that passes the validator as it is. */
  function PlainRequest(): PaymentRequest {
    PaymentRequest("merchant-1", "idem-key-1", "pay-1", CREATED, Money(100.0, "RUB"), METHOD_SBP,
                   NO_CUSTOMER.(phone := PHONE), [], NO_DIGITAL_RUBLE, 1_000_000_000, "one ticket")
  }

  /** The same with a space in front of its idempotency key. */
  function SpacedRequest(): PaymentRequest {
    PlainRequest().(idempotencyKey := " " + PlainRequest().idempotencyKey)
  }

  /** Everything else of the call goes well. */
  function PlainEnv(): Env {
    Env(Passed, Ok(FraudResult("PASSED", "")), Ok(Route("SBP", "sbp_adapter")), Ok("token"), Ok("sbp_adapter"),
        _ => Ok(NO_RESULT.(status := PENDING)), 1_000_000_000, 1_000_000_000)
  }

  lemma TrimAfterSpace(s: string)
    requires Trimmed(s) && s != ""
    ensures Trim(" " + s) == s && !Trimmed(" " + s)
  {
    var spaced := " " + s;
    assert spaced[0] == ' ' && spaced[1..] == s;
    assert TrimLeft(s) == s && TrimLeft(spaced) == TrimLeft(s);
    assert Trim(s) == s;
  }

  /** A space in front of the key does not show in the normalised request. */
  lemma SpaceIsNormalized(r: PaymentRequest)
    requires Trimmed(r.idempotencyKey) && r.idempotencyKey != ""
    ensures Normalized(r.(idempotencyKey := " " + r.idempotencyKey)) == Normalized(r)
  {
    hide Trim, Trimmed, Upper, NormalizedCustomer, NormalizedItems;
    TrimAfterSpace(r.idempotencyKey);
  }

  lemma PhoneIsNormal()
    ensures PhoneRu(PHONE) && Trimmed(PHONE)
  {
    hide WithoutNoise, Trim;
    assert PHONE[2..] == "9991234567";
  }

  lemma PhoneHasNoNoise()
    ensures WithoutNoise(PHONE) == PHONE
  {
    hide WithoutNoise;
    WithoutNoiseIsClean(PHONE);
  }

  lemma PlainCustomerIsNormal()
    ensures NormalizedCustomer(NO_CUSTOMER.(phone := PHONE)) == NO_CUSTOMER.(phone := PHONE)
  {
    assert Trim("") == "" && Lower("") == "" && DigitsOnly("") == "";
    hide WithoutNoise, Lower, DigitsOnly;
    PhoneIsNormal();
    PhoneHasNoNoise();
    assert Trim(PHONE) == PHONE;
  }

  lemma PlainIdsAreTrimmed()
    ensures var r := PlainRequest();
            && Trimmed(r.merchantID) && Trimmed(r.idempotencyKey) && Trimmed(r.paymentID) && Trimmed(r.currentStatus)
            && Trimmed(r.amount.currency) && Trimmed(r.methodType) && Trimmed(r.description)
            && Upper(r.amount.currency) == r.amount.currency
  {
    UpperTextIsFixed("RUB");
  }

  lemma PlainIsNormal()
    ensures Normalized(PlainRequest()) == PlainRequest()
  {
    PlainIdsAreTrimmed();
    PlainCustomerIsNormal();
    assert Trim("") == "";
    hide Trimmed, Upper, NormalizedCustomer, Trim;
  }

  lemma PlainMeetsLimits()
    ensures MeetsLimits(PlainRequest())
  {
  }

  lemma PlainPasses()
    ensures PassesWithPhone(PlainRequest())
  {
    hide PhoneRu, MeetsLimits, Trimmed;
    PlainMeetsLimits();
    PhoneIsNormal();
  }

  lemma SpacedKeyIsUntrimmed()
    ensures HasIds(SpacedRequest()) && !TrimmedIds(SpacedRequest())
  {
    hide Trim;
    assert SpacedRequest().idempotencyKey[0] == ' ';
  }

  /** It passes every check of the validator, and sent twice with the one key it is sent to the adapter twice. */
  lemma SpacedRequestIsSentTwice()
    ensures PassesWithPhone(Normalized(SpacedRequest()))
    ensures var once := CreateStep(NO_TRANSACTIONS, SpacedRequest(), PlainEnv()).store;
            CreateStep(once, SpacedRequest(), PlainEnv()).sends != []
  {
    hide PassesWithPhone, Normalized, CreateStep, Trim, Trimmed, TrimmedIds, HasIds;
    assert Trimmed(PlainRequest().idempotencyKey) by { PlainIdsAreTrimmed(); }
    SpaceIsNormalized(PlainRequest());
    PlainIsNormal();
    PlainPasses();
    SpacedKeyIsUntrimmed();
    SpacedIsSentAgain(SpacedRequest(), PlainEnv());
  }

  lemma SpacedIsSentAgain(req: PaymentRequest, env: Env)
    requires HasIds(req) && !TrimmedIds(req) && env.checks.Passed? && FirstFailure(env) == None
    ensures CreateStep(CreateStep(NO_TRANSACTIONS, req, env).store, req, env).sends != []
  {
    hide CreateStep, TrimmedIds, FirstFailure;
    SendsAgainIffUntrimmed(NO_TRANSACTIONS, req, env, env);
  }
}
