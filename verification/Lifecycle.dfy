/** What every stored transaction keeps, over any interleaving of the reads and writes of
    CreatePayment and the three webhook handlers. */
module Lifecycle {
  import opened Text
  import opened Payments
  import opened Store
  import opened Validator
  import opened Orchestrator
  import opened Webhooks

  // ---------- The invariant ----------

  /** The status is one a caller may see (never CREATED), and an error object comes with exactly the
      unsuccessful ones. */
  predicate ErrorFits(r: PaymentResponse) {
    (Progressing(r.currentStatus) && r.error == None) || (Unsuccessful(r.currentStatus) && r.error.Some?)
  }

  /** One stored transaction: its columns repeat its payload, which is sound and clean. */
  predicate GoodTx(tx: StoredTx) {
    tx.payload.Response? && tx.status == tx.payload.response.currentStatus
    && tx.idempotencyKey == tx.payload.response.idempotencyKey
    && ErrorFits(tx.payload.response) && Clean(tx.payload.response)
  }

  /** Both indexes hold good transactions, under the keys that their payloads' own ids spell. */
  predicate GoodStore(t: Transactions) {
    && (forall key :: key in t.byIdempotency ==> GoodAt(t.byIdempotency[key], key, t.byIdempotency[key].idempotencyKey))
    && (forall key :: key in t.byPaymentID ==>
          GoodTx(t.byPaymentID[key]) && GoodAt(t.byPaymentID[key], key, t.byPaymentID[key].payload.response.id))
  }

  predicate GoodAt(tx: StoredTx, key: string, id: string) {
    GoodTx(tx) && key == Composite(tx.payload.response.merchantID, id)
  }

  /** A save whose columns repeat a sound response. */
  predicate SoundSave(c: SaveCall) {
    c.payload.Response? &&
    var r := c.payload.response;
    && c.merchantID == r.merchantID && c.paymentID == r.id && c.idempotencyKey == r.idempotencyKey
    && c.status == r.currentStatus && ErrorFits(r) && Clean(Sanitized(r))
  }

  lemma SoundSaveKeepsGood(t: Transactions, c: SaveCall)
    requires GoodStore(t) && SoundSave(c)
    ensures GoodStore(SaveStep(t, c))
  {
    if Accepted(c) {
      var tx := SavedTx(t, c);
      assert GoodTx(tx);
    }
  }

  // ---------- What each writer saves ----------

  lemma CallbackIsSound(result: AdapterResult, valid: PaymentRequest, token: string, retries: nat, now: Time, at: Time)
    ensures var r := FinalResponse(valid, result, token, retries, now);
            SoundSave(SaveOf(valid, r, at)) && Clean(r)
  {
    var r := FinalResponse(valid, result, token, retries, now);
    FinalIsClean(valid, result, token, retries, now);
    CleanIsStable(r);
  }

  lemma FinalIsClean(valid: PaymentRequest, result: AdapterResult, token: string, retries: nat, now: Time)
    ensures Clean(FinalResponse(valid, result, token, retries, now))
  {
    MaskFixedPoints(valid.customer.cardNumber);
  }

  lemma FailureIsSound(req: PaymentRequest, status: string, code: string, message: string, service: string, now: Time,
                       at: Time)
    requires status == FAILED || status == DECLINED
    ensures var r := FailureResponse(req, status, code, message, service, now);
            SoundSave(SaveOf(req, r, at)) && Clean(r)
  {
    MaskFixedPoints(req.customer.cardNumber);
    CleanIsStable(FailureResponse(req, status, code, message, service, now));
  }

  /** The answer is clean, is saved as it is, and is saved soundly. */
  predicate SoundlyDone(done: Processed) {
    SoundSave(done.save) && Clean(done.response) && done.save.payload == Response(done.response)
  }

  lemma FailIsSound(req: PaymentRequest, env: Env, status: string, code: string, message: string, service: string)
    requires status == FAILED || status == DECLINED
    ensures SoundlyDone(Fail(req, env, status, code, message, service))
  {
    FailureIsSound(req, status, code, message, service, env.respondedAt, env.savedAt);
    CleanIsStable(FailureResponse(req, status, code, message, service, env.respondedAt));
  }

  lemma SendIsSound(req: PaymentRequest, valid: PaymentRequest, env: Env, system: string, token: string)
    ensures SoundlyDone(SendAndAnswer(req, valid, env, system, token))
  {
    var last := StopsAt(env.answers, system, MAX_ATTEMPTS, 0);
    CallbackIsSound(ResultOf(env.answers, system, last), valid, token, last, env.respondedAt, env.savedAt);
    CleanIsStable(FinalResponse(valid, ResultOf(env.answers, system, last), token, last, env.respondedAt));
  }

  lemma CheckedIsSound(req: PaymentRequest, valid: PaymentRequest, env: Env)
    ensures SoundlyDone(ProcessChecked(req, valid, env))
  {
    match FirstFailure(env)
    case Some(f) => FailIsSound(valid, env, f.status, f.code, f.message, f.service);
    case None => SendIsSound(req, valid, env, env.route.value.paymentSystem, env.token.value);
  }

  /** So is every answer CreatePayment makes up. */
  lemma ProcessIsSound(req: PaymentRequest, env: Env)
    ensures SoundlyDone(Process(req, env))
  {
    match Validate(req, env.checks)
    case Err(message) =>
      FailIsSound(AfterRejection(req, env.checks), env, FAILED, "VALIDATION_ERROR", message, "validator");
    case Ok(valid) => CheckedIsSound(req, valid, env);
  }

  lemma YooIsSound(loaded: PaymentResponse, p: YooPayment, now: Time)
    ensures SoundSave(YooSave(loaded, p, now))
  {
    MaskFixedPoints(loaded.info.customer.cardNumber);
  }

  lemma PayIsSound(loaded: PaymentResponse, c: PayCall, now: Time)
    ensures SoundSave(PaySave(loaded, c, now))
  {
    MaskFixedPoints(loaded.info.customer.cardNumber);
  }

  predicate SoundDecision(d: Decision) {
    (d.status == CAPTURED && d.errCode == "") || (Unsuccessful(d.status) && d.errCode != "")
  }

  lemma DecidedIsSound(r: PaymentResponse, d: Decision, now: Time)
    requires SoundDecision(d)
    ensures SoundSave(SaveResponse(Decided(r, d, now), now))
  {
    MaskFixedPoints(r.info.customer.cardNumber);
  }

  lemma FirstIsSound(r: PaymentResponse, q: ScanRequest, now: Time)
    ensures SoundDecision(FirstDecision(r, q, now))
  {
  }

  lemma ScanIsSound(r: PaymentResponse, q: ScanRequest, now: Time, nanos: nat)
    ensures SoundSave(ScanSave(r, q, now, nanos))
  {
    hide Decided, ContractOutcome, AfterContract, FirstDecision, SoundSave;
    var first := FirstDecision(r, q, now);
    FirstIsSound(r, q, now);
    if AsksContract(first) {
      var outcome := ContractOutcome(r, q.payerWalletID, nanos);
      ContractIsSound(outcome);
      DecidedIsSound(AfterContract(r, outcome), ContractDecision(outcome), now);
    } else {
      DecidedIsSound(r, first, now);
    }
  }

  lemma ContractIsSound(outcome: Outcome<DigitalRuble.CheckResult>)
    ensures SoundDecision(ContractDecision(outcome))
  {
  }

  // ---------- The interleaving ----------

  /** The pending handlers, each between its read and its write, with the save that its read led to. */
  datatype World = World(store: Transactions, pending: map<nat, SaveCall>)

  datatype Action =
    | ReadForCreate(id: nat, req: PaymentRequest, env: Env)
    | ReadForYoo(id: nat, p: YooPayment, now: Time)
    | ReadForPay(id: nat, c: PayCall, now: Time)
    | ReadForScan(id: nat, q: ScanRequest, now: Time, nanos: nat)
    | Write(id: nat)

  function CreateWrites(t: Transactions, req: PaymentRequest, env: Env): Option<SaveCall> {
    if HasIds(req) && FindByKey(t, req.merchantID, req.idempotencyKey).None? then Some(Process(req, env).save) else None
  }

  /** The save that the read of an action leads to, if any. */
  function Started(t: Transactions, a: Action): Option<SaveCall> {
    match a
    case ReadForCreate(_, req, env) => CreateWrites(t, req, env)
    case ReadForYoo(_, p, now) => YooWrites(t, p, now)
    case ReadForPay(_, c, now) => PayWrites(t, c, now)
    case ReadForScan(_, q, now, nanos) => ScanWrites(t, TrimmedScan(q), now, nanos)
    case Write(_) => None
  }

  function Step(w: World, a: Action): World {
    if a.Write? then
      if a.id in w.pending then World(SaveStep(w.store, w.pending[a.id]), w.pending - {a.id}) else w
    else Begun(w, a.id, Started(w.store, a))
  }

  function Begun(w: World, id: nat, c: Option<SaveCall>): World {
    match c
    case None => w
    case Some(call) => w.(pending := w.pending[id := call])
  }

  function Run(actions: seq<Action>): World {
    if actions == [] then World(NO_TRANSACTIONS, map[])
    else Step(Run(actions[..|actions| - 1]), actions[|actions| - 1])
  }

  lemma CreateWritesSoundly(t: Transactions, req: PaymentRequest, env: Env)
    ensures CreateWrites(t, req, env).Some? ==> SoundSave(CreateWrites(t, req, env).value)
  {
    hide Process, SoundSave;
    ProcessIsSound(req, env);
  }

  lemma YooWritesSoundly(t: Transactions, p: YooPayment, now: Time)
    ensures YooWrites(t, p, now).Some? ==> SoundSave(YooWrites(t, p, now).value)
  {
    hide YooSave, YooLoaded, SoundSave;
    YooIsSound(YooLoaded(t, p, now), p, now);
  }

  lemma PayWritesSoundly(t: Transactions, c: PayCall, now: Time)
    ensures PayWrites(t, c, now).Some? ==> SoundSave(PayWrites(t, c, now).value)
  {
    hide PaySave, PayLoaded, SoundSave;
    PayIsSound(PayLoaded(t, c, now), c, now);
  }

  lemma ScanWritesSoundly(t: Transactions, s: ScanRequest, now: Time, nanos: nat)
    ensures ScanWrites(t, s, now, nanos).Some? ==> SoundSave(ScanWrites(t, s, now, nanos).value)
  {
    hide ScanSave, ScanLoaded, SoundSave;
    match ScanLoaded(t, s)
    case None =>
    case Some(r) => ScanIsSound(r, s, now, nanos);
  }

  lemma StartedIsSound(t: Transactions, a: Action)
    ensures Started(t, a).Some? ==> SoundSave(Started(t, a).value)
  {
    match a
    case ReadForCreate(_, req, env) => CreateWritesSoundly(t, req, env);
    case ReadForYoo(_, p, now) => YooWritesSoundly(t, p, now);
    case ReadForPay(_, c, now) => PayWritesSoundly(t, c, now);
    case ReadForScan(_, q, now, nanos) => ScanWritesSoundly(t, TrimmedScan(q), now, nanos);
    case Write(_) =>
  }

  predicate AllSound(pending: map<nat, SaveCall>) {
    forall id :: id in pending ==> SoundSave(pending[id])
  }

  lemma WriteKeepsGood(w: World, id: nat)
    requires GoodStore(w.store) && AllSound(w.pending)
    ensures GoodStore(Step(w, Write(id)).store) && AllSound(Step(w, Write(id)).pending)
  {
    if id in w.pending {
      SoundSaveKeepsGood(w.store, w.pending[id]);
    }
  }

  lemma BegunKeepsGood(w: World, id: nat, c: Option<SaveCall>)
    requires GoodStore(w.store) && AllSound(w.pending) && (c.Some? ==> SoundSave(c.value))
    ensures GoodStore(Begun(w, id, c).store) && AllSound(Begun(w, id, c).pending)
  {
  }

  /** Over every interleaving, every stored transaction keeps the invariant. */
  lemma {:induction false} EveryRunKeepsGood(actions: seq<Action>)
    ensures GoodStore(Run(actions).store) && AllSound(Run(actions).pending)
  {
    if actions != [] {
      var n := |actions| - 1;
      EveryRunKeepsGood(actions[..n]);
      StepKeepsGood(Run(actions[..n]), actions[n]);
    }
  }

  lemma StepKeepsGood(w: World, a: Action)
    requires GoodStore(w.store) && AllSound(w.pending)
    ensures GoodStore(Step(w, a).store) && AllSound(Step(w, a).pending)
  {
    if a.Write? {
      WriteKeepsGood(w, a.id);
    } else {
      StartedIsSound(w.store, a);
      BegunKeepsGood(w, a.id, Started(w.store, a));
    }
  }

  /** A handler that is not interrupted. */
  lemma BegunThenWrite(w: World, id: nat, c: Option<SaveCall>)
    requires id !in w.pending
    ensures Step(Begun(w, id, c), Write(id)) == w.(store := Saved(w.store, c))
  {
    if c.Some? {
      assert w.pending[id := c.value] - {id} == w.pending;
    }
  }

  lemma CreateStepSaves(t: Transactions, req: PaymentRequest, env: Env)
    ensures CreateStep(t, req, env).store == Saved(t, CreateWrites(t, req, env))
  {
  }

  /** Uninterrupted, the reads and writes are the very steps that the handlers are proved to take. */
  lemma CreateUninterrupted(w: World, id: nat, req: PaymentRequest, env: Env)
    requires id !in w.pending
    ensures Step(Step(w, ReadForCreate(id, req, env)), Write(id)) == w.(store := CreateStep(w.store, req, env).store)
  {
    hide CreateWrites, Saved, SaveStep, CreateStep;
    CreateStepSaves(w.store, req, env);
    BegunThenWrite(w, id, CreateWrites(w.store, req, env));
  }

  lemma YooUninterrupted(w: World, id: nat, p: YooPayment, now: Time)
    requires id !in w.pending
    ensures Step(Step(w, ReadForYoo(id, p, now)), Write(id)) == w.(store := YooStep(w.store, p, now))
  {
    hide YooWrites, Saved, SaveStep;
    BegunThenWrite(w, id, YooWrites(w.store, p, now));
  }

  lemma PayUninterrupted(w: World, id: nat, c: PayCall, now: Time)
    requires id !in w.pending
    ensures Step(Step(w, ReadForPay(id, c, now)), Write(id)) == w.(store := PayStep(w.store, c, now))
  {
    hide PayWrites, Saved, SaveStep;
    BegunThenWrite(w, id, PayWrites(w.store, c, now));
  }

  lemma ScanUninterrupted(w: World, id: nat, q: ScanRequest, now: Time, nanos: nat)
    requires id !in w.pending
    ensures Step(Step(w, ReadForScan(id, q, now, nanos)), Write(id)) == w.(store := ScanStep(w.store, q, now, nanos))
  {
    hide ScanWrites, Saved, SaveStep;
    BegunThenWrite(w, id, ScanWrites(w.store, TrimmedScan(q), now, nanos));
  }

  /** The handlers' own uninterrupted steps keep the invariant from any good store. */
  lemma SavedKeepsGood(t: Transactions, c: Option<SaveCall>)
    requires GoodStore(t) && (c.Some? ==> SoundSave(c.value))
    ensures GoodStore(Saved(t, c))
  {
    if c.Some? {
      SoundSaveKeepsGood(t, c.value);
    }
  }

  lemma CreateKeepsGood(t: Transactions, req: PaymentRequest, env: Env)
    requires GoodStore(t)
    ensures GoodStore(CreateStep(t, req, env).store)
  {
    hide CreateWrites, GoodStore, SoundSave, CreateStep;
    CreateStepSaves(t, req, env);
    CreateWritesSoundly(t, req, env);
    SavedKeepsGood(t, CreateWrites(t, req, env));
  }

  lemma YooKeepsGood(t: Transactions, p: YooPayment, now: Time)
    requires GoodStore(t)
    ensures GoodStore(YooStep(t, p, now))
  {
    hide YooWrites, GoodStore, SoundSave;
    YooWritesSoundly(t, p, now);
    SavedKeepsGood(t, YooWrites(t, p, now));
  }

  lemma PayKeepsGood(t: Transactions, c: PayCall, now: Time)
    requires GoodStore(t)
    ensures GoodStore(PayStep(t, c, now))
  {
    hide PayWrites, GoodStore, SoundSave;
    PayWritesSoundly(t, c, now);
    SavedKeepsGood(t, PayWrites(t, c, now));
  }

  lemma ScanKeepsGood(t: Transactions, q: ScanRequest, now: Time, nanos: nat)
    requires GoodStore(t)
    ensures GoodStore(ScanStep(t, q, now, nanos))
  {
    hide ScanWrites, GoodStore, SoundSave;
    ScanWritesSoundly(t, TrimmedScan(q), now, nanos);
    SavedKeepsGood(t, ScanWrites(t, TrimmedScan(q), now, nanos));
  }

  // ---------- Redelivery ----------

  /** Delivering the same YooKassa notification again rewrites the stored response with nothing but a new time. */
  lemma YooRedelivery(loaded: PaymentResponse, p: YooPayment, now: Time, later: Time)
    ensures var stored := Sanitized(YooUpdated(loaded, p, now));
            Sanitized(YooUpdated(stored, p, later)) == stored.(info := stored.info.(updatedAt := later))
  {
    MaskStableFromSecond(loaded.info.customer.cardNumber);
    var card := MaskCardNumber(MaskCardNumber(loaded.info.customer.cardNumber));
    assert MaskCardNumber(card) == card;
  }

  /** And so does the same PayAnyWay call, as far as the response goes. */
  lemma PayRedelivery(loaded: PaymentResponse, c: PayCall, now: Time, later: Time)
    requires !PayIgnored(c)
    ensures var stored := Sanitized(PayUpdated(loaded, c, now));
            Sanitized(PayUpdated(stored, c, later)) == stored.(info := stored.info.(updatedAt := later))
  {
    MaskStableFromSecond(loaded.info.customer.cardNumber);
    var card := MaskCardNumber(MaskCardNumber(loaded.info.customer.cardNumber));
    assert MaskCardNumber(card) == card;
  }

  /** What the store holds for a notification. */
  function YooStored(t: Transactions, p: YooPayment): Option<Payload> {
    match FindByKey(t, Trim(p.merchantID), Trim(p.idempotencyKey))
    case Some(tx) => Some(tx.payload)
    case None => None
  }

  lemma SavedIsFound(t: Transactions, r: PaymentResponse, at: Time)
    requires r.merchantID != "" && r.idempotencyKey != ""
    ensures var found := FindByKey(SaveStep(t, SaveResponse(r, at)), r.merchantID, r.idempotencyKey);
            && found.Some? && found.value.payload == Response(Sanitized(r))
            && found.value.status == r.currentStatus && found.value.updatedAt == at
  {
  }

  lemma YooIds(loaded: PaymentResponse, p: YooPayment, now: Time)
    ensures var r := YooUpdated(loaded, p, now);
            r.id == Trim(p.paymentID) && r.merchantID == Trim(p.merchantID)
            && r.idempotencyKey == Trim(p.idempotencyKey)
  {
  }

  lemma YooStores(t: Transactions, p: YooPayment, now: Time)
    requires !YooIgnored(p)
    ensures YooStored(YooStep(t, p, now), p) == Some(Response(Sanitized(YooUpdated(YooLoaded(t, p, now), p, now))))
  {
    hide YooUpdated, YooLoaded, Sanitized, SaveStep, SaveResponse;
    YooIds(YooLoaded(t, p, now), p, now);
    SavedIsFound(t, YooUpdated(YooLoaded(t, p, now), p, now), now);
  }

  lemma YooLoadsStored(t: Transactions, p: YooPayment, now: Time, stored: PaymentResponse)
    requires YooStored(t, p) == Some(Response(stored))
    ensures YooLoaded(t, p, now) == stored
  {
  }

  /** What a second delivery loads is what the first one stored, so in the stored response only a time changes. */
  lemma YooTwiceOnStore(t: Transactions, p: YooPayment, now: Time, later: Time)
    requires !YooIgnored(p)
    ensures match (YooStored(YooStep(t, p, now), p), YooStored(YooStep(YooStep(t, p, now), p, later), p))
            case (Some(Response(first)), Some(Response(second))) =>
              second == first.(info := first.info.(updatedAt := later))
            case _ => false
  {
    hide YooUpdated, YooLoaded, YooStep, YooStored, Sanitized;
    var loaded, once := YooLoaded(t, p, now), YooStep(t, p, now);
    var stored := Sanitized(YooUpdated(loaded, p, now));
    YooStores(t, p, now);
    YooLoadsStored(once, p, later, stored);
    YooStores(once, p, later);
    YooRedelivery(loaded, p, now, later);
  }

  /** What the store holds for a Pay URL call. */
  function PayStored(t: Transactions, c: PayCall): Option<Payload> {
    match FindByPayment(t, c.merchantID, c.paymentID)
    case Some(tx) => Some(tx.payload)
    case None => None
  }

  lemma SavedIsFoundByPayment(t: Transactions, r: PaymentResponse, at: Time)
    requires r.merchantID != "" && r.idempotencyKey != "" && r.id != ""
    ensures var found := FindByPayment(SaveStep(t, SaveResponse(r, at)), r.merchantID, r.id);
            && found.Some? && found.value.payload == Response(Sanitized(r))
            && found.value.status == r.currentStatus && found.value.updatedAt == at
  {
  }

  lemma PayIds(loaded: PaymentResponse, c: PayCall, now: Time)
    requires !PayIgnored(c)
    ensures var r := PayUpdated(loaded, c, now);
            r.id == c.paymentID && r.merchantID == c.merchantID && r.idempotencyKey != ""
  {
  }

  lemma PayStores(t: Transactions, c: PayCall, now: Time)
    requires !PayIgnored(c)
    ensures PayStored(PayStep(t, c, now), c) == Some(Response(Sanitized(PayUpdated(PayLoaded(t, c, now), c, now))))
  {
    hide PayUpdated, PayLoaded, Sanitized, SaveStep, SaveResponse;
    PayIds(PayLoaded(t, c, now), c, now);
    SavedIsFoundByPayment(t, PayUpdated(PayLoaded(t, c, now), c, now), now);
  }

  lemma PayLoadsStored(t: Transactions, c: PayCall, now: Time, stored: PaymentResponse)
    requires PayStored(t, c) == Some(Response(stored))
    ensures PayLoaded(t, c, now) == stored
  {
  }

  /** The same PayAnyWay call again changes only a time in the stored response. */
  lemma PayTwiceOnStore(t: Transactions, c: PayCall, now: Time, later: Time)
    requires !PayIgnored(c)
    ensures match (PayStored(PayStep(t, c, now), c), PayStored(PayStep(PayStep(t, c, now), c, later), c))
            case (Some(Response(first)), Some(Response(second))) =>
              second == first.(info := first.info.(updatedAt := later))
            case _ => false
  {
    hide PayUpdated, PayLoaded, PayStep, PayStored, Sanitized;
    var loaded, once := PayLoaded(t, c, now), PayStep(t, c, now);
    var stored := Sanitized(PayUpdated(loaded, c, now));
    PayStores(t, c, now);
    PayLoadsStored(once, c, later, stored);
    PayStores(once, c, later);
    PayRedelivery(loaded, c, now, later);
  }
}
