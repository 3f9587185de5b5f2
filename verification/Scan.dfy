/** Digital rouble payments from QR issue to scan (internal/subsystems/adapter/digital_ruble_adapter.go
    and internal/httpapi/webhooks/digital_ruble_sandbox_handler.go). */
module Scan {
  import opened Text
  import opened Payments
  import opened Decimal
  import opened Store
  import opened Validator
  import opened Orchestrator
  import opened DigitalRuble
  import opened Webhooks
  import opened Lifecycle
  import opened Idempotency

  // ---------- QR issue ----------

  /** What the adapter draws from its configuration, the clock and the QR libraries. */
  datatype Issue = Issue(
    participantBank: string, schemaVersion: string, externalID: string, qrID: string, paymentURL: string,
    qrPayload: string, qrImage: string, expiresAt: Time, nanos: nat)

  /** What a QR code fixes: its id, and when it expires. */
  datatype QrCode = QrCode(id: string, expiresAt: Option<Time>)

  function QrOf(issue: Issue): QrCode {
    QrCode(issue.qrID, FormatOptionalTime(issue.expiresAt))
  }

  function PaymentCheckFromCreateRequest(req: PaymentRequest, walletID: string, messageID: string): PaymentCheck {
    var category := PrimaryCategory(req.items);
    PaymentCheck(messageID, req.merchantID, req.paymentID, Trim(walletID), req.amount.value, req.amount.currency,
                 category, RequiredMoneyMark(category), SmartContractID(req.digitalRuble.smartContractID))
  }

  function SendDigitalRuble(req: PaymentRequest, issue: Issue): AdapterResult {
    var messageID := NewMessageID(issue.nanos);
    var check := PaymentCheckFromCreateRequest(req, PayerWalletID("", req.customer), messageID);
    AdapterResult(
      issue.externalID, "DIGITAL_RUBLE", PENDING, "qr_issued", "", issue.paymentURL, issue.qrID, issue.qrPayload,
      issue.qrImage, issue.expiresAt, issue.participantBank, issue.schemaVersion,
      "RUB + DIGITAL_RUBLE; settlement through participant bank emulator",
      check.moneyMark, check.smartContractID, "PENDING",
      "will be checked by digital ruble platform emulator after QR scan",
      messageID, PLATFORM_TRANSPORT_SOAP, SIGNATURE_TYPE_HMAC, "")
  }

  // ---------- What stays fixed from QR issue on ----------

  /** The ids of a validated request: trimmed and not blank. */
  predicate Proper(valid: PaymentRequest) {
    Trimmed(valid.merchantID) && valid.merchantID != "" && Trimmed(valid.paymentID) && valid.paymentID != ""
    && Trimmed(valid.idempotencyKey) && valid.idempotencyKey != ""
  }

  predicate SameWallet(a: Customer, b: Customer) {
    a.digitalRubleWalletID == b.digitalRubleWalletID && a.digitalRubleIdentifier == b.digitalRubleIdentifier
    && a.digitalWalletID == b.digitalWalletID
  }

  /** The response carries the ids, amount and items of the request, and the mark, the contract id,
      the QR id and the expiry the QR was issued with. */
  predicate Issued(r: PaymentResponse, valid: PaymentRequest, qr: QrCode) {
    && r.id == valid.paymentID && r.merchantID == valid.merchantID && r.idempotencyKey == valid.idempotencyKey
    && r.info.amount == valid.amount && r.info.items == valid.items && SameWallet(r.info.customer, valid.customer)
    && r.details.moneyMark == RequiredMoneyMark(PrimaryCategory(valid.items))
    && r.details.smartContractID == SmartContractID(valid.digitalRuble.smartContractID)
    && r.details.paymentSystem == "DIGITAL_RUBLE" && r.details.qrID == qr.id
    && r.details.qrExpiresAt == qr.expiresAt
    && r.details.platformMessageID != "" && Trimmed(r.details.platformMessageID)
  }

  // ---------- One scan ----------

  /** The captured class and everything unknown ask for a capture. */
  predicate RequestsCapture(result: string) {
    Lower(Trim(result)) !in ["declined", "reject", "rejected", "failed", "error", "expired", "cancelled", "canceled"]
  }

  /** The payer's balance under the required mark covers the amount rounded to kopecks. */
  predicate Covered(valid: PaymentRequest, payerWalletID: string) {
    WalletMarkedBalance(PayerWalletID(payerWalletID, valid.customer), RequiredMoneyMark(PrimaryCategory(valid.items)))
    >= Rounded(valid.amount.value)
  }

  /** A check with proper ids whose mark and contract are in normal form reaches the wallet check as it is. */
  lemma ContractOfCheck(check: PaymentCheck, nanos: nat)
    requires check.messageID != "" && Trimmed(check.messageID) && !Blank(check.merchantID) && !Blank(check.paymentID)
    requires IsMark(check.moneyMark) && Trimmed(check.smartContractID) && check.smartContractID != ""
    ensures var outcome := ProcessPaymentCheckSOAP(BuildPaymentCheckSOAP(check, nanos), nanos);
            && outcome.Ok?
            && outcome.value.moneyMark == check.moneyMark && outcome.value.smartContractID == check.smartContractID
            && outcome.value.messageID == check.messageID
            && (outcome.value.allowed
               <==> WalletMarkedBalance(Trim(check.walletID), check.moneyMark) >= Rounded(check.amount))
            && outcome.value.result == (if outcome.value.allowed then "PASSED" else "DECLINED")
            && ReasonFits(outcome.value.reason, Trim(check.walletID), check.moneyMark, Rounded(check.amount),
                          PrimaryCategoryFromValue(check.category))
  {
    MarkIsNormal(check.moneyMark);
    RoundTrip(check, nanos, nanos);
    NormalizedParts(check, nanos);
    var c := NormalizePaymentCheck(check, nanos).(amount := Rounded(check.amount));
    hide BuildPaymentCheckSOAP, PaymentCheckFromEnvelope, NormalizePaymentCheck, CheckMarkedMoney, Rounded, ReasonFits,
         WalletMarkedBalance, PrimaryCategoryFromValue, Trim;
    CheckOfNormal(c, nanos);
    ReasonOfCheck(c, nanos);
  }

  lemma NormalizedParts(check: PaymentCheck, nanos: nat)
    requires check.messageID != "" && Trimmed(check.messageID)
    requires IsMark(check.moneyMark) && Trimmed(check.smartContractID) && check.smartContractID != ""
    ensures var c := NormalizePaymentCheck(check, nanos);
            && c.messageID == check.messageID == Trim(c.messageID) && c.walletID == Trim(check.walletID)
            && c.moneyMark == check.moneyMark != "" && c.smartContractID == check.smartContractID
            && c.category == PrimaryCategoryFromValue(check.category)
            && PrimaryCategoryFromValue(c.category) == c.category
  {
    MarkIsNormal(check.moneyMark);
    CategoryIsStable(check.category);
    hide PrimaryCategoryFromValue, RequiredMoneyMark, Upper, TrimLeft, TrimRight;
  }

  /** The message reaches the emulator with the mark, the contract and the id it was issued with. */
  lemma ContractOfIssued(r: PaymentResponse, valid: PaymentRequest, qr: QrCode, payerWalletID: string,
                         nanos: nat)
    requires Issued(r, valid, qr) && Proper(valid)
    ensures var outcome := ContractOutcome(r, payerWalletID, nanos);
            && outcome.Ok?
            && outcome.value.moneyMark == r.details.moneyMark
            && outcome.value.smartContractID == r.details.smartContractID
            && outcome.value.messageID == r.details.platformMessageID
            && (outcome.value.allowed <==> Covered(valid, payerWalletID))
            && outcome.value.result == (if outcome.value.allowed then "PASSED" else "DECLINED")
            && ReasonFits(outcome.value.reason, PayerWalletID(payerWalletID, valid.customer),
                          RequiredMoneyMark(PrimaryCategory(valid.items)), Rounded(valid.amount.value),
                          PrimaryCategory(valid.items))
  {
    CheckOfIssued(r, valid, qr, payerWalletID, nanos);
    PrimaryIsStable(valid.items);
    var check := CheckFor(r, payerWalletID, nanos);
    assert Trim(check.walletID) == check.walletID;
    hide BuildPaymentCheckSOAP, ProcessPaymentCheckSOAP, PrimaryCategoryFromValue, PrimaryCategory, RequiredMoneyMark,
         ReasonFits, WalletMarkedBalance, Rounded, Trim, PayerWalletID, SmartContractID;
    ContractOfCheck(check, nanos);
  }

  /** The check a scan makes of a response. */
  function CheckFor(r: PaymentResponse, payerWalletID: string, nanos: nat): PaymentCheck {
    PaymentCheckFromResponse(r, PayerWalletID(payerWalletID, r.info.customer), r.details.platformMessageID, nanos)
  }

  lemma CheckOfIssued(r: PaymentResponse, valid: PaymentRequest, qr: QrCode, payerWalletID: string,
                      nanos: nat)
    requires Issued(r, valid, qr) && Proper(valid)
    ensures var check := CheckFor(r, payerWalletID, nanos);
            && check.messageID == r.details.platformMessageID && check.merchantID == valid.merchantID
            && check.paymentID == valid.paymentID && check.amount == valid.amount.value
            && check.moneyMark == r.details.moneyMark && check.smartContractID == r.details.smartContractID
            && check.walletID == PayerWalletID(payerWalletID, valid.customer) && Trimmed(check.walletID)
            && check.category == PrimaryCategory(valid.items)
  {
    MarkIsNormal(r.details.moneyMark);
  }

  lemma CheckOfNormal(c: PaymentCheck, nanos: nat)
    requires c.messageID != "" && c.moneyMark != "" && Trimmed(c.walletID) && Trimmed(c.smartContractID)
             && c.smartContractID != ""
    ensures var result := CheckMarkedMoney(c, nanos);
            && result.moneyMark == c.moneyMark && result.smartContractID == c.smartContractID
            && result.messageID == c.messageID
            && (result.allowed <==> WalletMarkedBalance(c.walletID, c.moneyMark) >= c.amount)
  {
  }

  lemma DecidedKeepsIssue(r: PaymentResponse, d: Decision, now: Time, valid: PaymentRequest, qr: QrCode)
    requires Issued(r, valid, qr)
    ensures Issued(Decided(r, d, now), valid, qr) && Decided(r, d, now).currentStatus == d.status
  {
  }

  /** A scan stores CAPTURED exactly when a capture is asked for, the QR has not expired and the
      marked balance covers the rounded amount; and it leaves alone what QR issue fixed. */
  lemma ScanOfIssued(r: PaymentResponse, valid: PaymentRequest, qr: QrCode, q: ScanRequest, now: Time,
                     nanos: nat)
    requires Issued(r, valid, qr) && Proper(valid)
    ensures var after := Scanned(r, q, now, nanos);
            && Issued(after, valid, qr)
            && (after.currentStatus == CAPTURED <==>
                  RequestsCapture(q.result) && !QrExpired(qr.expiresAt, now) && Covered(valid, q.payerWalletID))
  {
    var first := FirstDecision(r, q, now);
    FirstAsks(r, q, now);
    if AsksContract(first) {
      var outcome := ContractOutcome(r, q.payerWalletID, nanos);
      ContractOfIssued(r, valid, qr, q.payerWalletID, nanos);
      DecidedKeepsIssue(AfterContract(r, outcome), ContractDecision(outcome), now, valid, qr);
    } else {
      DecidedKeepsIssue(r, first, now, valid, qr);
    }
  }

  lemma FirstAsks(r: PaymentResponse, q: ScanRequest, now: Time)
    ensures AsksContract(FirstDecision(r, q, now))
            <==> RequestsCapture(q.result) && !QrExpired(r.details.qrExpiresAt, now)
    ensures FirstDecision(r, q, now).status == CAPTURED ==> AsksContract(FirstDecision(r, q, now))
  {
  }

  // ---------- Any number of scans ----------

  /** The store's record of the payment carries what QR issue fixed. */
  predicate HoldsIssue(t: Transactions, valid: PaymentRequest, qr: QrCode) {
    var key := Composite(valid.merchantID, valid.paymentID);
    key in t.byPaymentID && t.byPaymentID[key].payload.Response?
    && Issued(t.byPaymentID[key].payload.response, valid, qr)
  }

  lemma SaveKeepsIssue(t: Transactions, c: SaveCall, valid: PaymentRequest, qr: QrCode)
    requires HoldsIssue(t, valid, qr) && SoundSave(c)
    requires Composite(c.merchantID, c.paymentID) == Composite(valid.merchantID, valid.paymentID)
             ==> Issued(c.payload.response, valid, qr)
    ensures HoldsIssue(SaveStep(t, c), valid, qr)
  {
  }

  lemma ScannedSaveKeepsIssue(t: Transactions, r: PaymentResponse, s: ScanRequest, now: Time, nanos: nat,
                              valid: PaymentRequest, qr: QrCode)
    requires HoldsIssue(t, valid, qr) && Proper(valid)
    requires Composite(r.merchantID, r.id) == Composite(valid.merchantID, valid.paymentID)
             ==> Issued(r, valid, qr)
    ensures HoldsIssue(SaveStep(t, ScanSave(r, s, now, nanos)), valid, qr)
  {
    ScanIsSound(r, s, now, nanos);
    ScannedKeepsIds(r, s, now, nanos);
    if Issued(r, valid, qr) {
      ScanOfIssued(r, valid, qr, s, now, nanos);
    }
    SaveKeepsIssue(t, ScanSave(r, s, now, nanos), valid, qr);
  }

  /** What an accepted scan works on is the payment's own record, if its key is the payment's. */
  lemma LoadedIsIssued(t: Transactions, s: ScanRequest, valid: PaymentRequest, qr: QrCode)
    requires GoodStore(t) && HoldsIssue(t, valid, qr) && ScanLoaded(t, s).Some?
    ensures var r := ScanLoaded(t, s).value;
            && Composite(r.merchantID, r.id) == Composite(s.merchantID, s.paymentID)
            && (Composite(r.merchantID, r.id) == Composite(valid.merchantID, valid.paymentID)
               ==> Issued(r, valid, qr))
  {
  }

  lemma ScanKeepsIssue(t: Transactions, q: ScanRequest, now: Time, nanos: nat, valid: PaymentRequest,
                       qr: QrCode)
    requires GoodStore(t) && HoldsIssue(t, valid, qr) && Proper(valid)
    ensures HoldsIssue(ScanStep(t, q, now, nanos), valid, qr)
  {
    var s := TrimmedScan(q);
    match ScanLoaded(t, s)
    case None =>
    case Some(r) =>
      LoadedIsIssued(t, s, valid, qr);
      ScannedSaveKeepsIssue(t, r, s, now, nanos, valid, qr);
  }

  lemma ScannedKeepsIds(r: PaymentResponse, q: ScanRequest, now: Time, nanos: nat)
    ensures var after := Scanned(r, q, now, nanos);
            after.id == r.id && after.merchantID == r.merchantID && after.idempotencyKey == r.idempotencyKey
  {
  }

  /** A call that does not write the payment, unless it is a scan. */
  predicate LeavesPayment(t: Transactions, call: Call, valid: PaymentRequest) {
    call.Scan? ||
    match WritesOf(t, call)
    case None => true
    case Some(c) => Composite(c.merchantID, c.paymentID) != Composite(valid.merchantID, valid.paymentID)
  }

  lemma CallKeepsIssue(t: Transactions, call: Call, valid: PaymentRequest, qr: QrCode)
    requires GoodStore(t) && HoldsIssue(t, valid, qr) && Proper(valid) && LeavesPayment(t, call, valid)
    ensures HoldsIssue(After(t, call), valid, qr)
  {
    hide GoodStore, HoldsIssue, Proper, WritesOf, CreateStep, YooStep, PayStep, ScanStep, SoundSave, SaveStep;
    if call.Scan? {
      ScanKeepsIssue(t, call.q, call.now, call.nanos, valid, qr);
    } else {
      AfterSaves(t, call);
      CallWritesSoundly(t, call);
      if WritesOf(t, call).Some? {
        SaveKeepsIssue(t, WritesOf(t, call).value, valid, qr);
      }
    }
  }

  /** Of a run, only scans write the payment. */
  predicate OnlyScansWrite(t: Transactions, calls: seq<Call>, valid: PaymentRequest) {
    forall i :: 0 <= i < |calls| ==> LeavesPayment(RunFrom(t, calls[..i]), calls[i], valid)
  }

  lemma RunFromNone(t: Transactions, calls: seq<Call>)
    ensures RunFrom(t, calls[..0]) == t
  {
  }

  lemma {:induction false} RunKeepsIssue(t: Transactions, calls: seq<Call>, n: nat, valid: PaymentRequest, qr: QrCode)
    requires GoodStore(t) && HoldsIssue(t, valid, qr) && Proper(valid)
    requires OnlyScansWrite(t, calls, valid) && n <= |calls|
    ensures GoodStore(RunFrom(t, calls[..n])) && HoldsIssue(RunFrom(t, calls[..n]), valid, qr)
  {
    hide GoodStore, HoldsIssue, Proper, OnlyScansWrite, RunFrom;
    if n == 0 {
      RunFromNone(t, calls);
    } else {
      RunKeepsIssue(t, calls, n - 1, valid, qr);
      RunKeepsIssueNext(t, calls, n - 1, valid, qr);
    }
  }

  lemma RunKeepsIssueNext(t: Transactions, calls: seq<Call>, n: nat, valid: PaymentRequest, qr: QrCode)
    requires n < |calls| && OnlyScansWrite(t, calls, valid) && Proper(valid)
    requires GoodStore(RunFrom(t, calls[..n])) && HoldsIssue(RunFrom(t, calls[..n]), valid, qr)
    ensures GoodStore(RunFrom(t, calls[..n + 1])) && HoldsIssue(RunFrom(t, calls[..n + 1]), valid, qr)
  {
    RunFromNext(t, calls, n);
    hide GoodStore, HoldsIssue, Proper, LeavesPayment, RunFrom, After;
    CallKeepsGood(RunFrom(t, calls[..n]), calls[n]);
    CallKeepsIssue(RunFrom(t, calls[..n]), calls[n], valid, qr);
  }

  /** Over any number of scans of any payments, and any CreatePayment and webhook calls that do not write this one. */
  lemma CallsKeepIssue(t: Transactions, calls: seq<Call>, valid: PaymentRequest, qr: QrCode)
    requires GoodStore(t) && HoldsIssue(t, valid, qr) && Proper(valid) && OnlyScansWrite(t, calls, valid)
    ensures GoodStore(RunFrom(t, calls)) && HoldsIssue(RunFrom(t, calls), valid, qr)
  {
    hide GoodStore, HoldsIssue, Proper, OnlyScansWrite, RunFrom;
    RunKeepsIssue(t, calls, |calls|, valid, qr);
    assert calls[..|calls|] == calls;
  }

  // ---------- From CreatePayment on ----------

  lemma AnsweredIsIssued(valid: PaymentRequest, issue: Issue, token: string, retries: nat, now: Time)
    ensures Issued(FinalResponse(valid, SendDigitalRuble(valid, issue), token, retries, now), valid,
                   QrOf(issue))
  {
    NewMessageIDIsTrimmed(issue.nanos);
  }

  lemma FirstAnswerStops(answers: Answers, system: string, valid: PaymentRequest, issue: Issue)
    requires answers(0) == Ok(SendDigitalRuble(valid, issue))
    ensures StopsAt(answers, system, MAX_ATTEMPTS, 0) == 0
            && ResultOf(answers, system, 0) == SendDigitalRuble(valid, issue)
  {
  }

  lemma SentIsIssued(req: PaymentRequest, valid: PaymentRequest, env: Env, system: string, token: string, issue: Issue)
    requires env.answers(0) == Ok(SendDigitalRuble(valid, issue))
    ensures Issued(SendAndAnswer(req, valid, env, system, token).response, valid, QrOf(issue))
  {
    FirstAnswerStops(env.answers, system, valid, issue);
    AnsweredIsIssued(valid, issue, token, 0, env.respondedAt);
  }

  lemma SavedHoldsIssue(t: Transactions, done: Processed, valid: PaymentRequest, qr: QrCode)
    requires SoundlyDone(done) && Issued(done.response, valid, qr) && Proper(valid)
    ensures HoldsIssue(SaveStep(t, done.save), valid, qr)
  {
    CleanIsStable(done.response);
  }

  function ValidOf(req: PaymentRequest): PaymentRequest {
    SafeRequest(Normalized(req))
  }

  /** The call is new, passes every check and is answered at once by the digital rouble adapter. */
  predicate IssuesQr(t: Transactions, req: PaymentRequest, env: Env, issue: Issue) {
    && HasIds(req) && FindByKey(t, req.merchantID, req.idempotencyKey).None?
    && env.checks.Passed? && FirstFailure(env) == None
    && Proper(ValidOf(req)) && env.answers(0) == Ok(SendDigitalRuble(ValidOf(req), issue))
  }

  lemma ProcessIssues(req: PaymentRequest, env: Env, issue: Issue)
    requires env.checks.Passed? && FirstFailure(env) == None
    requires env.answers(0) == Ok(SendDigitalRuble(ValidOf(req), issue))
    ensures Issued(Process(req, env).response, ValidOf(req), QrOf(issue))
  {
    hide SendAndAnswer, Issued, SafeRequest, Normalized, SendDigitalRuble, FormatOptionalTime;
    SentIsIssued(req, ValidOf(req), env, env.route.value.paymentSystem, env.token.value, issue);
  }

  /** CreatePayment through the digital rouble adapter stores a payment that holds its issue. */
  lemma CreatedHoldsIssue(t: Transactions, req: PaymentRequest, env: Env, issue: Issue)
    requires IssuesQr(t, req, env, issue)
    ensures HoldsIssue(CreateStep(t, req, env).store, ValidOf(req), QrOf(issue))
  {
    hide Process, HoldsIssue, SoundlyDone, Issued, Proper, SaveStep, ValidOf, SendDigitalRuble, FirstFailure;
    ProcessIssues(req, env, issue);
    ProcessIsSound(req, env);
    SavedHoldsIssue(t, Process(req, env), ValidOf(req), QrOf(issue));
  }

  datatype ScanCall = ScanCall(q: ScanRequest, now: Time, nanos: nat)

  /** The scan names no QR code, or the issued one. */
  predicate NamesQr(s: ScanRequest, qr: QrCode) {
    s.qrID == "" || qr.id == "" || s.qrID == qr.id
  }

  /** A scan of the payment is accepted exactly when it names no other QR code. Then it stores CAPTURED exactly when a
      capture is asked for, the QR has not expired and the marked balance covers the rounded amount; otherwise it
      stores nothing. */
  predicate DecidesRightly(before: Transactions, last: ScanCall, valid: PaymentRequest, qr: QrCode) {
    var s := TrimmedScan(last.q);
    s.merchantID == valid.merchantID && s.paymentID == valid.paymentID ==>
      var after := ScanStep(before, last.q, last.now, last.nanos);
      var stored := FindByPayment(after, valid.merchantID, valid.paymentID);
      if NamesQr(s, qr) then
        && stored.Some?
        && stored.value.updatedAt == last.now
        && (stored.value.status == CAPTURED <==>
              RequestsCapture(s.result) && !QrExpired(qr.expiresAt, last.now) && Covered(valid, s.payerWalletID))
      else after == before
  }

  /** For a payment the gateway created: after any scans, and any calls that do not write it, its ids, amount, QR
      code, contract and mark are those of QR issue, and one more scan decides rightly by them. */
  lemma GatewayPaymentScan(t: Transactions, req: PaymentRequest, env: Env, issue: Issue, calls: seq<Call>,
                           last: ScanCall)
    requires GoodStore(t) && IssuesQr(t, req, env, issue)
    requires OnlyScansWrite(CreateStep(t, req, env).store, calls, ValidOf(req))
    ensures var before := RunFrom(CreateStep(t, req, env).store, calls);
            && HoldsIssue(before, ValidOf(req), QrOf(issue))
            && DecidesRightly(before, last, ValidOf(req), QrOf(issue))
  {
    hide CreateStep, HoldsIssue, DecidesRightly, GoodStore, RunFrom, ValidOf, FindByKey, SendDigitalRuble,
         FirstFailure, Proper, OnlyScansWrite, QrOf;
    var valid, qr := ValidOf(req), QrOf(issue);
    CreatedHoldsIssue(t, req, env, issue);
    CreateKeepsGood(t, req, env);
    CallsKeepIssue(CreateStep(t, req, env).store, calls, valid, qr);
    AcceptedScan(RunFrom(CreateStep(t, req, env).store, calls), last, valid, qr);
  }

  /** A save of a sound response for the payment is what the lookup by payment then finds. */
  lemma SoundSaveIsFound(t: Transactions, c: SaveCall)
    requires SoundSave(c) && Accepted(c) && c.paymentID != ""
    ensures FindByPayment(SaveStep(t, c), c.merchantID, c.paymentID) == Some(SavedTx(t, c))
  {
  }

  lemma RailIsUpper()
    ensures Upper(Trim("DIGITAL_RUBLE")) == "DIGITAL_RUBLE"
  {
    assert Trimmed("DIGITAL_RUBLE");
    UpperTextIsFixed("DIGITAL_RUBLE");
  }

  /** A scan that names the issued payment is accepted exactly when it names no other QR code. */
  lemma AcceptedIffQrNamed(t: Transactions, s: ScanRequest, valid: PaymentRequest, qr: QrCode)
    requires GoodStore(t) && HoldsIssue(t, valid, qr) && Proper(valid)
    requires s.merchantID == valid.merchantID && s.paymentID == valid.paymentID
    ensures ScanLoaded(t, s).Some? <==> NamesQr(s, qr)
    ensures ScanLoaded(t, s).Some? ==> Issued(ScanLoaded(t, s).value, valid, qr)
  {
    hide GoodStore, Upper, Trim, RequiredMoneyMark, SmartContractID, PrimaryCategory, SameWallet;
    RailIsUpper();
  }

  /** The scan's own step, once it is known what it loads. */
  lemma ScanStepOf(t: Transactions, last: ScanCall, loaded: Option<PaymentResponse>)
    requires ScanLoaded(t, TrimmedScan(last.q)) == loaded
    ensures ScanStep(t, last.q, last.now, last.nanos)
            == match loaded case None => t
               case Some(r) => SaveStep(t, ScanSave(r, TrimmedScan(last.q), last.now, last.nanos))
  {
    hide ScanLoaded, ScanSave, SaveStep, TrimmedScan;
  }

  lemma AcceptedScan(before: Transactions, last: ScanCall, valid: PaymentRequest, qr: QrCode)
    requires GoodStore(before) && HoldsIssue(before, valid, qr) && Proper(valid)
    ensures DecidesRightly(before, last, valid, qr)
  {
    hide GoodStore, HoldsIssue, ScanLoaded, TrimmedScan, ScanStep, Covered, RequestsCapture;
    var s := TrimmedScan(last.q);
    if s.merchantID == valid.merchantID && s.paymentID == valid.paymentID {
      AcceptedIffQrNamed(before, s, valid, qr);
      ScanStepOf(before, last, ScanLoaded(before, s));
      if ScanLoaded(before, s).Some? {
        ScanStores(before, ScanLoaded(before, s).value, s, last.now, last.nanos, valid, qr);
      }
    }
  }

  /** What a scan of an issued payment leaves under it. */
  lemma ScanStores(t: Transactions, r: PaymentResponse, s: ScanRequest, now: Time, nanos: nat, valid: PaymentRequest,
                   qr: QrCode)
    requires Issued(r, valid, qr) && Proper(valid)
    ensures var stored := FindByPayment(SaveStep(t, ScanSave(r, s, now, nanos)), valid.merchantID, valid.paymentID);
            && stored.Some? && stored.value.updatedAt == now
            && (stored.value.status == CAPTURED <==>
                  RequestsCapture(s.result) && !QrExpired(qr.expiresAt, now) && Covered(valid, s.payerWalletID))
  {
    hide Scanned, Covered, RequestsCapture, SoundSave, SaveStep;
    ScanOfIssued(r, valid, qr, s, now, nanos);
    ScanIsSound(r, s, now, nanos);
    ScanSaveIds(r, s, now, nanos);
    SoundSaveIsFound(t, ScanSave(r, s, now, nanos));
  }

  lemma ScanSaveIds(r: PaymentResponse, s: ScanRequest, now: Time, nanos: nat)
    ensures var c := ScanSave(r, s, now, nanos);
            && c.merchantID == r.merchantID && c.paymentID == r.id && c.idempotencyKey == r.idempotencyKey
            && c.payload == Response(Scanned(r, s, now, nanos)) && c.updatedAt == now
            && c.status == Scanned(r, s, now, nanos).currentStatus
  {
    hide Scanned;
    ScannedKeepsIds(r, s, now, nanos);
  }
}
