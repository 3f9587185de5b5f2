/** The three webhook handlers: what each writes back for the response it loaded
    (internal/httpapi/webhooks). Request decoding, signatures, logging and notifications are left out. */
module Webhooks {
  import opened Text
  import opened Payments
  import opened Store
  import opened DigitalRuble

  // ---------- YooKassa ----------

  /** The verified payment object of a notification. */
  datatype YooPayment = YooPayment(
    id: string, status: string, createdAt: Option<Time>, description: string, amount: Money,
    merchantID: string, paymentID: string, idempotencyKey: string, party: string, reason: string)

  function MapYooKassaStatus(status: string): string {
    var s := Lower(Trim(status));
    if s == "succeeded" then CAPTURED
    else if s == "canceled" then DECLINED
    else PENDING
  }

  function YooErrorCode(reason: string): string {
    if Lower(Trim(reason)) == "fraud_suspected" then "YOOKASSA_FRAUD_SUSPECTED" else "YOOKASSA_PAYMENT_DECLINED"
  }

  function YooFraudResult(reason: string): string {
    if EqualFold(Trim(reason), "fraud_suspected") then "BLOCKED_BY_PROVIDER_FRAUD" else "DECLINED_BY_PROVIDER"
  }

  function YooDeclineMessage(party: string, reason: string): string {
    if Trim(reason) == "" then "payment was canceled by YooKassa"
    else if Trim(party) == "" then Trim(reason)
    else Trim(party) + ": " + Trim(reason)
  }

  predicate YooIgnored(p: YooPayment) {
    Blank(p.merchantID) || Blank(p.paymentID) || Blank(p.idempotencyKey)
  }

  /** What is stored under the key, or a fresh response. */
  function YooLoaded(t: Transactions, p: YooPayment, now: Time): PaymentResponse {
    var merchantID, idempotencyKey := Trim(p.merchantID), Trim(p.idempotencyKey);
    match FindByKey(t, merchantID, idempotencyKey)
    case Some(tx) => if Unmarshal(tx.payload).Some? then Unmarshal(tx.payload).value else YooBuilt(p, now)
    case None => YooBuilt(p, now)
  }

  function YooBuilt(p: YooPayment, now: Time): PaymentResponse {
    PaymentResponse(
      Trim(p.paymentID), Trim(p.merchantID), Trim(p.idempotencyKey), MapYooKassaStatus(p.status),
      PaymentInfo(p.amount, METHOD_CARD, NO_CUSTOMER, [], NO_DIGITAL_RUBLE, p.description,
                  match p.createdAt case Some(at) => at case None => now, now),
      NO_DETAILS.(externalTransactionID := p.id, paymentSystem := "YOOKASSA", providerStatus := p.status,
                  fraudCheckResult := "PASSED"),
      None)
  }

  /** Field by field, as the handler overwrites the loaded response. */
  method YooUpdate(loaded: PaymentResponse, p: YooPayment, now: Time) returns (resp: PaymentResponse)
    ensures resp == YooUpdated(loaded, p, now)
  {
    var status := MapYooKassaStatus(p.status);
    resp := loaded.(id := Trim(p.paymentID), merchantID := Trim(p.merchantID), idempotencyKey := Trim(p.idempotencyKey),
                    currentStatus := status);
    resp := resp.(info := resp.info.(updatedAt := now));
    resp := resp.(details := resp.details.(
      externalTransactionID := p.id, paymentSystem := "YOOKASSA", providerStatus := p.status, paymentURL := "",
      cancellationParty := p.party, cancellationReason := p.reason));
    if status == DECLINED || status == FAILED {
      var reason := Trim(p.reason);
      var message := reason;
      if message == "" {
        message := "payment was canceled by YooKassa";
      }
      resp := resp.(details := resp.details.(
        providerErrorCode := reason, providerErrorMessage := message, fraudCheckResult := YooFraudResult(reason)));
      resp := resp.(error := Some(NewGatewayError(YooErrorCode(reason), YooDeclineMessage(p.party, reason))));
    } else {
      resp := resp.(error := None);
    }
    resp := Sanitized(resp);
  }

  function YooUpdated(loaded: PaymentResponse, p: YooPayment, now: Time): PaymentResponse {
    var status, reason := MapYooKassaStatus(p.status), Trim(p.reason);
    var declined := status == DECLINED;
    Sanitized(loaded.(
      id := Trim(p.paymentID), merchantID := Trim(p.merchantID), idempotencyKey := Trim(p.idempotencyKey),
      currentStatus := status,
      info := loaded.info.(updatedAt := now),
      details := loaded.details.(
        externalTransactionID := p.id, paymentSystem := "YOOKASSA", providerStatus := p.status, paymentURL := "",
        cancellationParty := p.party, cancellationReason := p.reason,
        providerErrorCode := if declined then reason else loaded.details.providerErrorCode,
        providerErrorMessage := if !declined then loaded.details.providerErrorMessage
                                else if reason == "" then "payment was canceled by YooKassa" else reason,
        fraudCheckResult := if declined then YooFraudResult(reason) else loaded.details.fraudCheckResult),
      error := if declined then Some(NewGatewayError(YooErrorCode(reason), YooDeclineMessage(p.party, reason)))
               else None))
  }

  /** The write of a handler: the response under its own ids and status. */
  function SaveResponse(r: PaymentResponse, at: Time): SaveCall {
    SaveCall(r.merchantID, r.id, r.idempotencyKey, r.currentStatus, Response(r), at)
  }

  function YooSave(loaded: PaymentResponse, p: YooPayment, now: Time): SaveCall {
    SaveResponse(YooUpdated(loaded, p, now), now)
  }

  function YooWrites(t: Transactions, p: YooPayment, now: Time): Option<SaveCall> {
    if YooIgnored(p) then None else Some(YooSave(YooLoaded(t, p, now), p, now))
  }

  /** One whole notification on a store. */
  function YooStep(t: Transactions, p: YooPayment, now: Time): Transactions {
    Saved(t, YooWrites(t, p, now))
  }

  method LoadOrBuildYoo(store: InMemoryTransactionStore, p: YooPayment, now: Time) returns (resp: PaymentResponse)
    requires !YooIgnored(p)
    ensures resp == YooLoaded(store.State(), p, now)
  {
    var found := store.GetByIdempotencyKey(Trim(p.merchantID), Trim(p.idempotencyKey));
    if found.value.Some? && Unmarshal(found.value.value.payload).Some? {
      return Unmarshal(found.value.value.payload).value;
    }
    return YooBuilt(p, now);
  }

  method ServeYooKassa(store: InMemoryTransactionStore, p: YooPayment, now: Time)
    modifies store`byIdempotency, store`byPaymentID
    ensures store.State() == YooStep(old(store.State()), p, now)
  {
    var merchantID, paymentID, idempotencyKey := Trim(p.merchantID), Trim(p.paymentID), Trim(p.idempotencyKey);
    if merchantID == "" || paymentID == "" || idempotencyKey == "" {
      return;
    }
    var loaded := LoadOrBuildYoo(store, p, now);
    var resp := YooUpdate(loaded, p, now);
    var _ := store.Save(merchantID, paymentID, idempotencyKey, MapYooKassaStatus(p.status), Response(resp), now);
  }

  // ---------- PayAnyWay ----------

  /** A Pay URL call whose signature was accepted: both required ids are there. */
  datatype PayCall = PayCall(
    merchantID: string, paymentID: string, idempotencyKey: string, transactionID: string, operationID: string,
    amount: Money)

  predicate PayIgnored(c: PayCall) {
    c.merchantID == "" || c.paymentID == "" || Blank(c.transactionID)
  }

  function PayBuilt(c: PayCall, now: Time): PaymentResponse {
    PaymentResponse(
      c.paymentID, c.merchantID, c.transactionID, CAPTURED,
      PaymentInfo(c.amount.(currency := FirstNonBlank(c.amount.currency, "RUB")), METHOD_SBP, NO_CUSTOMER, [],
                  NO_DIGITAL_RUBLE, "PayAnyWay payment", now, now),
      NO_DETAILS.(externalTransactionID := c.operationID, paymentSystem := "PAYANYWAY", providerStatus := "paid",
                  fraudCheckResult := "PASSED"),
      None)
  }

  function PayLoaded(t: Transactions, c: PayCall, now: Time): PaymentResponse {
    match FindByPayment(t, c.merchantID, c.paymentID)
    case Some(tx) => if Unmarshal(tx.payload).Some? then Unmarshal(tx.payload).value else PayBuilt(c, now)
    case None => PayBuilt(c, now)
  }

  function PayUpdated(loaded: PaymentResponse, c: PayCall, now: Time): PaymentResponse {
    var r := Sanitized(loaded.(
      id := c.paymentID, merchantID := c.merchantID, currentStatus := CAPTURED,
      info := loaded.info.(updatedAt := now),
      details := loaded.details.(externalTransactionID := c.operationID, paymentSystem := "PAYANYWAY",
                                 providerStatus := "paid", paymentURL := ""),
      error := None));
    if r.idempotencyKey == "" then r.(idempotencyKey := FirstNonBlank(c.idempotencyKey, c.transactionID)) else r
  }

  /** Field by field, as the handler overwrites the loaded response. */
  method PayUpdate(loaded: PaymentResponse, c: PayCall, now: Time) returns (resp: PaymentResponse)
    ensures resp == PayUpdated(loaded, c, now)
  {
    resp := loaded.(id := c.paymentID, merchantID := c.merchantID, currentStatus := CAPTURED);
    resp := resp.(info := resp.info.(updatedAt := now));
    resp := resp.(details := resp.details.(externalTransactionID := c.operationID, paymentSystem := "PAYANYWAY",
                                           providerStatus := "paid", paymentURL := ""));
    resp := Sanitized(resp.(error := None));
    if resp.idempotencyKey == "" {
      resp := resp.(idempotencyKey := FirstNonBlank(c.idempotencyKey, c.transactionID));
    }
  }

  function PaySave(loaded: PaymentResponse, c: PayCall, now: Time): SaveCall {
    SaveResponse(PayUpdated(loaded, c, now), now)
  }

  function PayWrites(t: Transactions, c: PayCall, now: Time): Option<SaveCall> {
    if PayIgnored(c) then None else Some(PaySave(PayLoaded(t, c, now), c, now))
  }

  /** One whole Pay URL call on a store. */
  function PayStep(t: Transactions, c: PayCall, now: Time): Transactions {
    Saved(t, PayWrites(t, c, now))
  }

  method LoadOrBuildPay(store: InMemoryTransactionStore, c: PayCall, now: Time) returns (resp: PaymentResponse)
    requires !PayIgnored(c)
    ensures resp == PayLoaded(store.State(), c, now)
  {
    var found := store.GetByPaymentID(c.merchantID, c.paymentID);
    if found.value.Some? && Unmarshal(found.value.value.payload).Some? {
      return Unmarshal(found.value.value.payload).value;
    }
    return PayBuilt(c, now);
  }

  method ServePayAnyWay(store: InMemoryTransactionStore, c: PayCall, now: Time)
    modifies store`byIdempotency, store`byPaymentID
    ensures store.State() == PayStep(old(store.State()), c, now)
  {
    if Blank(c.transactionID) || c.merchantID == "" || c.paymentID == "" {
      return;
    }
    var loaded := LoadOrBuildPay(store, c, now);
    var resp := PayUpdate(loaded, c, now);
    var _ := store.Save(c.merchantID, c.paymentID, resp.idempotencyKey, CAPTURED, Response(resp), now);
  }

  // ---------- Digital rouble scan ----------

  datatype ScanRequest = ScanRequest(
    merchantID: string, paymentID: string, qrID: string, payerWalletID: string, result: string, reason: string)

  /** The status of a scan, with the provider's status and an error code that is empty on success. */
  datatype Decision = Decision(status: string, providerStatus: string, errCode: string, errMsg: string)

  const SETTLED := Decision(CAPTURED, "settled", "", "")

  function TrimmedScan(q: ScanRequest): ScanRequest {
    var result := Lower(Trim(q.result));
    ScanRequest(Trim(q.merchantID), Trim(q.paymentID), Trim(q.qrID), Trim(q.payerWalletID),
                if result == "" then "captured" else result, Trim(q.reason))
  }

  function SandboxResult(result: string, reason: string): Decision {
    var r := Lower(Trim(result));
    if r in ["declined", "reject", "rejected"] then
      Decision(DECLINED, "participant_rejected", "DIGITAL_RUBLE_PAYMENT_DECLINED",
               if reason == "" then "digital ruble payment rejected by participant bank emulator" else reason)
    else if r in ["failed", "error"] then
      Decision(FAILED, "technical_error", "DIGITAL_RUBLE_TECHNICAL_ERROR",
               if reason == "" then "digital ruble participant bank emulator returned technical error" else reason)
    else if r in ["expired", "cancelled", "canceled"] then
      Decision(CANCELLED, "qr_expired", "DIGITAL_RUBLE_QR_EXPIRED",
               if reason == "" then "digital ruble QR code expired before confirmation" else reason)
    else SETTLED
  }

  predicate QrExpired(expiresAt: Option<Time>, now: Time) {
    expiresAt.Some? && now > expiresAt.value
  }

  function PayerWalletID(value: string, c: Customer): string {
    if Trim(value) != "" then Trim(value)
    else if Trim(c.digitalRubleWalletID) != "" then Trim(c.digitalRubleWalletID)
    else if Trim(c.digitalRubleIdentifier) != "" then Trim(c.digitalRubleIdentifier)
    else Trim(c.digitalWalletID)
  }

  function PaymentCheckFromResponse(r: PaymentResponse, walletID: string, messageID: string, nanos: nat): PaymentCheck {
    var category := PrimaryCategory(r.info.items);
    var mark, contractID := Trim(r.details.moneyMark), Trim(r.details.smartContractID);
    PaymentCheck(
      if messageID == "" then NewMessageID(nanos) else messageID, r.merchantID, r.id, Trim(walletID),
      r.info.amount.value, r.info.amount.currency, category,
      if mark == "" then RequiredMoneyMark(category) else mark,
      if contractID == "" then SmartContractID(r.info.digitalRuble.smartContractID) else contractID)
  }

  /** The outcome of the emulated smart contract. */
  function ContractOutcome(r: PaymentResponse, payerWalletID: string, nanos: nat): Outcome<CheckResult> {
    var check := PaymentCheckFromResponse(r, PayerWalletID(payerWalletID, r.info.customer),
                                          r.details.platformMessageID, nanos);
    ProcessPaymentCheckSOAP(BuildPaymentCheckSOAP(check, nanos), nanos)
  }

  function AfterContract(r: PaymentResponse, outcome: Outcome<CheckResult>): PaymentResponse {
    r.(details :=
      match outcome
      case Err(message) => r.details.(smartContractResult := "ERROR", smartContractReason := message)
      case Ok(c) => r.details.(
        moneyMark := c.moneyMark, smartContractID := c.smartContractID, smartContractResult := c.result,
        smartContractReason := c.reason, platformMessageID := c.messageID,
        platformTransport := PLATFORM_TRANSPORT_SOAP, platformSignatureType := SIGNATURE_TYPE_HMAC))
  }

  function ContractDecision(outcome: Outcome<CheckResult>): Decision {
    match outcome
    case Err(message) => Decision(FAILED, "soap_message_processing_failed", "DIGITAL_RUBLE_SOAP_ERROR", message)
    case Ok(c) =>
      if c.allowed then SETTLED
      else Decision(DECLINED, "smart_contract_rejected", "DIGITAL_RUBLE_MARK_RESTRICTION_FAILED", c.reason)
  }

  /** Whether the scan is turned away before anything is decided. */
  predicate ScanRefused(r: PaymentResponse, q: ScanRequest) {
    Upper(Trim(r.details.paymentSystem)) != "DIGITAL_RUBLE"
    || (q.qrID != "" && r.details.qrID != "" && q.qrID != r.details.qrID)
  }

  /** The decision before the smart contract is asked. */
  function FirstDecision(r: PaymentResponse, q: ScanRequest, now: Time): Decision {
    var d := SandboxResult(q.result, q.reason);
    if QrExpired(r.details.qrExpiresAt, now) && d.status == CAPTURED
    then Decision(CANCELLED, "qr_expired", "DIGITAL_RUBLE_QR_EXPIRED",
                  "digital ruble QR code expired before confirmation")
    else d
  }

  predicate AsksContract(d: Decision) {
    d.status == CAPTURED && d.errCode == ""
  }

  function Decided(r: PaymentResponse, d: Decision, now: Time): PaymentResponse {
    Sanitized(r.(
      currentStatus := d.status,
      info := r.info.(updatedAt := now),
      details := r.details.(
        providerStatus := d.providerStatus, paymentURL := "",
        providerErrorCode := if d.errCode != "" then d.providerStatus else "",
        providerErrorMessage := if d.errCode != "" then d.errMsg else "",
        fraudCheckResult := "PASSED"),
      error := if d.errCode != "" then Some(NewGatewayError(d.errCode, d.errMsg)) else None))
  }

  /** The response a scan writes back. */
  function Scanned(r: PaymentResponse, q: ScanRequest, now: Time, nanos: nat): PaymentResponse {
    var first := FirstDecision(r, q, now);
    if AsksContract(first) then
      var outcome := ContractOutcome(r, q.payerWalletID, nanos);
      Decided(AfterContract(r, outcome), ContractDecision(outcome), now)
    else Decided(r, first, now)
  }

  function ScanSave(r: PaymentResponse, s: ScanRequest, now: Time, nanos: nat): SaveCall {
    SaveResponse(Scanned(r, s, now, nanos), now)
  }

  function ScanWrites(t: Transactions, s: ScanRequest, now: Time, nanos: nat): Option<SaveCall> {
    match ScanLoaded(t, s)
    case None => None
    case Some(r) => Some(ScanSave(r, s, now, nanos))
  }

  /** One scan on a store; `q` as it came. */
  function ScanStep(t: Transactions, q: ScanRequest, now: Time, nanos: nat): Transactions {
    Saved(t, ScanWrites(t, TrimmedScan(q), now, nanos))
  }

  /** The response an accepted scan works on. */
  function ScanLoaded(t: Transactions, s: ScanRequest): Option<PaymentResponse> {
    if s.merchantID == "" || s.paymentID == "" then None
    else
      match FindByPayment(t, s.merchantID, s.paymentID)
      case None => None
      case Some(tx) =>
        var loaded := Unmarshal(tx.payload);
        if loaded.None? || ScanRefused(loaded.value, s) then None else loaded
  }

  method CheckSmartContract(r: PaymentResponse, payerWalletID: string, nanos: nat)
    returns (resp: PaymentResponse, decision: Decision)
    ensures var outcome := ContractOutcome(r, payerWalletID, nanos);
            resp == AfterContract(r, outcome) && decision == ContractDecision(outcome)
  {
    var wallet := PayerWalletID(payerWalletID, r.info.customer);
    var check := PaymentCheckFromResponse(r, wallet, r.details.platformMessageID, nanos);
    var envelope := BuildPaymentCheckSOAP(check, nanos);
    var outcome := ProcessPaymentCheckSOAP(envelope, nanos);
    resp := r;
    if outcome.Err? {
      resp := resp.(details := resp.details.(smartContractResult := "ERROR", smartContractReason := outcome.message));
      decision := Decision(FAILED, "soap_message_processing_failed", "DIGITAL_RUBLE_SOAP_ERROR", outcome.message);
      return;
    }
    var c := outcome.value;
    resp := resp.(details := resp.details.(
      moneyMark := c.moneyMark, smartContractID := c.smartContractID, smartContractResult := c.result,
      smartContractReason := c.reason, platformMessageID := c.messageID,
      platformTransport := PLATFORM_TRANSPORT_SOAP, platformSignatureType := SIGNATURE_TYPE_HMAC));
    if !c.allowed {
      decision := Decision(DECLINED, "smart_contract_rejected", "DIGITAL_RUBLE_MARK_RESTRICTION_FAILED", c.reason);
    } else {
      decision := SETTLED;
    }
  }

  method DecideScan(r: PaymentResponse, q: ScanRequest, now: Time, nanos: nat) returns (resp: PaymentResponse)
    ensures resp == Scanned(r, q, now, nanos)
  {
    resp := r;
    var d := SandboxResult(q.result, q.reason);
    if QrExpired(resp.details.qrExpiresAt, now) && d.status == CAPTURED {
      d := Decision(CANCELLED, "qr_expired", "DIGITAL_RUBLE_QR_EXPIRED",
                    "digital ruble QR code expired before confirmation");
    }
    if d.status == CAPTURED && d.errCode == "" {
      resp, d := CheckSmartContract(resp, q.payerWalletID, nanos);
    }
    resp := WriteDecision(resp, d, now);
  }

  method WriteDecision(r: PaymentResponse, d: Decision, now: Time) returns (resp: PaymentResponse)
    ensures resp == Decided(r, d, now)
  {
    resp := r.(currentStatus := d.status, info := r.info.(updatedAt := now));
    resp := resp.(details := resp.details.(
      providerStatus := d.providerStatus, paymentURL := "", providerErrorCode := "", providerErrorMessage := "",
      fraudCheckResult := "PASSED"));
    resp := resp.(error := None);
    if d.errCode != "" {
      resp := resp.(details := resp.details.(providerErrorCode := d.providerStatus, providerErrorMessage := d.errMsg));
      resp := resp.(error := Some(NewGatewayError(d.errCode, d.errMsg)));
    }
    resp := Sanitized(resp);
  }

  method ServeScan(store: InMemoryTransactionStore, request: ScanRequest, now: Time, nanos: nat)
    returns (result: Outcome<PaymentResponse>)
    modifies store`byIdempotency, store`byPaymentID
    ensures store.State() == ScanStep(old(store.State()), request, now, nanos)
    ensures match ScanWrites(old(store.State()), TrimmedScan(request), now, nanos)
            case None => result.Err?
            case Some(c) => (result.Ok? <==> Accepted(c)) && (result.Ok? ==> c.payload == Response(result.value))
  {
    var q := TrimmedScan(request);
    if q.merchantID == "" || q.paymentID == "" {
      return Err("merchant_id and payment_id are required");
    }
    var found := store.GetByPaymentID(q.merchantID, q.paymentID);
    if found.value.None? {
      return Err("payment not found");
    }
    var loaded := Unmarshal(found.value.value.payload);
    if loaded.None? {
      return Err("stored response is invalid");
    }
    if ScanRefused(loaded.value, q) {
      return Err("not a digital ruble payment, or another QR code");
    }
    var resp := DecideScan(loaded.value, q, now, nanos);
    var err := store.Save(resp.merchantID, resp.id, resp.idempotencyKey, resp.currentStatus, Response(resp), now);
    result := if err == None then Ok(resp) else Err("payment storage error");
  }
}
