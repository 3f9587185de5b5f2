/** What the store holds after a webhook, told from what the provider said (internal/httpapi/webhooks). */
module WebhookOutcomes {
  import opened Text
  import opened Payments
  import opened Decimal
  import opened Store
  import opened DigitalRuble
  import opened Webhooks
  import opened Lifecycle
  import opened Scan
  import opened Validator
  import opened Orchestrator
  import opened CreateOutcomes

  // ---------- YooKassa ----------

  /** The stored transaction tells what the provider said of the payment. */
  predicate YooTells(tx: StoredTx, p: YooPayment, now: Time) {
    tx.payload.Response? && tx.updatedAt == now &&
    var r, said, reason, party := tx.payload.response, Lower(Trim(p.status)), Trim(p.reason), Trim(p.party);
    && tx.status == r.currentStatus
    && (r.currentStatus == "CAPTURED" <==> said == "succeeded")
    && (r.currentStatus == "DECLINED" <==> said == "canceled")
    && (r.currentStatus == "PENDING" <==> said != "succeeded" && said != "canceled")
    && r.id == Trim(p.paymentID) && r.merchantID == Trim(p.merchantID) && r.idempotencyKey == Trim(p.idempotencyKey)
    && r.details.externalTransactionID == p.id && r.details.paymentSystem == "YOOKASSA"
    && r.details.providerStatus == p.status && r.details.paymentURL == ""
    && r.details.cancellationParty == p.party && r.details.cancellationReason == p.reason
    && if said != "canceled" then r.error == None
       else
         var fraud := Lower(reason) == "fraud_suspected";
         && r.error == Some(GatewayError(
              if fraud then "YOOKASSA_FRAUD_SUSPECTED" else "YOOKASSA_PAYMENT_DECLINED",
              Trim(if reason == "" then "payment was canceled by YooKassa"
                   else if party == "" then reason else party + ": " + reason)))
         && r.details.providerErrorCode == reason
         && r.details.providerErrorMessage == (if reason == "" then "payment was canceled by YooKassa" else reason)
         && r.details.fraudCheckResult == if fraud then "BLOCKED_BY_PROVIDER_FRAUD" else "DECLINED_BY_PROVIDER"
  }

  lemma YooCodesAreUpper()
    ensures NewGatewayError("YOOKASSA_FRAUD_SUSPECTED", "").code == "YOOKASSA_FRAUD_SUSPECTED"
    ensures NewGatewayError("YOOKASSA_PAYMENT_DECLINED", "").code == "YOOKASSA_PAYMENT_DECLINED"
  {
    hide NewGatewayError;
    assert Trimmed("YOOKASSA_FRAUD_SUSPECTED") && NoSmallLetters("YOOKASSA_FRAUD_SUSPECTED");
    assert Trimmed("YOOKASSA_PAYMENT_DECLINED") && NoSmallLetters("YOOKASSA_PAYMENT_DECLINED");
    CodeIsKept("YOOKASSA_FRAUD_SUSPECTED", "");
    CodeIsKept("YOOKASSA_PAYMENT_DECLINED", "");
  }

  lemma CodeIsKept(code: string, message: string)
    requires Trimmed(code) && NoSmallLetters(code)
    ensures NewGatewayError(code, message).code == code
  {
    hide Trim, Trimmed, Upper, NoSmallLetters;
    CaseFixedPoints(code);
  }

  lemma TrimmedAlready(s: string)
    ensures Trim(Trim(s)) == Trim(s)
  {
  }

  lemma FraudReason(reason: string)
    ensures EqualFold(Trim(reason), "fraud_suspected") <==> Lower(Trim(reason)) == "fraud_suspected"
  {
    hide Trim, Upper, Lower;
    FoldEither(Trim(reason), "fraud_suspected");
    CaseFixedPoints("fraud_suspected");
  }

  lemma YooStatus(status: string)
    ensures var mapped, said := MapYooKassaStatus(status), Lower(Trim(status));
            && (mapped == "CAPTURED" <==> said == "succeeded") && (mapped == "DECLINED" <==> said == "canceled")
            && (mapped == "PENDING" <==> said != "succeeded" && said != "canceled")
  {
    hide Trim, Lower;
  }

  lemma YooReason(party: string, reason: string)
    ensures var r, fraud := Trim(reason), Lower(Trim(reason)) == "fraud_suspected";
            && YooFraudResult(r) == (if fraud then "BLOCKED_BY_PROVIDER_FRAUD" else "DECLINED_BY_PROVIDER")
            && NewGatewayError(YooErrorCode(r), YooDeclineMessage(party, r))
               == GatewayError(
                    if fraud then "YOOKASSA_FRAUD_SUSPECTED" else "YOOKASSA_PAYMENT_DECLINED",
                    Trim(if r == "" then "payment was canceled by YooKassa"
                         else if Trim(party) == "" then r else Trim(party) + ": " + r))
  {
    YooCodesAreUpper();
    TrimmedAlready(reason);
    FraudReason(Trim(reason));
    hide Trim, Lower, Upper, EqualFold;
  }

  lemma YooUpdatedTells(loaded: PaymentResponse, p: YooPayment, now: Time, createdAt: Time)
    ensures var r := YooUpdated(loaded, p, now);
            YooTells(StoredTx(r.currentStatus, Response(Sanitized(r)), r.idempotencyKey, createdAt, now), p, now)
  {
    hide Trim, Lower, Upper, MaskCardNumber, TokenPreview, EqualFold, MapYooKassaStatus, YooFraudResult, YooErrorCode,
         YooDeclineMessage, NewGatewayError;
    YooStatus(p.status);
    YooReason(p.party, p.reason);
  }

  /** After a notification with its three ids, the record under its key tells what it said. */
  lemma YooOutcome(t: Transactions, p: YooPayment, now: Time)
    requires Trim(p.merchantID) != "" && Trim(p.paymentID) != "" && Trim(p.idempotencyKey) != ""
    ensures var found := FindByKey(YooStep(t, p, now), Trim(p.merchantID), Trim(p.idempotencyKey));
            found.Some? && YooTells(found.value, p, now)
  {
    hide YooUpdated, YooLoaded, YooTells, Sanitized, SaveStep, Trim;
    var r := YooUpdated(YooLoaded(t, p, now), p, now);
    YooIds(YooLoaded(t, p, now), p, now);
    SavedIsFound(t, r, now);
    var tx := FindByKey(YooStep(t, p, now), Trim(p.merchantID), Trim(p.idempotencyKey)).value;
    YooUpdatedTells(YooLoaded(t, p, now), p, now, tx.createdAt);
    SameTells(tx, StoredTx(r.currentStatus, Response(Sanitized(r)), r.idempotencyKey, tx.createdAt, now), p, now);
  }

  lemma SameTells(a: StoredTx, b: StoredTx, p: YooPayment, now: Time)
    requires a.status == b.status && a.payload == b.payload && a.updatedAt == b.updatedAt && YooTells(b, p, now)
    ensures YooTells(a, p, now)
  {
  }

  /** Without one of its ids a notification changes nothing. */
  lemma YooWithoutIds(t: Transactions, p: YooPayment, now: Time)
    requires Trim(p.merchantID) == "" || Trim(p.paymentID) == "" || Trim(p.idempotencyKey) == ""
    ensures YooStep(t, p, now) == t
  {
    hide YooSave, YooLoaded, Trim;
  }

  /** What a notification may change in the details of a payment; the rest is kept. */
  function ProviderPart(kept: Details, written: Details): Details {
    kept.(externalTransactionID := written.externalTransactionID, paymentSystem := written.paymentSystem,
          providerStatus := written.providerStatus, paymentURL := written.paymentURL,
          providerErrorCode := written.providerErrorCode, providerErrorMessage := written.providerErrorMessage,
          cancellationParty := written.cancellationParty, cancellationReason := written.cancellationReason,
          fraudCheckResult := written.fraudCheckResult)
  }

  /** Of a stored clean response the payment's own data stay as they were. */
  predicate KeepsPayment(before: PaymentResponse, after: PaymentResponse, now: Time) {
    after.info == before.info.(updatedAt := now) && after.details == ProviderPart(before.details, after.details)
  }

  lemma YooUpdatedKeeps(loaded: PaymentResponse, p: YooPayment, now: Time)
    requires Clean(loaded)
    ensures KeepsPayment(loaded, Sanitized(YooUpdated(loaded, p, now)), now)
  {
    MaskFixedPoints(loaded.info.customer.cardNumber);
    TokensStay(loaded.details.tokenPreview);
    hide Trim, Lower, Upper, MaskCardNumber, TokenPreview, EqualFold, NewGatewayError;
  }

  lemma TokensStay(preview: string)
    ensures TokenPreview("") == ""
  {
  }

  /** A notification for a stored payment changes nothing but its ids, status, error, time and provider's part. */
  lemma YooKeepsPayment(t: Transactions, p: YooPayment, now: Time, before: PaymentResponse)
    requires Trim(p.merchantID) != "" && Trim(p.paymentID) != "" && Trim(p.idempotencyKey) != ""
    requires YooStored(t, p) == Some(Response(before)) && Clean(before)
    ensures match YooStored(YooStep(t, p, now), p)
            case Some(Response(after)) => KeepsPayment(before, after, now)
            case _ => false
  {
    hide YooUpdated, YooLoaded, YooStored, YooStep, KeepsPayment, Sanitized, Clean, Trim;
    YooStores(t, p, now);
    YooLoadsStored(t, p, now, before);
    YooUpdatedKeeps(before, p, now);
  }

  predicate BuiltFromNotification(r: PaymentResponse, p: YooPayment, now: Time) {
    && r.info.amount == p.amount && r.info.description == p.description && r.info.methodType == METHOD_CARD
    && r.info.items == [] && r.info.createdAt == (if p.createdAt.Some? then p.createdAt.value else now)
  }

  lemma YooUpdatedBuilds(p: YooPayment, now: Time)
    ensures BuiltFromNotification(Sanitized(YooUpdated(YooBuilt(p, now), p, now)), p, now)
  {
    hide Trim, MapYooKassaStatus, MaskCardNumber, TokenPreview, NewGatewayError, YooFraudResult;
  }

  lemma YooLoadsBuilt(t: Transactions, p: YooPayment, now: Time)
    requires YooStored(t, p) == None
    ensures YooLoaded(t, p, now) == YooBuilt(p, now)
  {
    hide YooBuilt, Trim;
  }

  /** For a payment unknown to the store it is built from the notification. */
  lemma YooBuildsPayment(t: Transactions, p: YooPayment, now: Time)
    requires Trim(p.merchantID) != "" && Trim(p.paymentID) != "" && Trim(p.idempotencyKey) != ""
    requires YooStored(t, p) == None
    ensures match YooStored(YooStep(t, p, now), p)
            case Some(Response(r)) => BuiltFromNotification(r, p, now)
            case _ => false
  {
    hide YooStored, YooStep, YooUpdated, YooBuilt, YooLoaded, Sanitized, BuiltFromNotification, Trim;
    YooStores(t, p, now);
    YooLoadsBuilt(t, p, now);
    YooUpdatedBuilds(p, now);
  }

  // ---------- PayAnyWay ----------

  /** The stored transaction says that the operation paid the payment. */
  predicate PayTells(tx: StoredTx, c: PayCall, now: Time) {
    tx.payload.Response? && tx.updatedAt == now &&
    var r := tx.payload.response;
    && tx.status == "CAPTURED" && r.currentStatus == "CAPTURED" && r.error == None
    && r.id == c.paymentID && r.merchantID == c.merchantID && r.idempotencyKey != ""
    && r.details.externalTransactionID == c.operationID && r.details.paymentSystem == "PAYANYWAY"
    && r.details.providerStatus == "paid" && r.details.paymentURL == "" && r.info.updatedAt == now
  }

  lemma PayUpdatedTells(loaded: PaymentResponse, c: PayCall, now: Time)
    requires c.merchantID != "" && c.paymentID != "" && !Blank(c.transactionID)
    ensures var r := PayUpdated(loaded, c, now);
            && r.currentStatus == "CAPTURED" && Sanitized(r).currentStatus == "CAPTURED" && Sanitized(r).error == None
            && Sanitized(r).id == c.paymentID && Sanitized(r).merchantID == c.merchantID
            && Sanitized(r).idempotencyKey != "" && Sanitized(r).details.externalTransactionID == c.operationID
            && Sanitized(r).details.paymentSystem == "PAYANYWAY" && Sanitized(r).details.providerStatus == "paid"
            && Sanitized(r).details.paymentURL == "" && Sanitized(r).info.updatedAt == now
  {
    PayIds(loaded, c, now);
    hide Trim, MaskCardNumber, TokenPreview, FirstNonBlank;
  }

  /** After a Pay URL call with its ids, the payment is stored as captured by the operation named. */
  lemma PayOutcome(t: Transactions, c: PayCall, now: Time)
    requires c.merchantID != "" && c.paymentID != "" && !Blank(c.transactionID)
    ensures var found := FindByPayment(PayStep(t, c, now), c.merchantID, c.paymentID);
            found.Some? && PayTells(found.value, c, now)
  {
    hide PayUpdated, PayLoaded, Sanitized, SaveStep, Trim;
    var r := PayUpdated(PayLoaded(t, c, now), c, now);
    PayIds(PayLoaded(t, c, now), c, now);
    SavedIsFoundByPayment(t, r, now);
    PayUpdatedTells(PayLoaded(t, c, now), c, now);
  }

  /** Without one of its ids it changes nothing. */
  lemma PayWithoutIds(t: Transactions, c: PayCall, now: Time)
    requires c.merchantID == "" || c.paymentID == "" || Blank(c.transactionID)
    ensures PayStep(t, c, now) == t
  {
    hide PaySave, PayLoaded, Blank;
  }

  lemma PayUpdatedKeeps(loaded: PaymentResponse, c: PayCall, now: Time)
    requires Clean(loaded)
    ensures var after := Sanitized(PayUpdated(loaded, c, now));
            && KeepsPayment(loaded, after, now)
            && (loaded.idempotencyKey != "" ==> after.idempotencyKey == loaded.idempotencyKey)
  {
    MaskFixedPoints(loaded.info.customer.cardNumber);
    TokensStay(loaded.details.tokenPreview);
    hide Trim, MaskCardNumber, TokenPreview, FirstNonBlank;
  }

  /** A Pay URL call for a stored payment keeps the payment's own data and its idempotency key. */
  lemma PayKeepsPayment(t: Transactions, c: PayCall, now: Time, before: PaymentResponse)
    requires c.merchantID != "" && c.paymentID != "" && !Blank(c.transactionID)
    requires PayStored(t, c) == Some(Response(before)) && Clean(before)
    ensures match PayStored(PayStep(t, c, now), c)
            case Some(Response(after)) =>
              KeepsPayment(before, after, now)
              && (before.idempotencyKey != "" ==> after.idempotencyKey == before.idempotencyKey)
            case _ => false
  {
    hide PayUpdated, PayLoaded, PayStored, PayStep, KeepsPayment, Sanitized, Clean;
    PayStores(t, c, now);
    PayLoadsStored(t, c, now, before);
    PayUpdatedKeeps(before, c, now);
  }

  predicate BuiltFromCall(r: PaymentResponse, c: PayCall, now: Time) {
    && r.info.amount.value == c.amount.value
    && r.info.amount.currency == (if Blank(c.amount.currency) then "RUB" else c.amount.currency)
    && r.info.methodType == METHOD_SBP && r.info.items == [] && r.info.createdAt == now
    && r.info.description == "PayAnyWay payment" && r.idempotencyKey == c.transactionID
    && r.details.fraudCheckResult == "PASSED"
  }

  lemma PayUpdatedBuilds(c: PayCall, now: Time)
    requires !Blank(c.transactionID)
    ensures BuiltFromCall(Sanitized(PayUpdated(PayBuilt(c, now), c, now)), c, now)
  {
    assert !Blank("RUB") && c.transactionID != "";
    hide Trim, MaskCardNumber, TokenPreview, Blank;
  }

  lemma PayLoadsBuilt(t: Transactions, c: PayCall, now: Time)
    requires PayStored(t, c) == None
    ensures PayLoaded(t, c, now) == PayBuilt(c, now)
  {
    hide PayBuilt;
  }

  /** For a payment unknown to the store it is built from the call, in roubles if no currency is given. */
  lemma PayBuildsPayment(t: Transactions, c: PayCall, now: Time)
    requires c.merchantID != "" && c.paymentID != "" && !Blank(c.transactionID)
    requires PayStored(t, c) == None
    ensures match PayStored(PayStep(t, c, now), c)
            case Some(Response(r)) => BuiltFromCall(r, c, now)
            case _ => false
  {
    hide PayStored, PayStep, PayUpdated, PayBuilt, PayLoaded, Sanitized, BuiltFromCall, Blank;
    assert !PayIgnored(c);
    PayStores(t, c, now);
    PayLoadsBuilt(t, c, now);
    PayUpdatedBuilds(c, now);
  }

  // ---------- Digital rouble scans ----------

  /** The wallet a scan is paid from: the payer's own if it is named, else the customer's first. */
  lemma PayerIsFirst(payer: string, c: Customer)
    ensures IsFirstNonBlank([payer, c.digitalRubleWalletID, c.digitalRubleIdentifier, c.digitalWalletID],
                            PayerWalletID(payer, c))
  {
    hide Trim;
    var values := [payer, c.digitalRubleWalletID, c.digitalRubleIdentifier, c.digitalWalletID];
    assert values[0] == payer && values[1] == c.digitalRubleWalletID && values[2] == c.digitalRubleIdentifier
           && values[3] == c.digitalWalletID;
  }

  lemma FirstIsUnique(values: seq<string>, a: string, b: string)
    requires IsFirstNonBlank(values, a) && IsFirstNonBlank(values, b)
    ensures a == b
  {
    hide Trim;
    if a != "" && b != "" {
      var i :| 0 <= i < |values| && a == Trim(values[i]) && forall j :: 0 <= j < i ==> Blank(values[j]);
      var k :| 0 <= k < |values| && b == Trim(values[k]) && forall j :: 0 <= j < k ==> Blank(values[j]);
      assert !Blank(values[i]) && !Blank(values[k]);
    }
  }

  /** The error with its code and message, and the provider's part of the response beside it. */
  predicate Refuses(r: PaymentResponse, status: string, providerStatus: string, code: string, message: string) {
    && r.currentStatus == status && r.error == Some(GatewayError(code, Trim(message)))
    && r.details.providerStatus == providerStatus && r.details.providerErrorCode == providerStatus
    && r.details.providerErrorMessage == message && r.details.paymentURL == "" && r.details.fraudCheckResult == "PASSED"
  }

  predicate Settles(r: PaymentResponse) {
    && r.currentStatus == "CAPTURED" && r.error == None
    && r.details.providerStatus == "settled"
    && r.details.providerErrorCode == "" && r.details.providerErrorMessage == ""
    && r.details.paymentURL == "" && r.details.fraudCheckResult == "PASSED"
  }

  predicate SaysDeclined(said: string) {
    said == "declined" || said == "reject" || said == "rejected"
  }

  predicate SaysFailed(said: string) {
    said == "failed" || said == "error"
  }

  predicate SaysExpired(said: string) {
    said == "expired" || said == "cancelled" || said == "canceled"
  }

  function Or(reason: string, default_: string): string {
    if reason == "" then default_ else reason
  }

  /** What the contract wrote of the wallet. */
  predicate ContractSays(d: Details, allowed: bool, wallet: string, valid: PaymentRequest) {
    && d.smartContractResult == (if allowed then "PASSED" else "DECLINED")
    && ReasonFits(d.smartContractReason, wallet, RequiredMoneyMark(PrimaryCategory(valid.items)),
                  Rounded(valid.amount.value), PrimaryCategory(valid.items))
  }

  /** The wallet has the marked money for the rounded amount and pays, or is declined. */
  predicate PaidOrLacking(r: PaymentResponse, valid: PaymentRequest, wallet: string) {
    if WalletMarkedBalance(wallet, RequiredMoneyMark(PrimaryCategory(valid.items))) >= Rounded(valid.amount.value)
    then Settles(r) && ContractSays(r.details, true, wallet, valid)
    else
      && Refuses(r, "DECLINED", "smart_contract_rejected", "DIGITAL_RUBLE_MARK_RESTRICTION_FAILED",
                 r.details.smartContractReason)
      && ContractSays(r.details, false, wallet, valid)
  }

  /** What an accepted scan of an issued payment writes: by what the bank said, else by the QR code's expiry, else by
      the marked balance of the wallet it is paid from. */
  predicate ScanTells(r: PaymentResponse, said: string, reason: string, now: Time, valid: PaymentRequest, qr: QrCode,
                      wallet: string) {
    if SaysDeclined(said) then
      Refuses(r, "DECLINED", "participant_rejected", "DIGITAL_RUBLE_PAYMENT_DECLINED",
              Or(reason, "digital ruble payment rejected by participant bank emulator"))
    else if SaysFailed(said) then
      Refuses(r, "FAILED", "technical_error", "DIGITAL_RUBLE_TECHNICAL_ERROR",
              Or(reason, "digital ruble participant bank emulator returned technical error"))
    else if SaysExpired(said) then
      Refuses(r, "CANCELLED", "qr_expired", "DIGITAL_RUBLE_QR_EXPIRED",
              Or(reason, "digital ruble QR code expired before confirmation"))
    else if qr.expiresAt.Some? && now > qr.expiresAt.value then
      Refuses(r, "CANCELLED", "qr_expired", "DIGITAL_RUBLE_QR_EXPIRED",
              "digital ruble QR code expired before confirmation")
    else PaidOrLacking(r, valid, wallet)
  }

  lemma ScanCodesAreUpper()
    ensures NewGatewayError("DIGITAL_RUBLE_PAYMENT_DECLINED", "").code == "DIGITAL_RUBLE_PAYMENT_DECLINED"
    ensures NewGatewayError("DIGITAL_RUBLE_TECHNICAL_ERROR", "").code == "DIGITAL_RUBLE_TECHNICAL_ERROR"
  {
    hide NewGatewayError;
    assert Trimmed("DIGITAL_RUBLE_PAYMENT_DECLINED") && NoSmallLetters("DIGITAL_RUBLE_PAYMENT_DECLINED");
    assert Trimmed("DIGITAL_RUBLE_TECHNICAL_ERROR") && NoSmallLetters("DIGITAL_RUBLE_TECHNICAL_ERROR");
    CodeIsKept("DIGITAL_RUBLE_PAYMENT_DECLINED", "");
    CodeIsKept("DIGITAL_RUBLE_TECHNICAL_ERROR", "");
  }

  lemma ExpiryCodeIsUpper()
    ensures NewGatewayError("DIGITAL_RUBLE_QR_EXPIRED", "").code == "DIGITAL_RUBLE_QR_EXPIRED"
  {
    hide NewGatewayError;
    assert Trimmed("DIGITAL_RUBLE_QR_EXPIRED") && NoSmallLetters("DIGITAL_RUBLE_QR_EXPIRED");
    CodeIsKept("DIGITAL_RUBLE_QR_EXPIRED", "");
  }

  lemma MarkCodeIsUpper()
    ensures NewGatewayError("DIGITAL_RUBLE_MARK_RESTRICTION_FAILED", "").code == "DIGITAL_RUBLE_MARK_RESTRICTION_FAILED"
  {
    hide NewGatewayError;
    assert Trimmed("DIGITAL_RUBLE_MARK_RESTRICTION_FAILED") && NoSmallLetters("DIGITAL_RUBLE_MARK_RESTRICTION_FAILED");
    CodeIsKept("DIGITAL_RUBLE_MARK_RESTRICTION_FAILED", "");
  }

  lemma DecidedRefuses(r: PaymentResponse, d: Decision, now: Time)
    requires d.errCode != "" && NewGatewayError(d.errCode, "").code == d.errCode
    ensures Refuses(Decided(r, d, now), d.status, d.providerStatus, d.errCode, d.errMsg)
    ensures Decided(r, d, now).details.smartContractReason == r.details.smartContractReason
            && Decided(r, d, now).details.smartContractResult == r.details.smartContractResult
  {
    hide Trim, Upper, MaskCardNumber, TokenPreview;
  }

  lemma DecidedSettles(r: PaymentResponse, now: Time)
    ensures Settles(Decided(r, SETTLED, now))
    ensures Decided(r, SETTLED, now).details.smartContractReason == r.details.smartContractReason
            && Decided(r, SETTLED, now).details.smartContractResult == r.details.smartContractResult
  {
    hide Trim, Upper, MaskCardNumber, TokenPreview;
  }

  lemma SandboxDeclines(result: string, reason: string)
    requires SaysDeclined(Lower(Trim(result)))
    ensures SandboxResult(result, reason)
            == Decision(DECLINED, "participant_rejected", "DIGITAL_RUBLE_PAYMENT_DECLINED",
                        Or(reason, "digital ruble payment rejected by participant bank emulator"))
  {
    hide Trim, Lower;
  }

  lemma SandboxFails(result: string, reason: string)
    requires SaysFailed(Lower(Trim(result)))
    ensures SandboxResult(result, reason)
            == Decision(FAILED, "technical_error", "DIGITAL_RUBLE_TECHNICAL_ERROR",
                        Or(reason, "digital ruble participant bank emulator returned technical error"))
  {
    hide Trim, Lower;
  }

  lemma SandboxExpires(result: string, reason: string)
    requires SaysExpired(Lower(Trim(result)))
    ensures SandboxResult(result, reason)
            == Decision(CANCELLED, "qr_expired", "DIGITAL_RUBLE_QR_EXPIRED",
                        Or(reason, "digital ruble QR code expired before confirmation"))
  {
    hide Trim, Lower;
  }

  lemma SandboxCaptures(result: string, reason: string)
    requires var said := Lower(Trim(result)); !SaysDeclined(said) && !SaysFailed(said) && !SaysExpired(said)
    ensures SandboxResult(result, reason) == SETTLED
  {
    hide Trim, Lower;
  }

  lemma ExpiredFirst(r: PaymentResponse, q: ScanRequest, now: Time)
    requires SandboxResult(q.result, q.reason) == SETTLED
    ensures FirstDecision(r, q, now)
            == if r.details.qrExpiresAt.Some? && now > r.details.qrExpiresAt.value
               then Decision(CANCELLED, "qr_expired", "DIGITAL_RUBLE_QR_EXPIRED",
                             "digital ruble QR code expired before confirmation")
               else SETTLED
  {
    hide SandboxResult;
  }

  lemma OtherwiseFirst(r: PaymentResponse, q: ScanRequest, now: Time)
    requires SandboxResult(q.result, q.reason).status != CAPTURED
    ensures FirstDecision(r, q, now) == SandboxResult(q.result, q.reason)
  {
    hide SandboxResult;
  }

  lemma RefusedScan(r: PaymentResponse, q: ScanRequest, now: Time, nanos: nat)
    requires !AsksContract(FirstDecision(r, q, now))
    ensures Scanned(r, q, now, nanos) == Decided(r, FirstDecision(r, q, now), now)
  {
    hide FirstDecision, Decided;
  }

  lemma SaidTells(r: PaymentResponse, q: ScanRequest, now: Time, nanos: nat, valid: PaymentRequest, qr: QrCode,
                  wallet: string)
    requires var said := Lower(Trim(q.result)); SaysDeclined(said) || SaysFailed(said) || SaysExpired(said)
    ensures ScanTells(Scanned(r, q, now, nanos), Lower(Trim(q.result)), q.reason, now, valid, qr, wallet)
  {
    var said := Lower(Trim(q.result));
    hide Trim, Lower, SandboxResult, FirstDecision, Decided, Scanned, SaysDeclined, SaysFailed, SaysExpired, Refuses,
         ContractSays, WalletMarkedBalance, RequiredMoneyMark, PrimaryCategory, Rounded, NewGatewayError, Or;
    ScanCodesAreUpper();
    ExpiryCodeIsUpper();
    if SaysDeclined(said) {
      SandboxDeclines(q.result, q.reason);
    } else if SaysFailed(said) {
      SandboxFails(q.result, q.reason);
    } else {
      SandboxExpires(q.result, q.reason);
    }
    OtherwiseFirst(r, q, now);
    RefusedScan(r, q, now, nanos);
    DecidedRefuses(r, SandboxResult(q.result, q.reason), now);
  }

  lemma ExpiredTells(r: PaymentResponse, q: ScanRequest, now: Time, nanos: nat, valid: PaymentRequest, qr: QrCode,
                     wallet: string)
    requires var said := Lower(Trim(q.result)); !SaysDeclined(said) && !SaysFailed(said) && !SaysExpired(said)
    requires r.details.qrExpiresAt == qr.expiresAt && qr.expiresAt.Some? && now > qr.expiresAt.value
    ensures ScanTells(Scanned(r, q, now, nanos), Lower(Trim(q.result)), q.reason, now, valid, qr, wallet)
  {
    hide Trim, Lower, SandboxResult, FirstDecision, Decided, Scanned, SaysDeclined, SaysFailed, SaysExpired, Refuses,
         ContractSays, WalletMarkedBalance, RequiredMoneyMark, PrimaryCategory, Rounded, NewGatewayError;
    ExpiryCodeIsUpper();
    SandboxCaptures(q.result, q.reason);
    ExpiredFirst(r, q, now);
    RefusedScan(r, q, now, nanos);
    DecidedRefuses(r, FirstDecision(r, q, now), now);
  }

  lemma AskedScan(r: PaymentResponse, q: ScanRequest, now: Time, nanos: nat)
    requires FirstDecision(r, q, now) == SETTLED
    ensures var outcome := ContractOutcome(r, q.payerWalletID, nanos);
            Scanned(r, q, now, nanos) == Decided(AfterContract(r, outcome), ContractDecision(outcome), now)
  {
    hide FirstDecision, Decided, ContractOutcome, AfterContract, ContractDecision;
  }

  lemma ContractDecides(r: PaymentResponse, outcome: Outcome<CheckResult>)
    requires outcome.Ok?
    ensures ContractDecision(outcome)
            == if outcome.value.allowed then SETTLED
               else Decision(DECLINED, "smart_contract_rejected", "DIGITAL_RUBLE_MARK_RESTRICTION_FAILED",
                             outcome.value.reason)
    ensures AfterContract(r, outcome).details.smartContractReason == outcome.value.reason
            && AfterContract(r, outcome).details.smartContractResult == outcome.value.result
  {
  }

  lemma ContractTells(r: PaymentResponse, q: ScanRequest, now: Time, nanos: nat, valid: PaymentRequest, qr: QrCode)
    requires Issued(r, valid, qr) && Proper(valid) && FirstDecision(r, q, now) == SETTLED
    ensures PaidOrLacking(Scanned(r, q, now, nanos), valid, PayerWalletID(q.payerWalletID, valid.customer))
  {
    var outcome := ContractOutcome(r, q.payerWalletID, nanos);
    hide Trim, Lower, FirstDecision, Decided, Scanned, Refuses, Settles, ReasonFits, WalletMarkedBalance,
         RequiredMoneyMark, PrimaryCategory, Rounded, NewGatewayError, PayerWalletID, ContractOutcome, AfterContract,
         ContractDecision, Issued, Proper;
    MarkCodeIsUpper();
    AskedScan(r, q, now, nanos);
    ContractOfIssued(r, valid, qr, q.payerWalletID, nanos);
    ContractDecides(r, outcome);
    if outcome.value.allowed {
      DecidedSettles(AfterContract(r, outcome), now);
    } else {
      DecidedRefuses(AfterContract(r, outcome), ContractDecision(outcome), now);
    }
  }

  lemma ScannedTells(r: PaymentResponse, q: ScanRequest, now: Time, nanos: nat, valid: PaymentRequest, qr: QrCode)
    requires Issued(r, valid, qr) && Proper(valid)
    ensures ScanTells(Scanned(r, q, now, nanos), Lower(Trim(q.result)), q.reason, now, valid, qr,
                      PayerWalletID(q.payerWalletID, valid.customer))
  {
    var said, wallet := Lower(Trim(q.result)), PayerWalletID(q.payerWalletID, valid.customer);
    assert r.details.qrExpiresAt == qr.expiresAt;
    hide Trim, Lower, FirstDecision, Scanned, Refuses, Settles, ContractSays, WalletMarkedBalance, RequiredMoneyMark,
         PrimaryCategory, Rounded, PayerWalletID, Issued, Proper, SaysDeclined, SaysFailed, SaysExpired, Or,
         SandboxResult, PaidOrLacking;
    if SaysDeclined(said) || SaysFailed(said) || SaysExpired(said) {
      SaidTells(r, q, now, nanos, valid, qr, wallet);
    } else if qr.expiresAt.Some? && now > qr.expiresAt.value {
      ExpiredTells(r, q, now, nanos, valid, qr, wallet);
    } else {
      SandboxCaptures(q.result, q.reason);
      ExpiredFirst(r, q, now);
      ContractTells(r, q, now, nanos, valid, qr);
    }
  }

  /** What the bank said, as the handler reads it: nothing counts as a capture. */
  function Said(q: ScanRequest): string {
    if Blank(q.result) then "captured" else Lower(Trim(q.result))
  }

  lemma TrimmedScanKeeps(q: ScanRequest)
    ensures Lower(Trim(TrimmedScan(q).result)) == Said(q)
    ensures TrimmedScan(q).payerWalletID == Trim(q.payerWalletID)
    ensures TrimmedScan(q).merchantID == Trim(q.merchantID) && TrimmedScan(q).paymentID == Trim(q.paymentID)
    ensures TrimmedScan(q).qrID == Trim(q.qrID) && TrimmedScan(q).reason == Trim(q.reason)
  {
    LowerOfTrimmed(q.result);
    assert Lower("captured") == "captured" && Trimmed("captured");
    hide Trim;
  }

  lemma LowerOfTrimmed(s: string)
    ensures Lower(Trim(Lower(Trim(s)))) == Lower(Trim(s))
  {
    CaseFixedPoints(Trim(s));
    CaseFixedPoints(Lower(Trim(s)));
    hide TrimLeft, TrimRight;
  }

  /** A scan of an issued payment that names no other QR code leaves under it what was said, expired or paid. */
  lemma ScanOutcome(t: Transactions, q: ScanRequest, now: Time, nanos: nat, valid: PaymentRequest, qr: QrCode,
                    wallet: string)
    requires GoodStore(t) && HoldsIssue(t, valid, qr) && Proper(valid)
    requires Trim(q.merchantID) == valid.merchantID && Trim(q.paymentID) == valid.paymentID
    requires Trim(q.qrID) == "" || qr.id == "" || Trim(q.qrID) == qr.id
    requires IsFirstNonBlank([q.payerWalletID, valid.customer.digitalRubleWalletID,
                              valid.customer.digitalRubleIdentifier, valid.customer.digitalWalletID], wallet)
    ensures var found := FindByPayment(ScanStep(t, q, now, nanos), valid.merchantID, valid.paymentID);
            && found.Some? && found.value.payload.Response?
            && found.value.status == found.value.payload.response.currentStatus
            && ScanTells(found.value.payload.response, Said(q), Trim(q.reason), now, valid, qr, wallet)
  {
    hide GoodStore, HoldsIssue, ScanLoaded, TrimmedScan, Proper, ScanStep, ScanTells, IsFirstNonBlank, Trim, Said,
         SaveStep, Sanitized, Scanned, ScanSave;
    var s := TrimmedScan(q);
    TrimmedScanKeeps(q);
    AcceptedIffQrNamed(t, s, valid, qr);
    var r := ScanLoaded(t, s).value;
    ScanStepOf(t, ScanCall(q, now, nanos), ScanLoaded(t, s));
    WalletOfTrimmed(q.payerWalletID, valid.customer, wallet);
    ScannedTells(r, s, now, nanos, valid, qr);
    SanitizedTells(Scanned(r, s, now, nanos), Said(q), Trim(q.reason), now, valid, qr, wallet);
    ScanSaveIsFound(t, r, s, now, nanos, valid, qr);
  }

  lemma WalletOfTrimmed(payer: string, c: Customer, wallet: string)
    requires IsFirstNonBlank([payer, c.digitalRubleWalletID, c.digitalRubleIdentifier, c.digitalWalletID], wallet)
    ensures wallet == PayerWalletID(Trim(payer), c)
  {
    TrimmedAlready(payer);
    PayerIsFirst(payer, c);
    FirstIsUnique([payer, c.digitalRubleWalletID, c.digitalRubleIdentifier, c.digitalWalletID], wallet,
                  PayerWalletID(payer, c));
    hide Trim;
  }

  lemma ScanSaveIsFound(t: Transactions, r: PaymentResponse, s: ScanRequest, now: Time, nanos: nat,
                        valid: PaymentRequest, qr: QrCode)
    requires Issued(r, valid, qr) && Proper(valid)
    ensures var found := FindByPayment(SaveStep(t, ScanSave(r, s, now, nanos)), valid.merchantID, valid.paymentID);
            && found.Some? && found.value.payload == Response(Sanitized(Scanned(r, s, now, nanos)))
            && found.value.status == Scanned(r, s, now, nanos).currentStatus
  {
    hide Scanned, SaveStep, Trim, Sanitized, ErrorFits, Clean;
    ScanSaveIds(r, s, now, nanos);
    ScanIsSound(r, s, now, nanos);
    SoundSaveIsFound(t, ScanSave(r, s, now, nanos));
  }

  lemma SanitizedTells(r: PaymentResponse, said: string, reason: string, now: Time, valid: PaymentRequest, qr: QrCode,
                       wallet: string)
    ensures Sanitized(r).currentStatus == r.currentStatus
    ensures ScanTells(r, said, reason, now, valid, qr, wallet) ==>
              ScanTells(Sanitized(r), said, reason, now, valid, qr, wallet)
  {
    hide SaysDeclined, SaysFailed, SaysExpired, PaidOrLacking, MaskCardNumber, TokenPreview, Or, Trim;
    SanitizedPays(r, valid, wallet);
  }

  lemma SanitizedPays(r: PaymentResponse, valid: PaymentRequest, wallet: string)
    ensures Sanitized(r).currentStatus == r.currentStatus
    ensures PaidOrLacking(r, valid, wallet) ==> PaidOrLacking(Sanitized(r), valid, wallet)
  {
    hide WalletMarkedBalance, RequiredMoneyMark, PrimaryCategory, Rounded, MaskCardNumber, TokenPreview, ReasonFits,
         Trim;
  }

  /** A payer named in the scan pays, whatever wallets the customer has. */
  lemma NamedPayerPays(payer: string, c: Customer)
    requires !Blank(payer)
    ensures IsFirstNonBlank([payer, c.digitalRubleWalletID, c.digitalRubleIdentifier, c.digitalWalletID], Trim(payer))
  {
    var values := [payer, c.digitalRubleWalletID, c.digitalRubleIdentifier, c.digitalWalletID];
    assert values[0] == payer;
    hide Trim;
  }

  /** A payment of another rail is not scanned. */
  lemma OtherRailsAreRefused(t: Transactions, q: ScanRequest, now: Time, nanos: nat, tx: StoredTx)
    requires FindByPayment(t, Trim(q.merchantID), Trim(q.paymentID)) == Some(tx) && tx.payload.Response?
    requires Upper(Trim(tx.payload.response.details.paymentSystem)) != "DIGITAL_RUBLE"
    ensures ScanStep(t, q, now, nanos) == t
  {
    TrimmedScanKeeps(q);
    hide Trim, Upper, TrimmedScan, ScanSave;
  }

  lemma FirstOfTexts(a: string, b: string, c: string)
    ensures IsFirstNonBlank([a, b], if Trim(a) != "" then Trim(a) else Trim(b))
    ensures IsFirstNonBlank([a, b, c], if Trim(a) != "" then Trim(a) else if Trim(b) != "" then Trim(b) else Trim(c))
  {
    hide Trim;
    assert [a, b][0] == a && [a, b][1] == b;
    assert [a, b, c][0] == a && [a, b, c][1] == b && [a, b, c][2] == c;
  }

  lemma DefaultContract()
    ensures Trim(DEFAULT_SMART_CONTRACT_ID) == DEFAULT_SMART_CONTRACT_ID
  {
    assert Trimmed(DEFAULT_SMART_CONTRACT_ID);
    hide Trim;
  }

  /** What a scan checks of a response: the mark and the contract written in it, or else those its items and its
      request ask for; under its message id, or a new one. */
  lemma CheckOfResponse(r: PaymentResponse, wallet: string, messageID: string, nanos: nat)
    ensures var c := PaymentCheckFromResponse(r, wallet, messageID, nanos);
            && c.merchantID == r.merchantID && c.paymentID == r.id && c.walletID == Trim(wallet)
            && c.amount == r.info.amount.value && c.currency == r.info.amount.currency
            && c.category == PrimaryCategory(r.info.items)
            && IsFirstNonBlank([r.details.moneyMark, RequiredMoneyMark(PrimaryCategory(r.info.items))], c.moneyMark)
            && IsFirstNonBlank([r.details.smartContractID, r.info.digitalRuble.smartContractID,
                                DEFAULT_SMART_CONTRACT_ID], c.smartContractID)
            && c.messageID == if messageID == "" then NewMessageID(nanos) else messageID
  {
    var mark := RequiredMoneyMark(PrimaryCategory(r.info.items));
    MarkIsNormal(mark);
    DefaultContract();
    assert Trim(mark) == mark;
    hide Trim, RequiredMoneyMark, PrimaryCategory, NewMessageID, Upper, IsFirstNonBlank;
    FirstOfTexts(r.details.moneyMark, mark, "");
    FirstOfTexts(r.details.smartContractID, r.info.digitalRuble.smartContractID, DEFAULT_SMART_CONTRACT_ID);
  }

  // ---------- QR issue ----------

  /** What the adapter answers for a payment request. */
  lemma SentQr(valid: PaymentRequest, issue: Issue)
    ensures var a := SendDigitalRuble(valid, issue);
            && a.status == "PENDING" && a.providerStatus == "qr_issued" && a.paymentSystem == "DIGITAL_RUBLE"
            && a.errorCode == "" && a.errorMessage == "" && a.externalTransactionID == issue.externalID
            && a.paymentURL == issue.paymentURL && a.qrID == issue.qrID && a.qrPayload == issue.qrPayload
            && a.qrImageDataURI == issue.qrImage && a.qrExpiresAt == issue.expiresAt
            && a.participantBank == issue.participantBank && a.schemaVersion == issue.schemaVersion
            && a.smartContractResult == "PENDING" && a.platformMessageID == NewMessageID(issue.nanos)
            && a.platformTransport == "SOAP/XML sandbox" && a.platformSignatureType == "HMAC-SHA256-EMULATION"
            && a.moneyMark == RequiredMoneyMark(PrimaryCategory(valid.items))
  {
    hide Trim, RequiredMoneyMark, PrimaryCategory, NewMessageID, PayerWalletID, SmartContractID;
  }

  lemma SentContract(valid: PaymentRequest, issue: Issue)
    ensures IsFirstNonBlank([valid.digitalRuble.smartContractID, DEFAULT_SMART_CONTRACT_ID],
                            SendDigitalRuble(valid, issue).smartContractID)
  {
    DefaultContract();
    hide Trim, RequiredMoneyMark, PrimaryCategory, NewMessageID, PayerWalletID, IsFirstNonBlank;
    FirstOfTexts(valid.digitalRuble.smartContractID, DEFAULT_SMART_CONTRACT_ID, "");
  }

  /** CreatePayment through this adapter sends once and answers a pending payment with the QR code issued. */
  lemma QrIsAnswered(t: Transactions, req: PaymentRequest, env: Env, issue: Issue) returns (r: PaymentResponse)
    requires IsNew(t, req) && ReachesAdapter(env) && env.answers(0) == Ok(SendDigitalRuble(ValidOf(req), issue))
    ensures CreateStep(t, req, env).result == Ok(r) && |CreateStep(t, req, env).sends| == 1
    ensures r.currentStatus == "PENDING" && r.error == None
    ensures CarriesAnswer(r.details, SendDigitalRuble(ValidOf(req), issue), env.route.value.paymentSystem,
                          env.token.value, 0)
  {
    SentQr(ValidOf(req), issue);
    hide CreateStep, IsNew, ReachesAdapter, SendDigitalRuble, CarriesAnswer, CarriesRequest, SaveStep, ValidOf;
    assert Final(env, 0) && IsLast(env, 0);
    r := AnsweredByAdapter(t, req, env, 0);
  }
}
