/** Request normalisation (internal/subsystems/validator/payment_data_validator.go). */
module Validator {
  import opened Text
  import opened Payments

  predicate PhoneNoise(c: char) {
    c in [' ', '-', '(', ')']
  }

  function WithoutNoise(s: string): string {
    if s == "" then "" else if PhoneNoise(s[0]) then WithoutNoise(s[1..]) else [s[0]] + WithoutNoise(s[1..])
  }

  function NormalizedItem(i: Item): Item {
    i.(name := Trim(i.name), category := Lower(Trim(i.category)), vatTag := Trim(i.vatTag),
       paymentMethod := Trim(i.paymentMethod), paymentObject := Trim(i.paymentObject), idInternal := Trim(i.idInternal))
  }

  function NormalizedItems(items: seq<Item>): (r: seq<Item>)
    ensures |r| == |items|
  {
    seq(|items|, i requires 0 <= i < |items| => NormalizedItem(items[i]))
  }

  function NormalizedCustomer(c: Customer): Customer {
    c.(email := Lower(Trim(c.email)), phone := WithoutNoise(Trim(c.phone)), cardNumber := DigitsOnly(c.cardNumber),
       cardDate := Trim(c.cardDate), cvvCode := Trim(c.cvvCode), digitalWalletID := Trim(c.digitalWalletID),
       digitalRubleWalletID := Trim(c.digitalRubleWalletID), digitalRubleAccount := Trim(c.digitalRubleAccount),
       digitalRubleIdentifier := Trim(c.digitalRubleIdentifier))
  }

  function Normalized(req: PaymentRequest): PaymentRequest {
    PaymentRequest(
      Trim(req.merchantID), Trim(req.idempotencyKey), Trim(req.paymentID), Trim(req.currentStatus),
      Money(req.amount.value, Upper(Trim(req.amount.currency))), Trim(req.methodType), NormalizedCustomer(req.customer),
      NormalizedItems(req.items),
      req.digitalRuble.(smartContractID := Trim(req.digitalRuble.smartContractID)),
      req.createdAt, Trim(req.description))
  }

  // ---------- Checks ----------

  predicate LengthIn(s: string, low: nat, high: nat) {
    low <= |s| <= high
  }

  predicate PhoneRu(phone: string) {
    |phone| == 12 && phone[..2] == "+7" && AllDigits(phone[2..])
  }

  predicate ItemPasses(i: Item) {
    && LengthIn(i.name, 1, 128) && 0.0 < i.price <= 1_000_000.0 && 0.0 < i.quantity <= 100_000.0
    && |i.category| <= 64 && |i.vatTag| <= 32 && |i.paymentMethod| <= 32 && |i.paymentObject| <= 32
    && |i.idInternal| <= 64
  }

  /** The required fields, the lengths and the amounts of a normalised request. */
  predicate MeetsLimits(r: PaymentRequest) {
    && LengthIn(r.merchantID, 3, 64) && LengthIn(r.idempotencyKey, 8, 128) && LengthIn(r.paymentID, 3, 64)
    && (r.currentStatus == CREATED || Progressing(r.currentStatus) || Unsuccessful(r.currentStatus))
    && 0.0 < r.amount.value <= 1_000_000.0 && r.amount.currency == "RUB"
    && (forall i <- r.items :: ItemPasses(i)) && |r.digitalRuble.smartContractID| <= 64
    && r.createdAt != ZERO_TIME && LengthIn(r.description, 3, 255)
  }

  /** All checks of a normalised request for the faster payments system whose only customer data is a phone. */
  predicate PassesWithPhone(r: PaymentRequest) {
    && MeetsLimits(r) && r.methodType == METHOD_SBP
    && PhoneRu(r.customer.phone) && r.customer.(phone := "") == NO_CUSTOMER
  }

  /** What the library's tag checks and the method-specific checks say of the normalised request. */
  datatype Checks = Passed | Rejected(message: string) | ContextDone(message: string)

  /** The validated request is the normalised one without its verification code. */
  function Validate(req: PaymentRequest, checks: Checks): Outcome<PaymentRequest> {
    match checks
    case Passed => Ok(SafeRequest(Normalized(req)))
    case Rejected(message) => Err(message)
    case ContextDone(message) => Err(message)
  }

  /** Normalisation rewrites the caller's own item list, unless the context was already done:
      this is the request a rejected call goes on with. */
  function AfterRejection(req: PaymentRequest, checks: Checks): PaymentRequest {
    if checks.Rejected? then SafeRequest(req).(items := NormalizedItems(req.items)) else SafeRequest(req)
  }

  /** A request is validated exactly when its checks pass; it is then the normalised one without its CVV. */
  lemma ValidatedRequest(req: PaymentRequest, checks: Checks)
    ensures Validate(req, checks).Ok? <==> checks.Passed?
    ensures Validate(req, checks).Ok? ==>
              var valid := Validate(req, checks).value;
              valid.customer.cvvCode == ""
              && valid.(customer := valid.customer.(cvvCode := Normalized(req).customer.cvvCode)) == Normalized(req)
    ensures AfterRejection(req, checks).customer == req.customer.(cvvCode := "")
  {
    hide Normalized, NormalizedItems;
  }

  predicate CleanItem(i: Item) {
    && Trimmed(i.name) && Trimmed(i.category) && NoCapitals(i.category) && Trimmed(i.vatTag) && Trimmed(i.paymentMethod)
    && Trimmed(i.paymentObject) && Trimmed(i.idInternal)
  }

  predicate WithoutSeparators(phone: string) {
    forall i :: 0 <= i < |phone| ==> phone[i] !in {' ', '-', '(', ')'}
  }

  predicate CleanCustomer(c: Customer) {
    && Trimmed(c.email) && NoCapitals(c.email) && Trimmed(c.phone) && WithoutSeparators(c.phone)
    && AllDigits(c.cardNumber) && Trimmed(c.cardDate) && Trimmed(c.cvvCode) && Trimmed(c.digitalWalletID)
    && Trimmed(c.digitalRubleWalletID) && Trimmed(c.digitalRubleAccount) && Trimmed(c.digitalRubleIdentifier)
  }

  predicate CleanRequest(r: PaymentRequest) {
    && Trimmed(r.merchantID) && Trimmed(r.idempotencyKey) && Trimmed(r.paymentID) && Trimmed(r.currentStatus)
    && Trimmed(r.amount.currency) && NoSmallLetters(r.amount.currency) && Trimmed(r.methodType)
    && CleanCustomer(r.customer) && (forall i :: 0 <= i < |r.items| ==> CleanItem(r.items[i]))
    && Trimmed(r.digitalRuble.smartContractID) && Trimmed(r.description)
  }

  /** Normalisation leaves alone exactly the requests that are clean field by field. */
  lemma NormalizedFixedPoints(r: PaymentRequest)
    ensures Normalized(r) == r <==> CleanRequest(r)
  {
    hide Trim, Trimmed, Upper, NoSmallLetters, NormalizedCustomer, CleanCustomer, NormalizedItems, CleanItem;
    CaseFixedPoints(Trim(r.amount.currency));
    CustomerFixedPoints(r.customer);
    ItemsFixedPoints(r.items);
    CurrencyFixedPoints(r.amount.currency);
  }

  lemma CurrencyFixedPoints(c: string)
    ensures Upper(Trim(c)) == c <==> Trimmed(c) && NoSmallLetters(c)
  {
    hide Trim, Upper, NoSmallLetters;
    CaseFixedPoints(Trim(c));
    CaseFixedPoints(c);
  }

  lemma LowerFixedPoints(c: string)
    ensures Lower(Trim(c)) == c <==> Trimmed(c) && NoCapitals(c)
  {
    hide Trim, Lower, NoCapitals;
    CaseFixedPoints(Trim(c));
    CaseFixedPoints(c);
  }

  lemma ItemsFixedPoints(items: seq<Item>)
    ensures NormalizedItems(items) == items <==> forall i :: 0 <= i < |items| ==> CleanItem(items[i])
  {
    forall i | 0 <= i < |items| ensures NormalizedItem(items[i]) == items[i] <==> CleanItem(items[i]) {
      ItemFixedPoints(items[i]);
    }
    hide NormalizedItem, CleanItem;
    assert forall i :: 0 <= i < |items| ==> NormalizedItems(items)[i] == NormalizedItem(items[i]);
  }

  lemma ItemFixedPoints(i: Item)
    ensures NormalizedItem(i) == i <==> CleanItem(i)
  {
    hide Trim, Trimmed, Lower, NoCapitals;
    LowerFixedPoints(i.category);
  }

  lemma PhoneFixedPoints(p: string)
    ensures WithoutNoise(Trim(p)) == p <==> Trimmed(p) && WithoutSeparators(p)
  {
    hide Trim, WithoutNoise;
    WithoutNoiseIsClean(Trim(p));
    WithoutNoiseIsShorter(Trim(p));
    var front, back := TrimDropsOnlySpaces(p);
    if |Trim(p)| == |p| {
      assert front == "" && back == "" && front + Trim(p) + back == Trim(p);
    }
  }

  lemma {:induction false} WithoutNoiseIsShorter(s: string)
    ensures |WithoutNoise(s)| <= |s|
  {
    if s != "" { WithoutNoiseIsShorter(s[1..]); }
  }

  lemma CustomerFixedPoints(c: Customer)
    ensures NormalizedCustomer(c) == c <==> CleanCustomer(c)
  {
    hide Trim, Trimmed, Lower, NoCapitals, WithoutNoise, WithoutSeparators, DigitsOnly, AllDigits;
    LowerFixedPoints(c.email);
    PhoneFixedPoints(c.phone);
    DigitsOnlyAreDigits(c.cardNumber);
  }

  lemma {:induction false} WithoutNoiseIsClean(s: string)
    ensures forall i :: 0 <= i < |WithoutNoise(s)| ==> !PhoneNoise(WithoutNoise(s)[i])
    ensures (forall i :: 0 <= i < |s| ==> !PhoneNoise(s[i])) ==> WithoutNoise(s) == s
  {
    if s != "" { WithoutNoiseIsClean(s[1..]); }
  }
}
