/** The payment records of internal/dto and their sanitising. */
module Payments {
  import opened Text

  // ---------- Statuses and methods ----------

  const CREATED := "CREATED"
  const PENDING := "PENDING"
  const CAPTURE_REQUESTED := "CAPTURE_REQUESTED"
  const CAPTURED := "CAPTURED"
  const DECLINED := "DECLINED"
  const CANCELLED := "CANCELLED"
  const FAILED := "FAILED"

  const METHOD_SBP := "СБП"
  const METHOD_CARD := "Банковская карта"

  /** The statuses that come without an error object. */
  predicate Progressing(status: string) {
    status == PENDING || status == CAPTURE_REQUESTED || status == CAPTURED
  }

  /** The statuses that come with one. */
  predicate Unsuccessful(status: string) {
    status == DECLINED || status == CANCELLED || status == FAILED
  }

  // ---------- Records ----------

  /** Nanoseconds since the zero time of the clock. */
  type Time = int
  const ZERO_TIME: Time := 0

  datatype Money = Money(value: real, currency: string)

  datatype Item = Item(
    name: string, price: real, quantity: real, category: string, vatTag: string,
    paymentMethod: string, paymentObject: string, idInternal: string)

  datatype Customer = Customer(
    email: string, phone: string, cardNumber: string, cardDate: string, cvvCode: string,
    digitalWalletID: string, digitalRubleWalletID: string, digitalRubleAccount: string,
    digitalRubleIdentifier: string)

  datatype DigitalRubleData = DigitalRubleData(smartContractID: string, requireMarkedMoney: bool)

  datatype PaymentRequest = PaymentRequest(
    merchantID: string, idempotencyKey: string, paymentID: string, currentStatus: string,
    amount: Money, methodType: string, customer: Customer, items: seq<Item>,
    digitalRuble: DigitalRubleData, createdAt: Time, description: string)

  datatype PaymentInfo = PaymentInfo(
    amount: Money, methodType: string, customer: Customer, items: seq<Item>,
    digitalRuble: DigitalRubleData, description: string, createdAt: Time, updatedAt: Time)

  datatype Details = Details(
    externalTransactionID: string, paymentSystem: string, providerStatus: string,
    providerErrorCode: string, providerErrorMessage: string,
    cancellationParty: string, cancellationReason: string,
    paymentURL: string, qrID: string, qrPayload: string, qrImageDataURI: string, qrExpiresAt: Option<Time>,
    participantBank: string, schemaVersion: string, settlementHint: string,
    moneyMark: string, smartContractID: string, smartContractResult: string, smartContractReason: string,
    platformMessageID: string, platformTransport: string, platformSignatureType: string,
    token: string, tokenPreview: string, fraudCheckResult: string, retryCount: int)

  datatype GatewayError = GatewayError(code: string, message: string)

  datatype PaymentResponse = PaymentResponse(
    id: string, merchantID: string, idempotencyKey: string, currentStatus: string,
    info: PaymentInfo, details: Details, error: Option<GatewayError>)

  const NO_CUSTOMER := Customer("", "", "", "", "", "", "", "", "")
  const NO_DIGITAL_RUBLE := DigitalRubleData("", false)
  const NO_DETAILS := Details("", "", "", "", "", "", "", "", "", "", "", None, "", "", "", "", "", "", "", "", "", "",
                              "", "", "", 0)
  const ZERO_RESPONSE := PaymentResponse(
    "", "", "", "",
    PaymentInfo(Money(0.0, ""), "", NO_CUSTOMER, [], NO_DIGITAL_RUBLE, "", ZERO_TIME, ZERO_TIME),
    NO_DETAILS, None)

  function NewGatewayError(code: string, message: string): GatewayError {
    GatewayError(Upper(Trim(code)), Trim(message))
  }

  // ---------- Card masking ----------

  method CollectDigits(value: string) returns (digits: string)
    ensures digits == DigitsOnly(value)
  {
    digits := "";
    for i := 0 to |value|
      invariant digits == DigitsOnly(value[..i])
    {
      assert value[..i + 1] == value[..i] + [value[i]];
      DigitsOnlyAppend(value[..i], [value[i]]);
      if IsDigit(value[i]) {
        digits := digits + [value[i]];
      }
    }
    assert value[..|value|] == value;
  }

  function Stars(n: nat): string {
    seq(n, _ => '*')
  }

  function MaskCardNumber(card: string): string {
    var digits := DigitsOnly(card);
    if |digits| < 10 then ""
    else digits[..6] + Stars(|digits| - 10) + digits[|digits| - 4..]
  }

  lemma {:induction false} StarsHaveNoDigits(s: string)
    requires forall i :: 0 <= i < |s| ==> s[i] == '*'
    ensures DigitsOnly(s) == ""
  {
    if s != "" { StarsHaveNoDigits(s[1..]); }
  }

  lemma DigitsAroundStars(head: string, stars: string, tail: string)
    requires DigitsOnly(head) == head && DigitsOnly(tail) == tail
    requires forall i :: 0 <= i < |stars| ==> stars[i] == '*'
    ensures DigitsOnly(head + stars + tail) == head + tail
  {
    DigitsOnlyAppend(head + stars, tail);
    DigitsOnlyAppend(head, stars);
    StarsHaveNoDigits(stars);
    assert head + "" == head;
  }

  /** A mask keeps ten digits: what a second masking sees. */
  lemma DigitsOfMask(card: string)
    ensures var digits := DigitsOnly(card);
            DigitsOnly(MaskCardNumber(card))
            == if |digits| < 10 then "" else digits[..6] + digits[|digits| - 4..]
  {
    var digits := DigitsOnly(card);
    if |digits| >= 10 {
      DigitsOnlyAreDigits(card);
      DigitsOnlyAreDigits(digits[..6]);
      DigitsOnlyAreDigits(digits[|digits| - 4..]);
      DigitsAroundStars(digits[..6], Stars(|digits| - 10), digits[|digits| - 4..]);
    }
  }

  /** Masking loses its stars on the second application and is stable from then on;
      it is stable at once exactly for cards of at most ten digits. */
  lemma MaskStableFromSecond(card: string)
    ensures var digits := DigitsOnly(card);
            var twice := MaskCardNumber(MaskCardNumber(card));
            && twice == (if |digits| < 10 then "" else digits[..6] + digits[|digits| - 4..])
            && MaskCardNumber(twice) == twice
            && (twice == MaskCardNumber(card) <==> |digits| <= 10)
  {
    var digits := DigitsOnly(card);
    var once := MaskCardNumber(card);
    var twice := MaskCardNumber(once);
    DigitsOfMask(card);
    DigitsOfMask(once);
    if |digits| >= 10 {
      var ten := digits[..6] + digits[|digits| - 4..];
      assert DigitsOnly(once) == ten && |ten| == 10;
      DigitsOnlyAreDigits(card);
      DigitsOnlyAreDigits(ten);
      assert ten[..6] + Stars(0) + ten[6..] == ten;
      assert DigitsOnly(ten) == ten;
      if |digits| == 10 {
        assert ten == digits && once == ten;
      } else {
        assert |once| == |digits|;
      }
    }
  }

  /** The fixed points of the mask: nothing, or ten bare digits. */
  predicate MaskFixed(card: string) {
    card == "" || (|card| == 10 && AllDigits(card))
  }

  lemma MaskFixedPoints(card: string)
    ensures MaskCardNumber(card) == card <==> MaskFixed(card)
    ensures MaskFixed(MaskCardNumber(MaskCardNumber(card)))
  {
    MaskStableFromSecond(card);
    DigitsOnlyAreDigits(card);
    DigitsOnlyAreDigits(MaskCardNumber(card));
    if MaskFixed(card) && card != "" {
      assert DigitsOnly(card) == card;
      assert card[..6] + Stars(0) + card[6..] == card;
    }
    if MaskCardNumber(card) == card && card != "" {
      assert MaskCardNumber(MaskCardNumber(card)) == card;
    }
  }

  // ---------- Sanitising ----------

  function TokenPreview(token: string): string {
    var t := Trim(token);
    if |t| <= 12 then t else t[..8] + "..." + t[|t| - 4..]
  }

  /** A preview shows short tokens only whole, and of longer ones eight characters in front and four at the end. */
  lemma PreviewHidesMiddle(token: string, other: string)
    ensures var t, p := Trim(token), TokenPreview(token);
            if |t| <= 12 then p == t
            else |p| == 15 && p[..8] == t[..8] && p[8..11] == "..." && p[11..] == t[|t| - 4..]
    ensures var t, u := Trim(token), Trim(other);
            |t| > 12 && |u| > 12 ==>
              (TokenPreview(token) == TokenPreview(other) <==> t[..8] == u[..8] && t[|t| - 4..] == u[|u| - 4..])
  {
    hide Trim;
    PreviewParts(token);
    PreviewParts(other);
  }

  lemma PreviewParts(token: string)
    ensures var t, p := Trim(token), TokenPreview(token);
            |t| > 12 ==> |p| == 15 && p[..8] == t[..8] && p[8..11] == "..." && p[11..] == t[|t| - 4..]
                         && p == p[..8] + p[8..11] + p[11..]
  {
    hide Trim;
    var t, p := Trim(token), TokenPreview(token);
    if |t| > 12 {
      assert p[..8] == t[..8] && p[8..11] == "..." && p[11..] == t[|t| - 4..];
    }
  }

  function WithoutCvv(c: Customer): Customer {
    c.(cvvCode := "")
  }

  function SanitizedCustomer(c: Customer): Customer {
    WithoutCvv(c.(cardNumber := MaskCardNumber(c.cardNumber)))
  }

  function SafeRequest(req: PaymentRequest): PaymentRequest {
    req.(customer := WithoutCvv(req.customer))
  }

  function SanitizedDetails(d: Details): Details {
    d.(tokenPreview := if d.tokenPreview == "" then TokenPreview(d.token) else d.tokenPreview, token := "")
  }

  function Sanitized(r: PaymentResponse): PaymentResponse {
    r.(info := r.info.(customer := SanitizedCustomer(r.info.customer)), details := SanitizedDetails(r.details))
  }

  /** Nothing that must not be stored: no CVV, no full token, a card that masks to itself. */
  predicate Clean(r: PaymentResponse) {
    r.info.customer.cvvCode == "" && r.details.token == "" && MaskFixed(r.info.customer.cardNumber)
  }

  /** Sanitising hides the CVV, all but ten digits of the card and the token, of which a preview stays; nothing else. */
  lemma SanitizedOnlyHides(r: PaymentResponse)
    ensures var s, c := Sanitized(r), r.info.customer;
            && s.info.customer.cvvCode == "" && s.info.customer.cardNumber == MaskCardNumber(c.cardNumber)
            && s.details.token == ""
            && s.details.tokenPreview == (if r.details.tokenPreview != "" then r.details.tokenPreview
                                          else TokenPreview(r.details.token))
            && s.info.customer.(cvvCode := c.cvvCode, cardNumber := c.cardNumber) == c
            && s.info.(customer := c) == r.info
            && s.details.(token := r.details.token, tokenPreview := r.details.tokenPreview) == r.details
            && s.(info := r.info, details := r.details) == r
  {
    hide MaskCardNumber, TokenPreview;
  }

  /** Two sanitisings clean any response; a clean one is unchanged by any more of them. */
  lemma SanitizedTwiceIsClean(r: PaymentResponse)
    ensures Clean(Sanitized(Sanitized(r)))
  {
    MaskFixedPoints(r.info.customer.cardNumber);
  }

  lemma CleanIsStable(r: PaymentResponse)
    ensures Sanitized(r) == r ==> Clean(r)
    ensures Clean(r) ==> Sanitized(r) == r
  {
    MaskFixedPoints(r.info.customer.cardNumber);
    assert Clean(r) ==> SanitizedCustomer(r.info.customer) == r.info.customer;
    assert Clean(r) ==> SanitizedDetails(r.details) == r.details;
    assert Sanitized(r) == r ==> SanitizedCustomer(r.info.customer) == r.info.customer;
    assert Sanitized(r) == r ==> SanitizedDetails(r.details) == r.details;
  }
}
