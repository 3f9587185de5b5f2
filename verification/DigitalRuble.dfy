/** Marked money and the message that carries its check
    (internal/subsystems/digitalruble/marked_money.go and soap.go). */
module DigitalRuble {
  import opened Text
  import opened Payments
  import opened Decimal

  const DEFAULT_SMART_CONTRACT_ID := "SC_MARKED_MONEY_V1"
  const PLATFORM_TRANSPORT_SOAP := "SOAP/XML sandbox"
  const SIGNATURE_TYPE_HMAC := "HMAC-SHA256-EMULATION"

  const GENERAL := "GENERAL"
  const EDUCATION := "EDUCATION"
  const HEALTHCARE := "HEALTHCARE"
  const SOCIAL_FOOD := "SOCIAL_FOOD"
  const TRANSPORT := "TRANSPORT"
  const BUDGET := "BUDGET_TARGETED"

  datatype PaymentCheck = PaymentCheck(
    messageID: string, merchantID: string, paymentID: string, walletID: string, amount: real, currency: string,
    category: string, moneyMark: string, smartContractID: string)

  datatype CheckResult = CheckResult(
    allowed: bool, result: string, reason: string, moneyMark: string, smartContractID: string, walletID: string,
    availableAmount: real, requiredAmount: real, messageID: string)

  /** The clock reading stands in for the generated part. */
  function NewMessageID(nanos: nat): string {
    "drmsg_" + NatText(nanos)
  }

  lemma NewMessageIDIsTrimmed(nanos: nat)
    ensures Trimmed(NewMessageID(nanos)) && NewMessageID(nanos) != ""
  {
    NatTextReads(nanos);
    var id, digits := NewMessageID(nanos), NatText(nanos);
    assert id[0] == 'd' && id[|id| - 1] == digits[|digits| - 1];
    assert IsDigit(digits[|digits| - 1]);
  }

  // ---------- Categories and marks ----------

  function Underscored(s: string): (t: string)
    ensures |t| == |s|
  {
    seq(|s|, i requires 0 <= i < |s| => if s[i] == ' ' || s[i] == '-' then '_' else s[i])
  }

  function NormalizeCategory(category: string): string {
    Underscored(Lower(Trim(category)))
  }

  /** The first category that is not blank. */
  function PrimaryCategory(items: seq<Item>): string {
    if items == [] then "general"
    else if NormalizeCategory(items[0].category) != "" then NormalizeCategory(items[0].category)
    else PrimaryCategory(items[1..])
  }

  /** It is the first item's that has one, or `general`. */
  lemma {:induction false} PrimaryIsFirst(items: seq<Item>)
    ensures (forall i :: 0 <= i < |items| ==> NormalizeCategory(items[i].category) == "") ==>
              PrimaryCategory(items) == "general"
    ensures forall i :: 0 <= i < |items| && NormalizeCategory(items[i].category) != ""
                        && (forall j :: 0 <= j < i ==> NormalizeCategory(items[j].category) == "")
                        ==> PrimaryCategory(items) == NormalizeCategory(items[i].category)
  {
    hide NormalizeCategory;
    if items != [] {
      PrimaryIsFirst(items[1..]);
      assert forall i :: 1 <= i < |items| ==> items[1..][i - 1] == items[i];
      forall i | 0 <= i < |items| && NormalizeCategory(items[i].category) != ""
                 && (forall j :: 0 <= j < i ==> NormalizeCategory(items[j].category) == "")
        ensures PrimaryCategory(items) == NormalizeCategory(items[i].category)
      {
        if i > 0 {
          assert items[1..][i - 1] == items[i];
        }
      }
    }
  }

  method FindPrimaryCategory(items: seq<Item>) returns (category: string)
    ensures category == PrimaryCategory(items)
  {
    for i := 0 to |items|
      invariant PrimaryCategory(items) == PrimaryCategory(items[i..])
    {
      category := NormalizeCategory(items[i].category);
      if category != "" {
        return;
      }
      assert items[i..][1..] == items[i + 1..];
    }
    return "general";
  }

  function PrimaryCategoryFromValue(category: string): string {
    if NormalizeCategory(category) == "" then "general" else NormalizeCategory(category)
  }

  function RequiredMoneyMark(category: string): (mark: string)
    ensures IsMark(mark)
  {
    var c := NormalizeCategory(category);
    if c in ["education", "edu", "books", "school", "university"] then EDUCATION
    else if c in ["medicine", "medical", "health", "healthcare", "pharmacy"] then HEALTHCARE
    else if c in ["food", "groceries", "social_food"] then SOCIAL_FOOD
    else if c in ["transport", "taxi", "bus", "metro"] then TRANSPORT
    else if c in ["subsidy", "budget", "government", "state"] then BUDGET
    else GENERAL
  }

  function SmartContractID(value: string): (id: string)
    ensures Trimmed(id) && id != ""
  {
    if Trim(value) == "" then DEFAULT_SMART_CONTRACT_ID else Trim(value)
  }

  lemma CategoryNormalForm(category: string)
    ensures var c := NormalizeCategory(category);
            Trimmed(c) && NormalizeCategory(c) == c
  {
    var trimmed := Trim(category);
    var c := NormalizeCategory(category);
    assert forall i :: 0 <= i < |c| ==> LowerChar(c[i]) == c[i] && c[i] != ' ' && c[i] != '-';
    assert forall i :: 0 <= i < |c| && !IsSpace(trimmed[i]) ==> !IsSpace(c[i]);
    assert Lower(c) == c && Underscored(c) == c;
  }

  /** The category a check settles on is a fixed point. */
  lemma CategoryIsStable(category: string)
    ensures PrimaryCategoryFromValue(PrimaryCategoryFromValue(category)) == PrimaryCategoryFromValue(category)
  {
    CategoryNormalForm(category);
    CategoryNormalForm("general");
  }

  lemma MarksAreUpperText()
    ensures UpperText(GENERAL) && UpperText(EDUCATION) && UpperText(HEALTHCARE)
    ensures UpperText(SOCIAL_FOOD) && UpperText(TRANSPORT) && UpperText(BUDGET)
  {
  }

  predicate IsMark(mark: string) {
    mark == GENERAL || mark == EDUCATION || mark == HEALTHCARE || mark == SOCIAL_FOOD || mark == TRANSPORT
    || mark == BUDGET
  }

  /** Marks are written in trimmed upper case, so normalisation keeps them. */
  lemma MarkIsNormal(mark: string)
    requires IsMark(mark)
    ensures mark != "" && Trimmed(mark) && Upper(mark) == mark
  {
    MarksAreUpperText();
    UpperTextIsFixed(mark);
  }

  /** The words of the marks, with spaces, capitals, blanks and hyphens as they come. */
  lemma MarkOfWord(category: string)
    ensures var word, mark := Underscored(Lower(Trim(category))), RequiredMoneyMark(category);
            && (mark == "EDUCATION" <==> IsEducation(word)) && (mark == "HEALTHCARE" <==> IsHealthcare(word))
            && (mark == "SOCIAL_FOOD" <==> IsFood(word)) && (mark == "TRANSPORT" <==> IsTransport(word))
            && (mark == "BUDGET_TARGETED" <==> IsBudget(word))
            && (mark == "GENERAL" <==> !IsEducation(word) && !IsHealthcare(word) && !IsFood(word)
                                       && !IsTransport(word) && !IsBudget(word))
  {
    hide Underscored, Lower, Trim, RequiredMoneyMark, IsEducation, IsHealthcare, IsFood, IsTransport, IsBudget;
    var word := Underscored(Lower(Trim(category)));
    WordsDiffer(word);
    if IsEducation(word) {
      EducationMark(category);
    } else if IsHealthcare(word) {
      HealthcareMark(category);
    } else if IsFood(word) {
      FoodMark(category);
    } else if IsTransport(word) {
      TransportMark(category);
    } else if IsBudget(word) {
      BudgetMark(category);
    } else {
      GeneralMark(category);
    }
  }

  lemma EducationMark(category: string)
    requires IsEducation(Underscored(Lower(Trim(category))))
    ensures RequiredMoneyMark(category) == EDUCATION
  {
    hide Underscored, Lower, Trim;
  }

  lemma HealthcareMark(category: string)
    requires IsHealthcare(Underscored(Lower(Trim(category))))
    ensures RequiredMoneyMark(category) == HEALTHCARE
  {
    hide Underscored, Lower, Trim;
  }

  lemma FoodMark(category: string)
    requires IsFood(Underscored(Lower(Trim(category))))
    ensures RequiredMoneyMark(category) == SOCIAL_FOOD
  {
    hide Underscored, Lower, Trim;
  }

  lemma TransportMark(category: string)
    requires IsTransport(Underscored(Lower(Trim(category))))
    ensures RequiredMoneyMark(category) == TRANSPORT
  {
    hide Underscored, Lower, Trim;
  }

  lemma BudgetMark(category: string)
    requires IsBudget(Underscored(Lower(Trim(category))))
    ensures RequiredMoneyMark(category) == BUDGET
  {
    hide Underscored, Lower, Trim;
  }

  lemma GeneralMark(category: string)
    requires var word := Underscored(Lower(Trim(category)));
             !IsEducation(word) && !IsHealthcare(word) && !IsFood(word) && !IsTransport(word) && !IsBudget(word)
    ensures RequiredMoneyMark(category) == GENERAL
  {
    hide Underscored, Lower, Trim;
  }

  predicate IsEducation(word: string) {
    word == "education" || word == "edu" || word == "books" || word == "school" || word == "university"
  }

  predicate IsHealthcare(word: string) {
    word == "medicine" || word == "medical" || word == "health" || word == "healthcare" || word == "pharmacy"
  }

  predicate IsFood(word: string) {
    word == "food" || word == "groceries" || word == "social_food"
  }

  predicate IsTransport(word: string) {
    word == "transport" || word == "taxi" || word == "bus" || word == "metro"
  }

  predicate IsBudget(word: string) {
    word == "subsidy" || word == "budget" || word == "government" || word == "state"
  }

  /** No word belongs to two marks. */
  lemma WordsDiffer(word: string)
    ensures !(IsEducation(word) && (IsHealthcare(word) || IsFood(word) || IsTransport(word) || IsBudget(word)))
    ensures !(IsHealthcare(word) && (IsFood(word) || IsTransport(word) || IsBudget(word)))
    ensures !(IsFood(word) && (IsTransport(word) || IsBudget(word))) && !(IsTransport(word) && IsBudget(word))
  {
  }

  // ---------- Checking a wallet ----------

  function MarkOrZero(mark: string, general: real, education: real, healthcare: real, food: real, transport: real,
                      budget: real): real
  {
    if mark == GENERAL then general
    else if mark == EDUCATION then education
    else if mark == HEALTHCARE then healthcare
    else if mark == SOCIAL_FOOD then food
    else if mark == TRANSPORT then transport
    else if mark == BUDGET then budget
    else 0.0
  }

  function WalletMarkedBalance(walletID: string, mark: string): real {
    var wallet, m := Lower(Trim(walletID)), Upper(Trim(mark));
    if wallet == "" || wallet == "dr_wallet_123" then MarkOrZero(m, 100000.0, 10000.0, 5000.0, 3000.0, 2000.0, 1000.0)
    else if wallet == "dr_wallet_insufficient_marked" then MarkOrZero(m, 100000.0, 100.0, 0.0, 0.0, 0.0, 0.0)
    else if wallet == "dr_wallet_healthcare" then MarkOrZero(m, 10000.0, 0.0, 20000.0, 0.0, 0.0, 0.0)
    else MarkOrZero(m, 100000.0, 0.0, 0.0, 0.0, 0.0, 0.0)
  }

  const MARKS := [GENERAL, EDUCATION, HEALTHCARE, SOCIAL_FOOD, TRANSPORT, BUDGET]

  /** The balances of the emulated wallets, mark by mark; any other wallet has general money only. */
  lemma WalletBalances(wallet: string, i: nat)
    requires i < 6
    ensures WalletMarkedBalance(wallet, MARKS[i])
            == var w := Lower(Trim(wallet));
               if w == "" || w == "dr_wallet_123" then [100000.0, 10000.0, 5000.0, 3000.0, 2000.0, 1000.0][i]
               else if w == "dr_wallet_insufficient_marked" then [100000.0, 100.0, 0.0, 0.0, 0.0, 0.0][i]
               else if w == "dr_wallet_healthcare" then [10000.0, 0.0, 20000.0, 0.0, 0.0, 0.0][i]
               else [100000.0, 0.0, 0.0, 0.0, 0.0, 0.0][i]
  {
    MarkIsNormal(MARKS[i]);
    MarkAt(i, 100000.0, 10000.0, 5000.0, 3000.0, 2000.0, 1000.0);
    MarkAt(i, 100000.0, 100.0, 0.0, 0.0, 0.0, 0.0);
    MarkAt(i, 10000.0, 0.0, 20000.0, 0.0, 0.0, 0.0);
    MarkAt(i, 100000.0, 0.0, 0.0, 0.0, 0.0, 0.0);
    hide MarkOrZero, Lower, Trim, Upper;
    assert Trim(MARKS[i]) == MARKS[i];
  }

  lemma MarkAt(i: nat, general: real, education: real, healthcare: real, food: real, transport: real, budget: real)
    requires i < 6
    ensures MarkOrZero(MARKS[i], general, education, healthcare, food, transport, budget)
            == [general, education, healthcare, food, transport, budget][i]
  {
  }

  function DisplayWallet(walletID: string): string {
    if Trim(walletID) == "" then "default_wallet" else Trim(walletID)
  }

  function CheckMarkedMoney(input: PaymentCheck, nanos: nat): CheckResult {
    var category := PrimaryCategoryFromValue(input.category);
    var mark := if input.moneyMark == "" then RequiredMoneyMark(category) else input.moneyMark;
    var wallet := Trim(input.walletID);
    var messageID := if input.messageID == "" then NewMessageID(nanos) else input.messageID;
    var available := WalletMarkedBalance(wallet, mark);
    var allowed := available >= input.amount;
    var text := "wallet " + DisplayWallet(wallet) + " has " + FormatAmount(available) + " digital rubles marked as "
                + mark;
    CheckResult(
      allowed, if allowed then "PASSED" else "DECLINED",
      if allowed then text + " for category " + category
      else text + ", required " + FormatAmount(input.amount) + " for category " + category,
      mark, SmartContractID(input.smartContractID), wallet, available, input.amount, messageID)
  }

  /** What the contract says of a wallet, and what was required if it does not have it. */
  predicate ReasonFits(reason: string, wallet: string, mark: string, required: real, category: string) {
    var available := WalletMarkedBalance(wallet, mark);
    var owner := if Blank(wallet) then "default_wallet" else Trim(wallet);
    var lacking := if available >= required then "" else ", required " + FormatAmount(required);
    reason == "wallet " + owner + " has " + FormatAmount(available) + " digital rubles marked as " + mark
              + lacking + " for category " + category
  }

  lemma ReasonOfCheck(c: PaymentCheck, nanos: nat)
    requires c.moneyMark != "" && Trimmed(c.walletID) && PrimaryCategoryFromValue(c.category) == c.category
    ensures var result := CheckMarkedMoney(c, nanos);
            && ReasonFits(result.reason, c.walletID, c.moneyMark, c.amount, c.category)
            && result.result == if result.allowed then "PASSED" else "DECLINED"
  {
    assert Trim(c.walletID) == c.walletID;
    hide WalletMarkedBalance, FormatAmount, PrimaryCategoryFromValue, NewMessageID, SmartContractID, Trim;
    var available := WalletMarkedBalance(c.walletID, c.moneyMark);
    var text := "wallet " + DisplayWallet(c.walletID) + " has " + FormatAmount(available)
                + " digital rubles marked as " + c.moneyMark;
    assert text + "" == text;
    Regrouped(text, ", required ", FormatAmount(c.amount), " for category ", c.category);
  }

  lemma Regrouped(a: string, b: string, c: string, d: string, e: string)
    ensures a + b + c + d + e == a + (b + c) + d + e
  {
    assert a + b + c == a + (b + c);
  }

  lemma PrimaryIsStable(items: seq<Item>)
    ensures PrimaryCategoryFromValue(PrimaryCategory(items)) == PrimaryCategory(items)
  {
    if items == [] {
      CategoryNormalForm("general");
      assert NormalizeCategory("general") == "general";
    } else if NormalizeCategory(items[0].category) != "" {
      CategoryNormalForm(items[0].category);
    } else {
      PrimaryIsStable(items[1..]);
    }
  }

  // ---------- The message ----------

  /** An uninterpreted signature over a text. */
  datatype Signature = Hmac(text: string)

  datatype PaymentObject = PaymentObject(
    paymentID: string, merchantID: string, walletID: string, amount: string, currency: string, category: string,
    requiredMark: string, smartContractID: string)

  datatype Envelope = Envelope(
    messageID: string, messageType: string, sender: string, receiver: string,
    signatureType: string, signatureValue: Signature, paymentObject: PaymentObject)

  function NormalizePaymentCheck(c: PaymentCheck, nanos: nat): PaymentCheck {
    var category := PrimaryCategoryFromValue(c.category);
    var currency, mark := Upper(Trim(c.currency)), Upper(Trim(c.moneyMark));
    PaymentCheck(
      if c.messageID == "" then NewMessageID(nanos) else c.messageID,
      Trim(c.merchantID), Trim(c.paymentID), Trim(c.walletID), c.amount,
      if currency == "" then "RUB" else currency, category,
      if mark == "" then RequiredMoneyMark(category) else mark,
      SmartContractID(c.smartContractID))
  }

  /** `strings.Join(fields, "|")` */
  function Barred(fields: seq<string>): string {
    if fields == [] then "" else if |fields| == 1 then fields[0] else fields[0] + "|" + Barred(fields[1..])
  }

  function FieldsOf(c: PaymentCheck): seq<string> {
    [c.messageID, c.paymentID, c.merchantID, c.walletID, FormatAmount(c.amount), c.currency, c.category, c.moneyMark,
     c.smartContractID]
  }

  function SignedText(input: PaymentCheck, nanos: nat): string {
    Barred(FieldsOf(NormalizePaymentCheck(input, nanos)))
  }

  function SignPaymentCheck(c: PaymentCheck, nanos: nat): Signature {
    Hmac(SignedText(c, nanos))
  }

  function BuildPaymentCheckSOAP(input: PaymentCheck, nanos: nat): Envelope {
    var c := NormalizePaymentCheck(input, nanos);
    Envelope(
      c.messageID, "C2BPaymentCheck", "PAYMENT_GATEWAY", "DIGITAL_RUBLE_PLATFORM_EMULATOR",
      SIGNATURE_TYPE_HMAC, SignPaymentCheck(c, nanos),
      PaymentObject(c.paymentID, c.merchantID, c.walletID, FormatAmount(c.amount), c.currency, c.category,
                    c.moneyMark, c.smartContractID))
  }

  function PaymentCheckFromEnvelope(e: Envelope, nanos: nat): Outcome<PaymentCheck> {
    var o := e.paymentObject;
    match ParseDecimal(Trim(o.amount))
    case None => Err("invalid SOAP payment amount")
    case Some(amount) =>
      var check := PaymentCheck(
        Trim(e.messageID), Trim(o.merchantID), Trim(o.paymentID), Trim(o.walletID), amount,
        Upper(Trim(o.currency)), PrimaryCategoryFromValue(o.category), Upper(Trim(o.requiredMark)),
        SmartContractID(o.smartContractID));
      if check.messageID == "" || check.paymentID == "" || check.merchantID == "" then
        Err("SOAP message_id, merchant_id and payment_id are required")
      else Ok(NormalizePaymentCheck(check, nanos))
  }

  function ProcessPaymentCheckSOAP(e: Envelope, nanos: nat): Outcome<CheckResult> {
    match PaymentCheckFromEnvelope(e, nanos)
    case Err(message) => Err(message)
    case Ok(check) => Ok(CheckMarkedMoney(check, nanos))
  }

  // ---------- Normal forms and the round trip ----------

  predicate NormalCheck(c: PaymentCheck) {
    c.messageID != "" && Trimmed(c.merchantID) && Trimmed(c.paymentID) && Trimmed(c.walletID)
    && c.currency != "" && Trimmed(c.currency) && Upper(c.currency) == c.currency
    && PrimaryCategoryFromValue(c.category) == c.category
    && c.moneyMark != "" && Trimmed(c.moneyMark) && Upper(c.moneyMark) == c.moneyMark
    && c.smartContractID != "" && Trimmed(c.smartContractID)
  }

  lemma NormalizeGivesNormal(c: PaymentCheck, nanos: nat)
    ensures NormalCheck(NormalizePaymentCheck(c, nanos))
  {
    hide RequiredMoneyMark, PrimaryCategoryFromValue, NewMessageID, Trim, Upper;
    var n := NormalizePaymentCheck(c, nanos);
    NewMessageIDIsTrimmed(nanos);
    CategoryIsStable(c.category);
    MarkIsNormal(RequiredMoneyMark(PrimaryCategoryFromValue(c.category)));
    UpperTwice(Trim(c.currency));
    UpperTwice(Trim(c.moneyMark));
    UpperTextIsFixed("RUB");
  }

  lemma NormalIsFixed(c: PaymentCheck, nanos: nat)
    requires NormalCheck(c)
    ensures NormalizePaymentCheck(c, nanos) == c
  {
  }

  /** Normalising a normalised check changes nothing. */
  lemma NormalizeTwice(c: PaymentCheck, nanos: nat, later: nat)
    ensures NormalizePaymentCheck(NormalizePaymentCheck(c, nanos), later) == NormalizePaymentCheck(c, nanos)
  {
    NormalizeGivesNormal(c, nanos);
    NormalIsFixed(NormalizePaymentCheck(c, nanos), later);
  }

  /** What the parser makes of a message whose fields are in normal form. */
  lemma ParsedOfNormal(n: PaymentCheck, e: Envelope, amount: real, later: nat)
    requires NormalCheck(n) && e.messageID == n.messageID
    requires e.paymentObject == PaymentObject(n.paymentID, n.merchantID, n.walletID, FormatAmount(n.amount), n.currency,
                                              n.category, n.moneyMark, n.smartContractID)
    requires ParseDecimal(Trim(FormatAmount(n.amount))) == Some(amount)
    ensures PaymentCheckFromEnvelope(e, later)
            == if Trim(n.messageID) == "" || n.paymentID == "" || n.merchantID == ""
               then Err("SOAP message_id, merchant_id and payment_id are required")
               else Ok(NormalizePaymentCheck(n.(amount := amount, messageID := Trim(n.messageID)), later))
  {
    hide NormalizePaymentCheck, Trim, FormatAmount, ParseDecimal, PrimaryCategoryFromValue, Upper;
  }

  /** The ids of a built message and what makes them blank. */
  lemma BuiltIds(c: PaymentCheck, nanos: nat)
    ensures var n := NormalizePaymentCheck(c, nanos);
            && n.amount == c.amount
            && (n.paymentID == "" <==> Blank(c.paymentID)) && (n.merchantID == "" <==> Blank(c.merchantID))
  {
    hide Trim, Upper, RequiredMoneyMark, PrimaryCategoryFromValue, SmartContractID;
  }

  /** Normal checks differ in the message id and the amount without ceasing to be fixed. */
  lemma NormalWithOthers(n: PaymentCheck, amount: real, messageID: string, nanos: nat)
    requires NormalCheck(n) && messageID != ""
    ensures var other := n.(amount := amount, messageID := messageID); NormalizePaymentCheck(other, nanos) == other
  {
    hide NormalizePaymentCheck, Upper, PrimaryCategoryFromValue;
    NormalIsFixed(n.(amount := amount, messageID := messageID), nanos);
  }

  /** Parsing any built message: it fails exactly when an id is blank, and otherwise gives the
      normalised check with its amount rounded to kopecks and its message id trimmed. */
  lemma RoundTrip(c: PaymentCheck, nanos: nat, later: nat)
    ensures var n := NormalizePaymentCheck(c, nanos);
            var parsed := PaymentCheckFromEnvelope(BuildPaymentCheckSOAP(c, nanos), later);
            && (parsed.Err? <==> Blank(n.messageID) || Blank(c.paymentID) || Blank(c.merchantID))
            && (parsed.Ok? ==> parsed.value == n.(amount := Rounded(c.amount), messageID := Trim(n.messageID)))
  {
    hide NormalizePaymentCheck, NormalCheck, Trim, FormatAmount, ParseDecimal, Rounded, SignPaymentCheck,
         PaymentCheckFromEnvelope;
    var n := NormalizePaymentCheck(c, nanos);
    NormalizeGivesNormal(c, nanos);
    BuiltIds(c, nanos);
    AmountIsRead(c.amount);
    ParsedOfNormal(n, BuildPaymentCheckSOAP(c, nanos), Rounded(c.amount), later);
    if !Blank(n.messageID) {
      NormalWithOthers(n, Rounded(c.amount), Trim(n.messageID), later);
    }
  }

  lemma AmountIsRead(amount: real)
    ensures ParseDecimal(Trim(FormatAmount(amount))) == Some(Rounded(amount))
  {
    hide ParseDecimal, Rounded, Print, Kopecks, Trim;
    ParseFormat(amount);
    PrintIsTrimmed(Kopecks(amount));
  }

  lemma SharedTail(a: string, b: string, tail: string)
    ensures a + tail == b + tail <==> a == b
  {
    var x, y := a + tail, b + tail;
    assert x[..|a|] == a && y[..|b|] == b;
  }

  /** Checks that differ in the message id only have different texts. */
  lemma OnlyMessageIDDiffers(a: PaymentCheck, b: PaymentCheck)
    requires FieldsOf(a)[1..] == FieldsOf(b)[1..]
    ensures Barred(FieldsOf(a)) == Barred(FieldsOf(b)) <==> a.messageID == b.messageID
  {
    hide FormatAmount;
    var tail := "|" + Barred(FieldsOf(a)[1..]);
    assert Barred(FieldsOf(a)) == a.messageID + tail && Barred(FieldsOf(b)) == b.messageID + tail;
    SharedTail(a.messageID, b.messageID, tail);
  }

  /** Without a blank id the message parses, and the text signed over the parsed check is the one
      signed when building exactly when the message id had no spaces around it. */
  lemma SignatureSurvives(c: PaymentCheck, nanos: nat, later: nat)
    requires !Blank(c.paymentID) && !Blank(c.merchantID) && !Blank(NormalizePaymentCheck(c, nanos).messageID)
    ensures var envelope := BuildPaymentCheckSOAP(c, nanos);
            var parsed := PaymentCheckFromEnvelope(envelope, later);
            parsed.Ok? && (SignPaymentCheck(parsed.value, later) == envelope.signatureValue
                           <==> Trimmed(NormalizePaymentCheck(c, nanos).messageID))
  {
    var n := NormalizePaymentCheck(c, nanos);
    RoundTrip(c, nanos, later);
    var parsed := PaymentCheckFromEnvelope(BuildPaymentCheckSOAP(c, nanos), later).value;
    NormalizeGivesNormal(c, nanos);
    NormalIsFixed(n, nanos);
    NormalIsFixed(parsed, later);
    ParseFormat(c.amount);
    OnlyMessageIDDiffers(n, parsed);
  }

  // ---------- What a signature binds ----------

  predicate NoBar(s: string) {
    '|' !in s
  }

  lemma FirstFieldAgrees(a: string, rest: string, b: string, other: string)
    requires NoBar(a) && NoBar(b)
    ensures a + "|" + rest == b + "|" + other <==> a == b && rest == other
  {
    var x, y := a + "|" + rest, b + "|" + other;
    assert x[|a|] == '|' && y[|b|] == '|';
    assert |a| < |b| ==> y[|a|] == b[|a|];
    assert |b| < |a| ==> x[|b|] == a[|b|];
    assert x[..|a|] == a && y[..|b|] == b && x[|a| + 1..] == rest && y[|b| + 1..] == other;
  }

  lemma {:induction false} BarredDetermines(a: seq<string>, b: seq<string>)
    requires |a| == |b| && forall i :: 0 <= i < |a| - 1 ==> NoBar(a[i]) && NoBar(b[i])
    ensures Barred(a) == Barred(b) <==> a == b
  {
    if |a| > 1 {
      FirstFieldAgrees(a[0], Barred(a[1..]), b[0], Barred(b[1..]));
      BarredDetermines(a[1..], b[1..]);
      assert a == [a[0]] + a[1..] && b == [b[0]] + b[1..];
    }
  }

  /** The ids of a check hold no bar, nor do its wallet, currency, category and mark. */
  predicate BarFree(c: PaymentCheck) {
    && NoBar(c.messageID) && NoBar(c.paymentID) && NoBar(c.merchantID) && NoBar(c.walletID) && NoBar(c.currency)
    && NoBar(c.category) && NoBar(c.moneyMark)
  }

  /** Two normal checks without bars have one signed text only if they are the same check, up to kopecks. */
  lemma SignatureBinds(a: PaymentCheck, b: PaymentCheck, nanos: nat, later: nat)
    requires NormalCheck(a) && NormalCheck(b) && BarFree(a) && BarFree(b)
    requires SignPaymentCheck(a, nanos) == SignPaymentCheck(b, later)
    ensures a.(amount := Rounded(a.amount)) == b.(amount := Rounded(b.amount))
  {
    hide NormalizePaymentCheck, NormalCheck, FormatAmount, Rounded, Barred, NoBar;
    NormalIsFixed(a, nanos);
    NormalIsFixed(b, later);
    AmountHasNoBar(a.amount);
    AmountHasNoBar(b.amount);
    var f, g := FieldsOf(a), FieldsOf(b);
    BarredDetermines(f, g);
    assert f[0] == g[0] && f[1] == g[1] && f[2] == g[2] && f[3] == g[3] && f[4] == g[4] && f[5] == g[5] && f[6] == g[6]
           && f[7] == g[7] && f[8] == g[8];
    ParseFormat(a.amount);
    ParseFormat(b.amount);
  }

  lemma AmountHasNoBar(amount: real)
    ensures NoBar(FormatAmount(amount))
  {
    PrintHasNoBar(Kopecks(amount));
  }

  lemma PrintHasNoBar(kopecks: int)
    ensures NoBar(Print(kopecks))
  {
    var n := if kopecks < 0 then -kopecks else kopecks;
    NatTextReads(n / 100);
    DigitValue(n % 100 / 10);
    DigitValue(n % 10);
    hide NatText, DigitChar;
  }
}
