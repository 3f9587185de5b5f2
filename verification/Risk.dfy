/** The rule-based risk verdict (internal/subsystems/antifraud/rule_based_antifraud.go). */
module Risk {
  import opened Text
  import opened Payments
  import opened Velocity

  const PASSED := "PASSED"
  const REVIEW := "REVIEW"
  const BLOCKED := "BLOCKED"
  const MAX_SCORE_BEFORE_BLOCK := 80

  datatype RuleResult = RuleResult(name: string, score: int, block: bool, reason: string)

  const NO_FINDING := RuleResult("", 0, false, "")

  /** The verdict, with the score and the reasons gathered when it was reached. */
  datatype Verdict = Verdict(result: string, score: int, reasons: seq<string>)

  // ---------- The meaning of a list of rule results ----------

  /** Unnamed results are skipped and negative scores ignored. */
  function Points(r: RuleResult): nat {
    if r.name != "" && r.score > 0 then r.score else 0
  }

  predicate Blocks(r: RuleResult) {
    r.name != "" && r.block
  }

  function TotalPoints(rules: seq<RuleResult>): nat {
    if rules == [] then 0 else TotalPoints(rules[..|rules| - 1]) + Points(rules[|rules| - 1])
  }

  function Reasons(rules: seq<RuleResult>): seq<string> {
    if rules == [] then []
    else
      var r := rules[|rules| - 1];
      if r.name != "" && r.reason != "" then Reasons(rules[..|rules| - 1]) + [r.reason]
      else Reasons(rules[..|rules| - 1])
  }

  function Result(rules: seq<RuleResult>): string {
    if (exists r <- rules :: Blocks(r)) || TotalPoints(rules) >= MAX_SCORE_BEFORE_BLOCK then BLOCKED
    else if TotalPoints(rules) == 0 then PASSED
    else REVIEW
  }

  /** How many rules are looked at: up to the first that blocks. */
  function Examined(rules: seq<RuleResult>): (n: nat)
    ensures n <= |rules|
    ensures forall i :: 0 <= i < n - 1 ==> !Blocks(rules[i])
    ensures n < |rules| ==> n > 0 && Blocks(rules[n - 1])
  {
    if rules == [] then 0
    else
      var n := Examined(rules[..|rules| - 1]);
      if n < |rules| - 1 || (n > 0 && Blocks(rules[n - 1])) then n else n + 1
  }

  lemma TotalAppend(rules: seq<RuleResult>, r: RuleResult)
    ensures TotalPoints(rules + [r]) == TotalPoints(rules) + Points(r)
    ensures Reasons(rules + [r]) == Reasons(rules) + if r.name != "" && r.reason != "" then [r.reason] else []
  {
    assert (rules + [r])[..|rules|] == rules;
  }

  lemma ExaminedUpTo(rules: seq<RuleResult>, i: nat)
    requires i <= |rules| && forall j :: 0 <= j < i ==> !Blocks(rules[j])
    ensures i < |rules| && Blocks(rules[i]) ==> Examined(rules) == i + 1
    ensures i == |rules| ==> Examined(rules) == i
  {
  }

  lemma TotalNext(rules: seq<RuleResult>, i: nat)
    requires i < |rules|
    ensures TotalPoints(rules[..i + 1]) == TotalPoints(rules[..i]) + Points(rules[i])
    ensures Reasons(rules[..i + 1])
            == Reasons(rules[..i]) + if rules[i].name != "" && rules[i].reason != "" then [rules[i].reason] else []
  {
    assert rules[..i + 1] == rules[..i] + [rules[i]];
    TotalAppend(rules[..i], rules[i]);
  }

  lemma NothingYet(rules: seq<RuleResult>)
    ensures TotalPoints(rules[..0]) == 0 && Reasons(rules[..0]) == []
  {
  }

  lemma BlockedAt(rules: seq<RuleResult>, i: nat)
    requires i < |rules| && Blocks(rules[i])
    ensures Result(rules) == BLOCKED
  {
    assert rules[i] in rules;
  }

  lemma NoneBlocks(rules: seq<RuleResult>)
    requires forall j :: 0 <= j < |rules| ==> !Blocks(rules[j])
    ensures Result(rules)
            == if TotalPoints(rules) >= MAX_SCORE_BEFORE_BLOCK then BLOCKED
               else if TotalPoints(rules) > 0 then REVIEW else PASSED
  {
  }

  /** The scoring fold, with its early exit on the first blocking rule. */
  method Fold(rules: seq<RuleResult>) returns (verdict: Verdict)
    ensures verdict.result == Result(rules)
    ensures verdict.score == TotalPoints(rules[..Examined(rules)])
    ensures verdict.reasons == Reasons(rules[..Examined(rules)])
  {
    hide Examined, Result, TotalPoints, Reasons;
    var totalScore := 0;
    var reasons := [];
    NothingYet(rules);
    for i := 0 to |rules|
      invariant totalScore == TotalPoints(rules[..i]) && reasons == Reasons(rules[..i])
      invariant forall j :: 0 <= j < i ==> !Blocks(rules[j])
    {
      var result := rules[i];
      TotalNext(rules, i);
      if result.name == "" {
        continue;
      }
      if result.score > 0 {
        totalScore := totalScore + result.score;
      }
      if result.reason != "" {
        reasons := reasons + [result.reason];
      }
      if result.block {
        ExaminedUpTo(rules, i);
        BlockedAt(rules, i);
        return Verdict(BLOCKED, totalScore, reasons);
      }
    }
    assert rules[..|rules|] == rules;
    ExaminedUpTo(rules, |rules|);
    NoneBlocks(rules);
    if totalScore >= MAX_SCORE_BEFORE_BLOCK {
      return Verdict(BLOCKED, totalScore, reasons);
    }
    if totalScore > 0 {
      return Verdict(REVIEW, totalScore, reasons);
    }
    return Verdict(PASSED, totalScore, reasons);
  }

  // ---------- Order of the rules ----------

  lemma {:induction false} TotalSplit(before: seq<RuleResult>, r: RuleResult, after: seq<RuleResult>)
    ensures TotalPoints(before + [r] + after) == TotalPoints(before + after) + Points(r)
  {
    if after == [] {
      assert before + [r] + after == before + [r] && before + after == before;
      TotalAppend(before, r);
    } else {
      var n := |after| - 1;
      TotalSplit(before, r, after[..n]);
      TotalAppend(before + [r] + after[..n], after[n]);
      TotalAppend(before + after[..n], after[n]);
      assert before + [r] + after == (before + [r] + after[..n]) + [after[n]];
      assert before + after == (before + after[..n]) + [after[n]];
    }
  }

  lemma MultisetWithout<T>(s: seq<T>, i: nat)
    requires i < |s|
    ensures multiset(s[..i] + s[i + 1..]) == multiset(s) - multiset{s[i]}
  {
    assert s == s[..i] + ([s[i]] + s[i + 1..]);
  }

  lemma WithoutLast<T>(a: seq<T>, b: seq<T>) returns (i: nat)
    requires a != [] && multiset(a) == multiset(b)
    ensures i < |b| && b[i] == a[|a| - 1]
    ensures multiset(a[..|a| - 1]) == multiset(b[..i] + b[i + 1..])
  {
    var n := |a| - 1;
    assert a[n] in multiset(a);
    assert a[n] in multiset(b);
    i :| 0 <= i < |b| && b[i] == a[n];
    MultisetWithout(a, n);
    MultisetWithout(b, i);
    assert a[..n] + a[n + 1..] == a[..n];
  }

  lemma {:induction false} TotalOfPermutation(a: seq<RuleResult>, b: seq<RuleResult>)
    requires multiset(a) == multiset(b)
    ensures TotalPoints(a) == TotalPoints(b)
    decreases |a|
  {
    if a == [] {
      assert |b| == |multiset(b)| == 0;
    } else {
      var i := WithoutLast(a, b);
      TotalOfPermutation(a[..|a| - 1], b[..i] + b[i + 1..]);
      TotalSplit(b[..i], b[i], b[i + 1..]);
      assert b == b[..i] + [b[i]] + b[i + 1..];
    }
  }

  /** The verdict does not depend on the order in which the rules are listed. */
  lemma ResultOfPermutation(a: seq<RuleResult>, b: seq<RuleResult>)
    requires multiset(a) == multiset(b)
    ensures Result(a) == Result(b)
  {
    TotalOfPermutation(a, b);
    assert forall r :: r in multiset(a) <==> r in multiset(b);
    assert forall r :: (r in a <==> r in multiset(a)) && (r in b <==> r in multiset(b));
  }

  // ---------- Monotonicity ----------

  function Severity(result: string): nat {
    if result == BLOCKED then 2 else if result == REVIEW then 1 else 0
  }

  /** `b` blocks if `a` does and scores at least as much. */
  predicate NoMilder(a: RuleResult, b: RuleResult) {
    (Blocks(a) ==> Blocks(b)) && Points(a) <= Points(b)
  }

  lemma {:induction false} TotalMonotone(a: seq<RuleResult>, b: seq<RuleResult>)
    requires |a| == |b| && forall i :: 0 <= i < |a| ==> NoMilder(a[i], b[i])
    ensures TotalPoints(a) <= TotalPoints(b)
  {
    if a != [] { TotalMonotone(a[..|a| - 1], b[..|b| - 1]); }
  }

  lemma ResultMonotone(a: seq<RuleResult>, b: seq<RuleResult>)
    requires |a| == |b| && forall i :: 0 <= i < |a| ==> NoMilder(a[i], b[i])
    ensures Severity(Result(a)) <= Severity(Result(b))
  {
    TotalMonotone(a, b);
    if exists r <- a :: Blocks(r) {
      var i :| 0 <= i < |a| && Blocks(a[i]);
      assert Blocks(b[i]) && b[i] in b;
    }
  }

  // ---------- Velocity and amount rules ----------

  function Tier(count: nat, high: nat, highScore: nat, low: nat, lowScore: nat): nat {
    if count >= high then highScore else if count >= low then lowScore else 0
  }

  /** The score card of the seven counters. */
  function VelocityScore(v: Counts): nat {
    InstrumentScore(v) + SpreadScore(v)
  }

  /** Points for repeated use of one instrument. */
  function InstrumentScore(v: Counts): nat {
    Tier(v.cardAttempts1h, 5, 70, 4, 40) + Tier(v.emailAttempts30m, 5, 35, 5, 35)
    + Tier(v.phoneAttempts1h, 6, 30, 6, 30) + Tier(v.walletAttempts1h, 6, 55, 4, 35)
  }

  /** Points for many cards behind one customer, and for a busy merchant. */
  function SpreadScore(v: Counts): nat {
    Tier(v.distinctCardsPerEmail24h, 5, 60, 3, 30) + Tier(v.distinctCardsPerPhone24h, 5, 60, 3, 30)
    + Tier(v.merchantAttempts5m, 30, 20, 30, 20)
  }

  predicate VelocityBlocks(v: Counts) {
    v.cardAttempts1h >= 5 || v.walletAttempts1h >= 6
  }

  predicate Empty(v: Counts) {
    v == Counts(0, 0, 0, 0, 0, 0, 0)
  }

  method ScoreInstruments(v: Counts) returns (score: nat, block: bool)
    ensures score == InstrumentScore(v) && block == VelocityBlocks(v)
  {
    score, block := 0, false;
    if v.cardAttempts1h >= 5 {
      score, block := score + 70, true;
    } else if v.cardAttempts1h >= 4 {
      score := score + 40;
    }
    if v.emailAttempts30m >= 5 {
      score := score + 35;
    }
    if v.phoneAttempts1h >= 6 {
      score := score + 30;
    }
    if v.walletAttempts1h >= 6 {
      score, block := score + 55, true;
    } else if v.walletAttempts1h >= 4 {
      score := score + 35;
    }
  }

  method ScoreSpread(v: Counts) returns (score: nat)
    ensures score == SpreadScore(v)
  {
    score := 0;
    if v.distinctCardsPerEmail24h >= 5 {
      score := score + 60;
    } else if v.distinctCardsPerEmail24h >= 3 {
      score := score + 30;
    }
    if v.distinctCardsPerPhone24h >= 5 {
      score := score + 60;
    } else if v.distinctCardsPerPhone24h >= 3 {
      score := score + 30;
    }
    if v.merchantAttempts5m >= 30 {
      score := score + 20;
    }
  }

  method CheckVelocity(v: Counts) returns (rule: RuleResult)
    ensures rule == VelocityRule(v)
  {
    if Empty(v) {
      return NO_FINDING;
    }
    var score, block := ScoreInstruments(v);
    var spread := ScoreSpread(v);
    score := score + spread;
    if score == 0 {
      return NO_FINDING;
    }
    return RuleResult("velocity_scorecard", score, block, VELOCITY_REASON);
  }

  const VELOCITY_REASON := "velocity limits exceeded"

  function VelocityRule(v: Counts): RuleResult {
    if VelocityScore(v) == 0 then NO_FINDING
    else RuleResult("velocity_scorecard", VelocityScore(v), VelocityBlocks(v), VELOCITY_REASON)
  }

  function AmountRule(amount: real, reviewLimit: real, blockLimit: real): RuleResult {
    if amount >= blockLimit then RuleResult("amount_block_limit", 100, true, "amount exceeds block limit")
    else if amount >= reviewLimit then RuleResult("amount_review_limit", 35, false, "amount exceeds review limit")
    else NO_FINDING
  }

  lemma VelocityRuleMeaning(v: Counts)
    ensures Points(VelocityRule(v)) == VelocityScore(v)
    ensures Blocks(VelocityRule(v)) <==> VelocityBlocks(v)
  {
    assert VelocityBlocks(v) ==> InstrumentScore(v) > 0;
  }

  lemma TierMonotone(a: nat, b: nat, high: nat, highScore: nat, low: nat, lowScore: nat)
    requires a <= b && low <= high && lowScore <= highScore
    ensures Tier(a, high, highScore, low, lowScore) <= Tier(b, high, highScore, low, lowScore)
  {
  }

  lemma VelocityRuleMonotone(a: Counts, b: Counts)
    requires NoCounterAbove(a, b)
    ensures NoMilder(VelocityRule(a), VelocityRule(b))
  {
    VelocityRuleMeaning(a);
    VelocityRuleMeaning(b);
    TierMonotone(a.cardAttempts1h, b.cardAttempts1h, 5, 70, 4, 40);
    TierMonotone(a.emailAttempts30m, b.emailAttempts30m, 5, 35, 5, 35);
    TierMonotone(a.phoneAttempts1h, b.phoneAttempts1h, 6, 30, 6, 30);
    TierMonotone(a.walletAttempts1h, b.walletAttempts1h, 6, 55, 4, 35);
    assert InstrumentScore(a) <= InstrumentScore(b);
    TierMonotone(a.distinctCardsPerEmail24h, b.distinctCardsPerEmail24h, 5, 60, 3, 30);
    TierMonotone(a.distinctCardsPerPhone24h, b.distinctCardsPerPhone24h, 5, 60, 3, 30);
    TierMonotone(a.merchantAttempts5m, b.merchantAttempts5m, 30, 20, 30, 20);
  }

  /** The results of all the rules: the amount and the velocity rule, and six others. */
  function AllRules(opa: RuleResult, amountRule: RuleResult, others: seq<RuleResult>, v: Counts): seq<RuleResult> {
    [opa, amountRule] + others + [VelocityRule(v)]
  }

  /** No larger amount and no higher counter ever softens the verdict, as long as the policy, which reads the
      amount too, does not soften its own finding. */
  lemma VerdictMonotone(opa: RuleResult, opaOfLarger: RuleResult, others: seq<RuleResult>,
                        reviewLimit: real, blockLimit: real, amount: real, larger: real, v: Counts, higher: Counts)
    requires amount <= larger && NoCounterAbove(v, higher) && NoMilder(opa, opaOfLarger)
    ensures Severity(Result(AllRules(opa, AmountRule(amount, reviewLimit, blockLimit), others, v)))
            <= Severity(Result(AllRules(opaOfLarger, AmountRule(larger, reviewLimit, blockLimit), others, higher)))
  {
    VelocityRuleMonotone(v, higher);
    AllRulesMonotone(opa, opaOfLarger, AmountRule(amount, reviewLimit, blockLimit),
                     AmountRule(larger, reviewLimit, blockLimit), others, v, higher);
  }

  lemma AllRulesMonotone(opa: RuleResult, opaOfLarger: RuleResult, amountRule: RuleResult, largerRule: RuleResult,
                         others: seq<RuleResult>, v: Counts, higher: Counts)
    requires NoMilder(opa, opaOfLarger) && NoMilder(amountRule, largerRule)
    requires NoMilder(VelocityRule(v), VelocityRule(higher))
    ensures Severity(Result(AllRules(opa, amountRule, others, v)))
            <= Severity(Result(AllRules(opaOfLarger, largerRule, others, higher)))
  {
    hide VelocityRule, Result, Severity;
    var a, b := AllRules(opa, amountRule, others, v), AllRules(opaOfLarger, largerRule, others, higher);
    forall i | 0 <= i < |a| ensures NoMilder(a[i], b[i]) {
      if 2 <= i < |a| - 1 {
        assert a[i] == others[i - 2] && b[i] == others[i - 2];
      }
    }
    ResultMonotone(a, b);
  }

  /** The embedded policy: 100 points for each finding, each of which blocks. */
  function PolicyRule(amount: real, emailDenied: bool, walletDenied: bool): RuleResult {
    var findings := (if amount >= 500_000.0 then 1 else 0)
                    + (if emailDenied then 1 else 0) + (if walletDenied then 1 else 0);
    if findings == 0 then NO_FINDING else RuleResult("opa_policy", 100 * findings, true, POLICY_REASON)
  }

  const POLICY_REASON := "OPA policy blocked payment"

  /** With that policy, whatever its deny lists say of the customer, nothing is left to assume. */
  lemma PolicyVerdictMonotone(emailDenied: bool, walletDenied: bool, others: seq<RuleResult>,
                              reviewLimit: real, blockLimit: real, amount: real, larger: real,
                              v: Counts, higher: Counts)
    requires amount <= larger && NoCounterAbove(v, higher)
    ensures Severity(Result(AllRules(PolicyRule(amount, emailDenied, walletDenied),
                                     AmountRule(amount, reviewLimit, blockLimit), others, v)))
            <= Severity(Result(AllRules(PolicyRule(larger, emailDenied, walletDenied),
                                        AmountRule(larger, reviewLimit, blockLimit), others, higher)))
  {
    VerdictMonotone(PolicyRule(amount, emailDenied, walletDenied), PolicyRule(larger, emailDenied, walletDenied),
                    others, reviewLimit, blockLimit, amount, larger, v, higher);
  }

  // ---------- Limits and points ----------

  function If(condition: bool, points: nat): nat {
    if condition then points else 0
  }

  /** What each counter adds as it reaches its limits, and which two limits block. */
  lemma VelocityPoints(v: Counts)
    ensures Points(VelocityRule(v))
            == If(v.cardAttempts1h >= 4, 40) + If(v.cardAttempts1h >= 5, 30) + If(v.emailAttempts30m >= 5, 35)
               + If(v.phoneAttempts1h >= 6, 30) + If(v.walletAttempts1h >= 4, 35) + If(v.walletAttempts1h >= 6, 20)
               + If(v.distinctCardsPerEmail24h >= 3, 30) + If(v.distinctCardsPerEmail24h >= 5, 30)
               + If(v.distinctCardsPerPhone24h >= 3, 30) + If(v.distinctCardsPerPhone24h >= 5, 30)
               + If(v.merchantAttempts5m >= 30, 20)
    ensures Blocks(VelocityRule(v)) <==> v.cardAttempts1h >= 5 || v.walletAttempts1h >= 6
  {
    VelocityRuleMeaning(v);
  }

  /** What an amount does to a verdict: from 500000 on it blocks; from 100000 on it asks for a review, and blocks what
      the other rules give 45 points or more; below it changes nothing. */
  lemma AmountVerdict(opa: RuleResult, others: seq<RuleResult>, v: Counts, amount: real)
    ensures var rest := [opa] + (others + [VelocityRule(v)]);
            var verdict := Result(AllRules(opa, AmountRule(amount, 100_000.0, 500_000.0), others, v));
            if amount >= 500_000.0 then verdict == "BLOCKED"
            else if amount >= 100_000.0 then
              verdict == if Result(rest) == "BLOCKED" || TotalPoints(rest) >= 45 then "BLOCKED" else "REVIEW"
            else verdict == Result(rest)
  {
    hide VelocityRule, TotalPoints;
    var rule, after := AmountRule(amount, 100_000.0, 500_000.0), others + [VelocityRule(v)];
    var rules, rest := AllRules(opa, rule, others, v), [opa] + after;
    assert rules == [opa] + [rule] + after;
    TotalSplit([opa], rule, after);
    OneMoreRule([opa], rule, after);
  }

  lemma OneMoreRule(before: seq<RuleResult>, rule: RuleResult, after: seq<RuleResult>)
    ensures (exists r <- before + [rule] + after :: Blocks(r))
            <==> Blocks(rule) || exists r <- before + after :: Blocks(r)
  {
    hide Blocks;
    assert forall r :: r in before + [rule] + after <==> r == rule || r in before + after;
  }

  /** The class a verdict falls into by its points alone: 80 block, any ask for a review. */
  lemma PointsVerdict(rules: seq<RuleResult>)
    requires forall r <- rules :: !Blocks(r)
    ensures Result(rules)
            == if TotalPoints(rules) >= 80 then "BLOCKED" else if TotalPoints(rules) > 0 then "REVIEW" else "PASSED"
  {
  }

  /** The embedded policy blocks from 500000 on and for both deny lists, and finds nothing else. */
  lemma PolicyVerdict(emailDenied: bool, walletDenied: bool, amount: real)
    ensures var rule := PolicyRule(amount, emailDenied, walletDenied);
            && (Blocks(rule) <==> amount >= 500_000.0 || emailDenied || walletDenied)
            && Points(rule) == 100 * (If(amount >= 500_000.0, 1) + If(emailDenied, 1) + If(walletDenied, 1))
  {
  }

  /** Repeating a request while its event is within 24 hours never hardens the verdict. */
  lemma RepeatIsNeverHarsher(events: seq<Event>, event: Event, recorded: Event, later: Time,
                             opa: RuleResult, amountRule: RuleResult, others: seq<RuleResult>)
    requires event.seenKey != "" && event.at <= later
    requires recorded in BufferStep(events, event, event.at) && recorded.seenKey == event.seenKey
    requires later - recorded.at <= WINDOW_24H
    ensures var before := BufferStep(events, event, event.at);
            var after := BufferStep(before, event.(at := later), later);
            Severity(Result(AllRules(opa, amountRule, others, CountsOver(after, event.(at := later), later))))
            <= Severity(Result(AllRules(opa, amountRule, others, CountsOver(before, event, event.at))))
  {
    var before := BufferStep(events, event, event.at);
    var after := BufferStep(before, event.(at := later), later);
    RepeatAddsNothing(events, event, recorded, later);
    SameOthersMonotone(opa, amountRule, others, CountsOver(after, event.(at := later), later),
                       CountsOver(before, event, event.at));
  }

  lemma SameOthersMonotone(opa: RuleResult, amountRule: RuleResult, others: seq<RuleResult>, v: Counts, higher: Counts)
    requires NoCounterAbove(v, higher)
    ensures Severity(Result(AllRules(opa, amountRule, others, v)))
            <= Severity(Result(AllRules(opa, amountRule, others, higher)))
  {
    VelocityRuleMonotone(v, higher);
    AllRulesMonotone(opa, opa, amountRule, amountRule, others, v, higher);
  }

  // ---------- The whole check ----------

  class RuleBasedAntiFraud {
    const reviewAmountLimit: real
    const blockAmountLimit: real
    const velocity: VelocityStore

    constructor (sha256: string -> string)
      ensures fresh(velocity) && velocity.Valid() && velocity.Events() == [] && fresh(velocity.buf)
      ensures reviewAmountLimit == 100_000.0 && blockAmountLimit == 500_000.0 && velocity.sha256 == sha256
    {
      reviewAmountLimit, blockAmountLimit := 100_000.0, 500_000.0;
      velocity := new VelocityStore(sha256);
    }

    /** A cancelled call records nothing. Otherwise the attempt is recorded and counted before anything else, and a
        policy error leaves it recorded. */
    method Check(cancelled: Option<string>, req: PaymentRequest, now: Time, opa: Outcome<RuleResult>,
                 others: seq<RuleResult>)
      returns (verdict: Outcome<Verdict>)
      requires velocity.Valid()
      modifies velocity, velocity.buf
      ensures velocity.Valid()
      ensures velocity.Events()
              == if cancelled.Some? then old(velocity.Events())
                 else BufferStep(old(velocity.Events()), EventOf(velocity.sha256, req, now), now)
      ensures verdict.Ok? <==> cancelled.None? && opa.Ok?
      ensures verdict.Ok? ==>
                verdict.value.result
                == Result(AllRules(opa.value, AmountRule(req.amount.value, reviewAmountLimit, blockAmountLimit), others,
                                   CountsOver(velocity.Events(), EventOf(velocity.sha256, req, now), now)))
    {
      if cancelled.Some? {
        return Err(cancelled.value);
      }
      var counts := velocity.RecordAndCount(req, now);
      if opa.Err? {
        return Err(opa.message);
      }
      var velocityRule := CheckVelocity(counts);
      var amountRule := AmountRule(req.amount.value, reviewAmountLimit, blockAmountLimit);
      var v := Fold([opa.value, amountRule] + others + [velocityRule]);
      return Ok(v);
    }
  }
}
