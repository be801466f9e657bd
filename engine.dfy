/**
 * The rule engine: an ordered registry of rules that evaluates one stored
 * transaction by id. It loads the transaction, builds its owner's view, runs
 * every registered rule in registration order, stamps each verdict with the
 * rule's name, sums the contributions, caps the sum at 100 and maps the score
 * to a decision.
 */
module Engine {
  import opened Wrappers
  import opened Calendar
  import opened Store
  import opened Text
  import opened Rules

  datatype EvaluationResult = EvaluationResult(
    transactionId: int,
    riskScore: int,
    decision: Decision,
    ruleResults: seq<RuleResult>)

  /** One rule's verdict as the engine records it: the rule's own result with the rule's name stamped on. */
  function StampedResult(rule: Rule, tx: Transaction, view: UserRulesView, txs: seq<Transaction>, now: Timestamp): (r: RuleResult)
    ensures r.ruleName == rule.name
    ensures r.riskContribution == (if r.triggered then rule.weight else 0)
  {
    EvaluateRule(rule, tx, view, txs, now).(ruleName := rule.name)
  }

  /** The verdict sequence of `rules`: one entry per rule, in order, each computed from that rule alone. */
  function EvaluateAll(rules: seq<Rule>, tx: Transaction, view: UserRulesView, txs: seq<Transaction>, now: Timestamp): (rs: seq<RuleResult>)
    ensures |rs| == |rules|
    ensures forall i :: 0 <= i < |rules| ==> rs[i] == StampedResult(rules[i], tx, view, txs, now)
  {
    if rules == [] then []
    else EvaluateAll(rules[..|rules| - 1], tx, view, txs, now) + [StampedResult(rules[|rules| - 1], tx, view, txs, now)]
  }

  /** `sum(r.risk_contribution for r in rule_results)`. */
  function SumContributions(rs: seq<RuleResult>): int {
    if rs == [] then 0 else rs[0].riskContribution + SumContributions(rs[1..])
  }

  /** The sum of the weights of the rules that triggered. */
  function TriggeredWeight(rules: seq<Rule>, rs: seq<RuleResult>): int
    requires |rs| == |rules|
  {
    if rules == [] then 0
    else (if rs[0].triggered then rules[0].weight else 0) + TriggeredWeight(rules[1..], rs[1..])
  }

  function TotalWeight(rules: seq<Rule>): nat {
    if rules == [] then 0 else rules[0].weight + TotalWeight(rules[1..])
  }

  function Min(a: int, b: int): int {
    if a <= b then a else b
  }

  /** The reported score: the summed contributions, capped at 100. */
  function RiskScore(rs: seq<RuleResult>): int {
    Min(100, SumContributions(rs))
  }

  lemma {:induction false} SumContributionsAppend(a: seq<RuleResult>, b: seq<RuleResult>)
    ensures SumContributions(a + b) == SumContributions(a) + SumContributions(b)
  {
    if a == [] {
      assert a + b == b;
    } else {
      assert (a + b)[1..] == a[1..] + b;
      SumContributionsAppend(a[1..], b);
    }
  }

  /** Evaluating a concatenation of rule lists concatenates their verdicts. */
  lemma {:induction false} EvaluateAllAppend(a: seq<Rule>, b: seq<Rule>, tx: Transaction, view: UserRulesView, txs: seq<Transaction>, now: Timestamp)
    ensures EvaluateAll(a + b, tx, view, txs, now) == EvaluateAll(a, tx, view, txs, now) + EvaluateAll(b, tx, view, txs, now)
  {
    var l := EvaluateAll(a + b, tx, view, txs, now);
    var la, lb := EvaluateAll(a, tx, view, txs, now), EvaluateAll(b, tx, view, txs, now);
    forall i | 0 <= i < |l| ensures l[i] == (la + lb)[i] {
      if i < |a| {
        assert (a + b)[i] == a[i] && (la + lb)[i] == la[i];
      } else {
        assert (a + b)[i] == b[i - |a|] && (la + lb)[i] == lb[i - |a|];
      }
    }
  }

  /** The summed contributions are exactly the weights of the rules that triggered. */
  lemma {:induction false} SumIsTriggeredWeight(rules: seq<Rule>, tx: Transaction, view: UserRulesView, txs: seq<Transaction>, now: Timestamp)
    ensures SumContributions(EvaluateAll(rules, tx, view, txs, now)) == TriggeredWeight(rules, EvaluateAll(rules, tx, view, txs, now))
    ensures 0 <= SumContributions(EvaluateAll(rules, tx, view, txs, now)) <= TotalWeight(rules)
  {
    if rules != [] {
      var rs := EvaluateAll(rules, tx, view, txs, now);
      var tail := EvaluateAll(rules[1..], tx, view, txs, now);
      assert rs[1..] == tail by {
        forall i | 0 <= i < |tail| ensures rs[1..][i] == tail[i] {
          assert rules[1..][i] == rules[i + 1];
        }
      }
      SumIsTriggeredWeight(rules[1..], tx, view, txs, now);
    }
  }

  /** Every contribution is 0: the score is 0. */
  lemma {:induction false} SumOfNothingTriggered(rules: seq<Rule>, tx: Transaction, view: UserRulesView, txs: seq<Transaction>, now: Timestamp)
    requires forall i :: 0 <= i < |rules| ==> !EvaluateRule(rules[i], tx, view, txs, now).triggered
    ensures TriggeredWeight(rules, EvaluateAll(rules, tx, view, txs, now)) == 0
  {
    if rules != [] {
      var rs := EvaluateAll(rules, tx, view, txs, now);
      var tail := EvaluateAll(rules[1..], tx, view, txs, now);
      assert rs[1..] == tail by {
        forall i | 0 <= i < |tail| ensures rs[1..][i] == tail[i] {
          assert rules[1..][i] == rules[i + 1];
        }
      }
      forall i | 0 <= i < |rules[1..]| ensures !EvaluateRule(rules[1..][i], tx, view, txs, now).triggered {
        assert rules[1..][i] == rules[i + 1];
      }
      SumOfNothingTriggered(rules[1..], tx, view, txs, now);
    }
  }

  /** The result `evaluate_transaction` produces for a database snapshot: not-found for an unknown id,
      otherwise the stamped verdicts of every rule, their capped sum and its decision. */
  function Evaluation(rules: seq<Rule>, db: Database, transactionId: int, now: Timestamp): Result<EvaluationResult, EngineError> {
    match FindTransaction(db.transactions, transactionId)
    case None => Failure(TransactionNotFound(transactionId))
    case Some(tx) =>
      var rs := EvaluateAll(rules, tx, GetUserRules(db.configs, tx.userId), db.transactions, now);
      var score := RiskScore(rs);
      Success(EvaluationResult(transactionId, score, DecisionFromScore(score), rs))
  }

  /** An evaluation fails exactly for an unknown id, with not-found and no partial result; otherwise it
      reports one verdict per registered rule, in registration order and under that rule's name, each
      contributing 0 or the rule's weight, and a score in 0..100 with its decision. */
  lemma EvaluationShape(rules: seq<Rule>, db: Database, transactionId: int, now: Timestamp)
    ensures var r := Evaluation(rules, db, transactionId, now);
      && (r.Failure? <==> forall k :: 0 <= k < |db.transactions| ==> db.transactions[k].id != transactionId)
      && (r.Failure? ==> r.error == TransactionNotFound(transactionId))
      && (r.Success? ==>
        && r.value.transactionId == transactionId
        && 0 <= r.value.riskScore <= 100
        && r.value.decision == DecisionFromScore(r.value.riskScore)
        && |r.value.ruleResults| == |rules|
        && (forall i :: 0 <= i < |rules| ==>
              && r.value.ruleResults[i].ruleName == rules[i].name
              && r.value.ruleResults[i].riskContribution in {0, rules[i].weight}))
  {
    match FindTransaction(db.transactions, transactionId)
    case None =>
    case Some(tx) =>
      SumIsTriggeredWeight(rules, tx, GetUserRules(db.configs, tx.userId), db.transactions, now);
  }

  /** The registry of rule strategies. */
  class RuleEngine {
    var rules: seq<Rule>

    constructor ()
      ensures rules == []
    {
      rules := [];
    }

    /** Appends a rule; it runs after every rule registered before it. */
    method RegisterRule(rule: Rule)
      modifies this
      ensures rules == old(rules) + [rule]
    {
      rules := rules + [rule];
    }

    /** Evaluates the stored transaction `transactionId` against every registered rule, with `now` the
        instant the velocity window ends at. */
    method EvaluateTransaction(transactionId: int, db: Database, now: Timestamp) returns (r: Result<EvaluationResult, EngineError>)
      ensures r == Evaluation(rules, db, transactionId, now)
    {
      var found := FindTransaction(db.transactions, transactionId);
      if found.None? {
        return Failure(TransactionNotFound(transactionId));
      }
      var transaction := found.value;
      var userRules := GetUserRules(db.configs, transaction.userId);
      var ruleResults: seq<RuleResult> := [];
      for i := 0 to |rules|
        invariant ruleResults == EvaluateAll(rules[..i], transaction, userRules, db.transactions, now)
      {
        var rule := rules[i];
        var rr := EvaluateRule(rule, transaction, userRules, db.transactions, now);
        rr := rr.(ruleName := rule.name);
        ruleResults := ruleResults + [rr];
        assert rules[..i + 1][..i] == rules[..i] && rules[..i + 1][i] == rule;
        assert rr == StampedResult(rule, transaction, userRules, db.transactions, now);
      }
      assert rules[..|rules|] == rules;
      var riskScore := SumContributions(ruleResults);
      riskScore := Min(100, riskScore);
      var decision := DecisionFromScore(riskScore);
      r := Success(EvaluationResult(transactionId, riskScore, decision, ruleResults));
    }
  }

  /** MaxAmount(30), Velocity(25), MonthlyLimit(35), CountryBlock(40), in this order. */
  const DefaultRules: seq<Rule> := [
    Rule(MaxAmount, "MaxAmountRule", 30),
    Rule(Velocity, "VelocityRule", 25),
    Rule(MonthlyLimit, "MonthlyLimitRule", 35),
    Rule(CountryBlock, "CountryBlockRule", 40)]

  /** The engine every endpoint shares, with the four rules registered in their fixed order. */
  method CreateDefaultEngine() returns (engine: RuleEngine)
    ensures fresh(engine) && engine.rules == DefaultRules
  {
    engine := new RuleEngine();
    var maxAmount := NewRule(MaxAmount, 30);
    var velocity := NewRule(Velocity, 25);
    var monthly := NewRule(MonthlyLimit, 35);
    var country := NewRule(CountryBlock, 40);
    engine.RegisterRule(maxAmount.value);
    engine.RegisterRule(velocity.value);
    engine.RegisterRule(monthly.value);
    engine.RegisterRule(country.value);
  }

  /** The factory's explicit weights are each rule class's default weight, so every default rule is
      what constructing its class with no weight argument gives. */
  lemma DefaultRulesUseClassDefaults()
    ensures forall i :: 0 <= i < |DefaultRules| ==>
      NewRule(DefaultRules[i].kind, DefaultWeight(DefaultRules[i].kind)) == Success(DefaultRules[i])
  {
  }

  /** A summed contribution above 100 is reported as exactly 100; one at most 100 is reported as is. */
  lemma ScoreClamp(rs: seq<RuleResult>)
    ensures SumContributions(rs) > 100 ==> RiskScore(rs) == 100
    ensures SumContributions(rs) <= 100 ==> RiskScore(rs) == SumContributions(rs)
  {
  }

  /** Taking one rule out of the middle of a list takes its contribution out of the sum. */
  lemma SumWithout(before: seq<Rule>, x: Rule, after: seq<Rule>, tx: Transaction, view: UserRulesView, txs: seq<Transaction>, now: Timestamp)
    ensures SumContributions(EvaluateAll(before + [x] + after, tx, view, txs, now))
         == SumContributions(EvaluateAll([x], tx, view, txs, now)) + SumContributions(EvaluateAll(before + after, tx, view, txs, now))
  {
    var ex := EvaluateAll([x], tx, view, txs, now);
    var eb, ef := EvaluateAll(before, tx, view, txs, now), EvaluateAll(after, tx, view, txs, now);
    EvaluateAllAppend(before + [x], after, tx, view, txs, now);
    EvaluateAllAppend(before, [x], tx, view, txs, now);
    SumContributionsAppend(eb + ex, ef);
    SumContributionsAppend(eb, ex);
    EvaluateAllAppend(before, after, tx, view, txs, now);
    SumContributionsAppend(eb, ef);
  }

  /** Taking the same element out of two lists with equal multisets leaves equal multisets. */
  lemma RemoveOne<T>(a: seq<T>, b: seq<T>, j: nat)
    requires a != [] && j < |b| && b[j] == a[0] && multiset(a) == multiset(b)
    ensures multiset(a[1..]) == multiset(b[..j] + b[j + 1..])
  {
    var x := a[0];
    assert a == [x] + a[1..];
    assert b == b[..j] + [x] + b[j + 1..];
    assert multiset(a[1..]) == multiset(a) - multiset{x};
    assert multiset(b[..j] + b[j + 1..]) == multiset(b) - multiset{x};
  }

  /** Registration order changes the presentation order of the verdicts but not the score: any two
      lists holding the same rules, each as often, give the same summed contribution. */
  lemma {:induction false} SumIndependentOfOrder(a: seq<Rule>, b: seq<Rule>, tx: Transaction, view: UserRulesView, txs: seq<Transaction>, now: Timestamp)
    requires multiset(a) == multiset(b)
    ensures SumContributions(EvaluateAll(a, tx, view, txs, now)) == SumContributions(EvaluateAll(b, tx, view, txs, now))
    decreases |a|
  {
    if a == [] {
      assert |b| == |multiset(b)| == 0;
    } else {
      var x := a[0];
      assert x in multiset(b);
      var j :| 0 <= j < |b| && b[j] == x;
      var before, after := b[..j], b[j + 1..];
      assert b == before + [x] + after;
      assert a == [x] + a[1..];
      RemoveOne(a, b, j);
      SumIndependentOfOrder(a[1..], before + after, tx, view, txs, now);
      EvaluateAllAppend([x], a[1..], tx, view, txs, now);
      SumContributionsAppend(EvaluateAll([x], tx, view, txs, now), EvaluateAll(a[1..], tx, view, txs, now));
      SumWithout(before, x, after, tx, view, txs, now);
    }
  }

  /** Any reordering of the registered rules reports the same score. */
  lemma ScoreIndependentOfOrder(a: seq<Rule>, b: seq<Rule>, tx: Transaction, view: UserRulesView, txs: seq<Transaction>, now: Timestamp)
    requires multiset(a) == multiset(b)
    ensures RiskScore(EvaluateAll(a, tx, view, txs, now)) == RiskScore(EvaluateAll(b, tx, view, txs, now))
    ensures DecisionFromScore(RiskScore(EvaluateAll(a, tx, view, txs, now)))
         == DecisionFromScore(RiskScore(EvaluateAll(b, tx, view, txs, now)))
  {
    SumIndependentOfOrder(a, b, tx, view, txs, now);
  }

  /** For a user without a configuration row every engine reports score 0 and ALLOW, whatever the
      amount or country. */
  lemma NoConfigurationAllows(rules: seq<Rule>, db: Database, k: nat, now: Timestamp)
    requires k < |db.transactions| && db.transactions[k].userId !in db.configs
    requires forall j :: 0 <= j < k ==> db.transactions[j].id != db.transactions[k].id
    ensures Evaluation(rules, db, db.transactions[k].id, now).Success?
    ensures Evaluation(rules, db, db.transactions[k].id, now).value.riskScore == 0
    ensures Evaluation(rules, db, db.transactions[k].id, now).value.decision == Allow
  {
    var tx := db.transactions[k];
    FirstMatchFound(db.transactions, k);
    var view := GetUserRules(db.configs, tx.userId);
    forall i | 0 <= i < |rules| ensures !EvaluateRule(rules[i], tx, view, db.transactions, now).triggered {
      DefaultViewNeverTriggers(rules[i], tx, db.transactions, now);
    }
    SumOfNothingTriggered(rules, tx, view, db.transactions, now);
    SumIsTriggeredWeight(rules, tx, view, db.transactions, now);
  }

  /** The lookup finds the first record carrying an id. */
  lemma {:induction false} FirstMatchFound(txs: seq<Transaction>, k: nat)
    requires k < |txs| && forall j :: 0 <= j < k ==> txs[j].id != txs[k].id
    ensures FindTransaction(txs, txs[k].id) == Some(txs[k])
  {
    if k > 0 {
      assert txs[1..][k - 1] == txs[k];
      FirstMatchFound(txs[1..], k - 1);
    }
  }

  /** The default engine's summed contribution: the weights of whichever of its four rules trigger. */
  lemma DefaultRulesSum(tx: Transaction, view: UserRulesView, txs: seq<Transaction>, now: Timestamp)
    ensures var rs := EvaluateAll(DefaultRules, tx, view, txs, now);
      SumContributions(rs) ==
        (if rs[0].triggered then 30 else 0) + (if rs[1].triggered then 25 else 0)
        + (if rs[2].triggered then 35 else 0) + (if rs[3].triggered then 40 else 0)
  {
    var rs := EvaluateAll(DefaultRules, tx, view, txs, now);
    assert SumContributions(rs) == rs[0].riskContribution + SumContributions(rs[1..]);
    assert SumContributions(rs[1..]) == rs[1].riskContribution + SumContributions(rs[2..]);
    assert SumContributions(rs[2..]) == rs[2].riskContribution + SumContributions(rs[3..]);
    assert SumContributions(rs[3..]) == rs[3].riskContribution + SumContributions(rs[4..]);
  }

  /** The default engine's verdicts, one per strategy, under the default weights. */
  lemma DefaultVerdicts(tx: Transaction, view: UserRulesView, txs: seq<Transaction>, now: Timestamp)
    ensures var rs := EvaluateAll(DefaultRules, tx, view, txs, now);
      && |rs| == 4
      && rs[0].triggered == EvaluateMaxAmount(30, tx, view).triggered
      && rs[1].triggered == EvaluateVelocity(25, tx, view, txs, now).triggered
      && rs[2].triggered == EvaluateMonthlyLimit(35, tx, view, txs).triggered
      && rs[3].triggered == EvaluateCountryBlock(40, tx, view).triggered
  {
  }

  /** When all four default rules trigger, the raw sum 130 is reported as 100 and the decision is BLOCK. */
  lemma DefaultRulesAllTriggeredBlock(tx: Transaction, view: UserRulesView, txs: seq<Transaction>, now: Timestamp)
    requires forall i :: 0 <= i < |DefaultRules| ==> EvaluateRule(DefaultRules[i], tx, view, txs, now).triggered
    ensures SumContributions(EvaluateAll(DefaultRules, tx, view, txs, now)) == 130
    ensures RiskScore(EvaluateAll(DefaultRules, tx, view, txs, now)) == 100
    ensures DecisionFromScore(RiskScore(EvaluateAll(DefaultRules, tx, view, txs, now))) == Block
  {
    DefaultRulesSum(tx, view, txs, now);
  }

  /** A successful evaluation of a found transaction. */
  lemma EvaluationFound(rules: seq<Rule>, db: Database, tx: Transaction, now: Timestamp)
    requires FindTransaction(db.transactions, tx.id) == Some(tx)
    ensures var rs := EvaluateAll(rules, tx, GetUserRules(db.configs, tx.userId), db.transactions, now);
      Evaluation(rules, db, tx.id, now) == Success(EvaluationResult(tx.id, RiskScore(rs), DecisionFromScore(RiskScore(rs)), rs))
  {
  }

  /** The configuration of the two end-to-end scenarios below. */
  const ScenarioConfig: UserRuleConfig := UserRuleConfig(Some(1000.0), Some(5), Some(5000.0), Some(["IR", "KP"]))

  /** The view the scenario configuration yields. */
  const ScenarioView: UserRulesView := UserRulesView(Some(1000.0), Some(5), Some(5000.0), ["IR", "KP"])

  lemma ScenarioVerdicts(tx: Transaction, now: Timestamp)
    requires tx.amount == 1500.0 || tx.amount == 100.0
    ensures EvaluateMaxAmount(30, tx, ScenarioView).triggered <==> tx.amount == 1500.0
    ensures !EvaluateVelocity(25, tx, ScenarioView, [tx], now).triggered
    ensures !EvaluateMonthlyLimit(35, tx, ScenarioView, [tx]).triggered
  {
    SingleRecordQueries(tx, tx.userId, now - MicrosPerHour);
    SingleRecordQueries(tx, tx.userId, StartOfMonth(tx.createdAt));
  }

  /** "US" is not blocked by ["IR", "KP"]. */
  lemma ScenarioCountryA(tx: Transaction)
    requires tx.country == Some("US")
    ensures !EvaluateCountryBlock(40, tx, ScenarioView).triggered
  {
    CodeExamples();
    NormalizeAllPair("IR", "KP");
  }

  /** "ir" is blocked by ["IR", "KP"]. */
  lemma ScenarioCountryB(tx: Transaction)
    requires tx.country == Some("ir")
    ensures EvaluateCountryBlock(40, tx, ScenarioView).triggered
  {
    CodeExamples();
    NormalizeExample();
    assert ScenarioView.blockedCountries[0] == "IR";
  }

  /** Scenario A: 1500 from "US" with no other history: only the amount limit triggers (30), so ALLOW. */
  lemma ScenarioA(tx: Transaction, now: Timestamp)
    requires tx.amount == 1500.0 && tx.country == Some("US")
    ensures var r := Evaluation(DefaultRules, Database([tx], map[tx.userId := ScenarioConfig]), tx.id, now);
      && r.Success? && r.value.riskScore == 30 && r.value.decision == Allow
      && |r.value.ruleResults| == 4
      && r.value.ruleResults[0].triggered && !r.value.ruleResults[1].triggered
      && !r.value.ruleResults[2].triggered && !r.value.ruleResults[3].triggered
  {
    var db := Database([tx], map[tx.userId := ScenarioConfig]);
    assert FindTransaction(db.transactions, tx.id) == Some(tx);
    assert GetUserRules(db.configs, tx.userId) == ScenarioView;
    EvaluationFound(DefaultRules, db, tx, now);
    ScenarioVerdicts(tx, now);
    ScenarioCountryA(tx);
    DefaultVerdicts(tx, ScenarioView, [tx], now);
    DefaultRulesSum(tx, ScenarioView, [tx], now);
  }

  /** Scenario B: 100 from "ir", blocked as "IR": only the country block triggers (40), so REVIEW. */
  lemma ScenarioB(tx: Transaction, now: Timestamp)
    requires tx.amount == 100.0 && tx.country == Some("ir")
    ensures var r := Evaluation(DefaultRules, Database([tx], map[tx.userId := ScenarioConfig]), tx.id, now);
      && r.Success? && r.value.riskScore == 40 && r.value.decision == Review
      && |r.value.ruleResults| == 4
      && !r.value.ruleResults[0].triggered && !r.value.ruleResults[1].triggered
      && !r.value.ruleResults[2].triggered && r.value.ruleResults[3].triggered
  {
    var db := Database([tx], map[tx.userId := ScenarioConfig]);
    assert FindTransaction(db.transactions, tx.id) == Some(tx);
    assert GetUserRules(db.configs, tx.userId) == ScenarioView;
    EvaluationFound(DefaultRules, db, tx, now);
    ScenarioVerdicts(tx, now);
    ScenarioCountryB(tx);
    DefaultVerdicts(tx, ScenarioView, [tx], now);
    DefaultRulesSum(tx, ScenarioView, [tx], now);
  }
}
