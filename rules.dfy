/**
 * The per-user configuration view, the four rule strategies and the decision
 * policy of the risk engine. Each rule compares one transaction against one
 * limit of the view and yields a verdict: triggered or not, and a risk
 * contribution that is the rule's weight when triggered and 0 otherwise.
 */
module Rules {
  import opened Wrappers
  import opened Calendar
  import opened Text
  import opened Store

  /** The limits one evaluation uses; `None` means "no limit", which is not the same as 0. */
  datatype UserRulesView = UserRulesView(
    maxTransactionAmount: Option<real>,
    maxTransactionsPerHour: Option<int>,
    monthlySpendingLimit: Option<real>,
    blockedCountries: seq<string>)

  /** The view used when a user has no configuration row: no limits, nothing blocked. */
  const DefaultUserRules: UserRulesView := UserRulesView(None, None, None, [])

  /** The view built from a user's configuration row, or the default view when there is none. */
  function GetUserRules(configs: map<int, UserRuleConfig>, userId: int): (v: UserRulesView)
    ensures userId !in configs ==> v == DefaultUserRules
    ensures userId in configs ==>
      && v.maxTransactionAmount == configs[userId].maxTransactionAmount
      && v.maxTransactionsPerHour == configs[userId].maxTransactionsPerHour
      && v.monthlySpendingLimit == configs[userId].monthlySpendingLimit
      && (configs[userId].blockedCountries.None? ==> v.blockedCountries == [])
      && (configs[userId].blockedCountries.Some? ==> v.blockedCountries == configs[userId].blockedCountries.value)
  {
    if userId !in configs then DefaultUserRules
    else
      var row := configs[userId];
      UserRulesView(row.maxTransactionAmount, row.maxTransactionsPerHour, row.monthlySpendingLimit,
                    row.blockedCountries.GetOr([]))
  }

  /** The verdict of one rule; the engine fills in `ruleName` after the rule has run. */
  datatype RuleResult = RuleResult(triggered: bool, riskContribution: int, ruleName: string)

  datatype Decision = Allow | Review | Block

  const AllowThreshold: int := 40
  const ReviewMax: int := 70

  /** ALLOW below 40, REVIEW from 40 to 70 inclusive, BLOCK above 70. */
  function DecisionFromScore(riskScore: int): (d: Decision)
    ensures d == Allow <==> riskScore < AllowThreshold
    ensures d == Review <==> AllowThreshold <= riskScore <= ReviewMax
    ensures d == Block <==> riskScore > ReviewMax
  {
    if riskScore < AllowThreshold then Allow
    else if riskScore <= ReviewMax then Review
    else Block
  }

  function Severity(d: Decision): nat {
    match d
    case Allow => 0
    case Review => 1
    case Block => 2
  }

  /** A higher score never yields a milder decision. */
  lemma DecisionMonotone(s1: int, s2: int)
    requires s1 <= s2
    ensures Severity(DecisionFromScore(s1)) <= Severity(DecisionFromScore(s2))
  {
  }

  /** The boundary scores of the policy. */
  lemma DecisionBoundaries()
    ensures DecisionFromScore(39) == Allow && DecisionFromScore(40) == Review
    ensures DecisionFromScore(70) == Review && DecisionFromScore(71) == Block
  {
  }

  type Weight = w: int | 0 <= w <= 100

  datatype RuleKind = MaxAmount | Velocity | MonthlyLimit | CountryBlock

  /** A constructed rule: its name and its weight, fixed at construction. */
  datatype Rule = Rule(kind: RuleKind, name: string, weight: Weight)

  datatype EngineError = InvalidConfiguration(weight: int) | TransactionNotFound(transactionId: int)

  function KindName(kind: RuleKind): string {
    match kind
    case MaxAmount => "MaxAmountRule"
    case Velocity => "VelocityRule"
    case MonthlyLimit => "MonthlyLimitRule"
    case CountryBlock => "CountryBlockRule"
  }

  /** The weight each rule class takes when none is given. */
  function DefaultWeight(kind: RuleKind): Weight {
    match kind
    case MaxAmount => 30
    case Velocity => 25
    case MonthlyLimit => 35
    case CountryBlock => 40
  }

  /** Constructing a rule: a weight outside 0..100 fails; otherwise the rule keeps its class name and the weight. */
  function NewRule(kind: RuleKind, weight: int): (r: Result<Rule, EngineError>)
    ensures r.Success? <==> 0 <= weight <= 100
    ensures r.Success? ==> r.value.kind == kind && r.value.name == KindName(kind) && r.value.weight == weight
    ensures r.Failure? ==> r.error == InvalidConfiguration(weight)
  {
    if 0 <= weight <= 100 then Success(Rule(kind, KindName(kind), weight))
    else Failure(InvalidConfiguration(weight))
  }

  /** A verdict before the engine stamps the rule name on it. */
  function Verdict(triggered: bool, weight: Weight): RuleResult {
    RuleResult(triggered, if triggered then weight else 0, "")
  }

  /** Triggers when the amount is strictly above the configured maximum. */
  function EvaluateMaxAmount(weight: Weight, tx: Transaction, view: UserRulesView): (r: RuleResult)
    ensures r.triggered <==> view.maxTransactionAmount.Some? && tx.amount > view.maxTransactionAmount.value
    ensures r == Verdict(r.triggered, weight)
  {
    match view.maxTransactionAmount
    case None => Verdict(false, weight)
    case Some(limit) => if tx.amount <= limit then Verdict(false, weight) else Verdict(true, weight)
  }

  /** Triggers when the user's transactions created in the hour up to `now` are strictly more than the limit. */
  function EvaluateVelocity(weight: Weight, tx: Transaction, view: UserRulesView, txs: seq<Transaction>, now: Timestamp): (r: RuleResult)
    ensures r.triggered <==>
      view.maxTransactionsPerHour.Some? && CountSince(txs, tx.userId, now - MicrosPerHour) > view.maxTransactionsPerHour.value
    ensures r == Verdict(r.triggered, weight)
  {
    match view.maxTransactionsPerHour
    case None => Verdict(false, weight)
    case Some(limit) =>
      var since := now - MicrosPerHour;
      var count := CountSince(txs, tx.userId, since);
      if count <= limit then Verdict(false, weight) else Verdict(true, weight)
  }

  /** Triggers when the user's stored amounts since the start of the transaction's month exceed the limit. */
  function EvaluateMonthlyLimit(weight: Weight, tx: Transaction, view: UserRulesView, txs: seq<Transaction>): (r: RuleResult)
    ensures r.triggered <==>
      view.monthlySpendingLimit.Some? && SumSince(txs, tx.userId, StartOfMonth(tx.createdAt)) > view.monthlySpendingLimit.value
    ensures r == Verdict(r.triggered, weight)
  {
    match view.monthlySpendingLimit
    case None => Verdict(false, weight)
    case Some(limit) =>
      var startOfMonth := StartOfMonth(tx.createdAt);
      var total := SumSince(txs, tx.userId, startOfMonth);
      if total <= limit then Verdict(false, weight) else Verdict(true, weight)
  }

  /** The blocked codes in normal form, skipping empty entries, in list order. */
  function NormalizeAll(blocked: seq<string>): (r: seq<string>)
    ensures forall c :: c in r <==> exists k :: 0 <= k < |blocked| && blocked[k] != [] && Normalize(blocked[k]) == c
  {
    if blocked == [] then []
    else
      var rest := NormalizeAll(blocked[1..]);
      assert forall k :: 1 <= k < |blocked| ==> blocked[k] == blocked[1..][k - 1];
      if blocked[0] != [] then [Normalize(blocked[0])] + rest else rest
  }

  /** Two non-empty blocked entries normalize to their two normal forms. */
  lemma NormalizeAllPair(a: string, b: string)
    requires a != [] && b != []
    ensures NormalizeAll([a, b]) == [Normalize(a), Normalize(b)]
  {
    assert [a, b][1..] == [b];
    assert [b][1..] == [];
    assert NormalizeAll([b]) == [Normalize(b)] + NormalizeAll([]);
    assert NormalizeAll([a, b]) == [Normalize(a)] + NormalizeAll([b]);
  }

  /** Triggers when the transaction's country, trimmed and upper-cased, is non-empty and one of the blocked codes. */
  function EvaluateCountryBlock(weight: Weight, tx: Transaction, view: UserRulesView): (r: RuleResult)
    ensures r.triggered <==>
      var country := Normalize(tx.country.GetOr(""));
      country != [] && exists k :: 0 <= k < |view.blockedCountries| && view.blockedCountries[k] != []
                                   && Normalize(view.blockedCountries[k]) == country
    ensures r == Verdict(r.triggered, weight)
  {
    var blocked := view.blockedCountries;
    if blocked == [] then Verdict(false, weight)
    else
      var country := Normalize(tx.country.GetOr(""));
      if country == [] then Verdict(false, weight)
      else
        var normalizedBlocked := NormalizeAll(blocked);
        if country !in normalizedBlocked then Verdict(false, weight) else Verdict(true, weight)
  }

  /** Runs one rule's strategy; the contribution is the weight exactly when the rule triggers. */
  function EvaluateRule(rule: Rule, tx: Transaction, view: UserRulesView, txs: seq<Transaction>, now: Timestamp): (r: RuleResult)
    ensures r.ruleName == ""
    ensures r.riskContribution == (if r.triggered then rule.weight else 0)
    ensures 0 <= r.riskContribution <= rule.weight
  {
    match rule.kind
    case MaxAmount => EvaluateMaxAmount(rule.weight, tx, view)
    case Velocity => EvaluateVelocity(rule.weight, tx, view, txs, now)
    case MonthlyLimit => EvaluateMonthlyLimit(rule.weight, tx, view, txs)
    case CountryBlock => EvaluateCountryBlock(rule.weight, tx, view)
  }

  /** No rule triggers under the default view. */
  lemma DefaultViewNeverTriggers(rule: Rule, tx: Transaction, txs: seq<Transaction>, now: Timestamp)
    ensures !EvaluateRule(rule, tx, DefaultUserRules, txs, now).triggered
    ensures EvaluateRule(rule, tx, DefaultUserRules, txs, now).riskContribution == 0
  {
  }

  /** A velocity limit of 0 is a real limit: any transaction of the user stored in the last hour, the
      evaluated one included, triggers it, while no limit never does. */
  lemma VelocityZeroIsALimit(weight: Weight, tx: Transaction, txs: seq<Transaction>, now: Timestamp, k: nat, view: UserRulesView)
    requires k < |txs| && txs[k].userId == tx.userId && txs[k].createdAt >= now - MicrosPerHour
    ensures view.maxTransactionsPerHour == Some(0) ==> EvaluateVelocity(weight, tx, view, txs, now).triggered
    ensures view.maxTransactionsPerHour == None ==> !EvaluateVelocity(weight, tx, view, txs, now).triggered
  {
    StoredRecordCounted(txs, k, now - MicrosPerHour);
  }

  /** The evaluated transaction is stored before it is evaluated and lies in the last hour, so it
      counts toward its own velocity: with limit L, L earlier transactions of the user in the window do
      not trigger the rule, but L earlier ones plus this one do. */
  lemma VelocityCountsEvaluatedTransaction(weight: Weight, tx: Transaction, view: UserRulesView, earlier: seq<Transaction>, now: Timestamp)
    requires view.maxTransactionsPerHour.Some? && |earlier| == view.maxTransactionsPerHour.value
    requires forall i :: 0 <= i < |earlier| ==> InWindow(earlier[i], tx.userId, now - MicrosPerHour)
    requires tx.createdAt >= now - MicrosPerHour
    ensures !EvaluateVelocity(weight, tx, view, earlier, now).triggered
    ensures EvaluateVelocity(weight, tx, view, earlier + [tx], now).triggered
  {
    AllInWindowCounted(earlier, tx.userId, now - MicrosPerHour);
    QueriesAppend(earlier, [tx], tx.userId, now - MicrosPerHour);
    SingleRecordQueries(tx, tx.userId, now - MicrosPerHour);
  }

  /** The evaluated transaction, already stored, counts toward its own monthly total: with positive
      amounts the monthly rule triggers whenever this one amount alone exceeds the limit. */
  lemma MonthlyCountsStoredTransaction(weight: Weight, txs: seq<Transaction>, k: nat, view: UserRulesView)
    requires ValidTransactions(txs) && k < |txs|
    requires view.monthlySpendingLimit.Some? && txs[k].amount > view.monthlySpendingLimit.value
    ensures EvaluateMonthlyLimit(weight, txs[k], view, txs).triggered
  {
    SumCoversStoredRecord(txs, k, StartOfMonth(txs[k].createdAt));
  }

  /** A stored record from an earlier calendar month, however close to the month boundary, does not change
      the monthly verdict. */
  lemma MonthlyIgnoresEarlierMonth(weight: Weight, tx: Transaction, view: UserRulesView, txs: seq<Transaction>, earlier: Transaction)
    requires earlier.createdAt <= tx.createdAt
    requires StartOfMonth(earlier.createdAt) != StartOfMonth(tx.createdAt)
    ensures EvaluateMonthlyLimit(weight, tx, view, txs + [earlier]) == EvaluateMonthlyLimit(weight, tx, view, txs)
  {
    EarlierMonthExcluded(tx.createdAt, earlier.createdAt);
    RecordOutsideWindowIgnored(txs, earlier, tx.userId, StartOfMonth(tx.createdAt));
  }

  /** The monthly window has no upper end: a record of the same user stored at or after the evaluated
      transaction, even one in a later calendar month, adds its whole amount to the monthly total. */
  lemma MonthlyCountsLaterRecords(tx: Transaction, txs: seq<Transaction>, later: Transaction)
    requires later.userId == tx.userId && later.createdAt >= tx.createdAt
    ensures SumSince(txs + [later], tx.userId, StartOfMonth(tx.createdAt))
         == SumSince(txs, tx.userId, StartOfMonth(tx.createdAt)) + later.amount
  {
    QueriesAppend(txs, [later], tx.userId, StartOfMonth(tx.createdAt));
    SingleRecordQueries(later, tx.userId, StartOfMonth(tx.createdAt));
  }

  /** With a limit of 100, a purchase of 60 at 1970-01-31 23:00 triggers the monthly rule once the same
      user's purchase of 60 at 1970-02-01 00:30 is stored, although that one falls in February. */
  lemma MonthlyLaterMonthExample(weight: Weight, tx: Transaction, later: Transaction, view: UserRulesView)
    requires tx.createdAt == 30 * MicrosPerDay + 23 * MicrosPerHour && tx.amount == 60.0
    requires later.userId == tx.userId && later.createdAt == 31 * MicrosPerDay + MicrosPerHour / 2
    requires later.amount == 60.0 && view.monthlySpendingLimit == Some(100.0)
    ensures StartOfMonth(later.createdAt) != StartOfMonth(tx.createdAt)
    ensures EvaluateMonthlyLimit(weight, tx, view, [tx, later]).triggered
    ensures !EvaluateMonthlyLimit(weight, tx, view, [tx]).triggered
  {
    assert tx.createdAt / MicrosPerDay == 30 && later.createdAt / MicrosPerDay == 31;
    var feb := NextMonth(Epoch);
    assert feb == MonthPos(1970, 2, 31);
    assert MonthFrom(30, Epoch) == Epoch;
    assert MonthFrom(31, Epoch) == MonthFrom(31, feb) == feb;
    var start := StartOfMonth(tx.createdAt);
    assert start == 0;
    SingleRecordQueries(tx, tx.userId, start);
    MonthlyCountsLaterRecords(tx, [tx], later);
  }

  /** An absent, empty or all-whitespace country never triggers the country block. */
  lemma BlankCountryNeverBlocked(weight: Weight, tx: Transaction, view: UserRulesView)
    requires forall i :: 0 <= i < |tx.country.GetOr("")| ==> IsSpace(tx.country.GetOr("")[i])
    ensures !EvaluateCountryBlock(weight, tx, view).triggered
  {
    NormalizeEmptyIff(tx.country.GetOr(""));
  }

  /** Matching ignores surrounding whitespace and letter case: " IR " is blocked by ["ir"]. */
  lemma CountryMatchExample(weight: Weight, tx: Transaction, view: UserRulesView)
    requires tx.country == Some(" IR ") && view.blockedCountries == ["ir"]
    ensures EvaluateCountryBlock(weight, tx, view).triggered
  {
    var country, blocked := tx.country.GetOr(""), view.blockedCountries;
    assert country == " IR " && blocked[0] == "ir";
    NormalizeExample();
    assert blocked[0] != [] && Normalize(blocked[0]) == Normalize(country) != [];
  }
}
