# Transaction risk rules: a Dafny model

This project models the risk-evaluation core of the Hackillionis-2026 payments backend.

The first part is the **rule engine** in `app/services/rule_engine.py`:
- a per-user configuration row becomes a fully defaulted `UserRulesView`;
- four strategies each compare one stored transaction against one limit:
  - `MaxAmountRule` (weight 30),
  - `VelocityRule` (25),
  - `MonthlyLimitRule` (35),
  - `CountryBlockRule` (40);
- a `RuleEngine` runs its registered rules in order, stamps each verdict with the rule's name, sums the contributions, caps the sum at 100 and maps the score to ALLOW (below 40), REVIEW (40 to 70) or BLOCK (above 70).

The second part is the **configuration routes** in `app/routes/user_rule_config.py`. GET reads a user's row. POST creates or replaces the row. PATCH creates the row, or changes only the fields the client sent.

Modules, one file each:
- `wrappers.dfy` (`Wrappers`): `Option` and `Result`.
- `calendar.dfy` (`Calendar`): instants are microseconds since 1970-01-01 UTC. `StartOfMonth` gives midnight on day 1 of an instant's calendar month. It is computed by walking the Gregorian calendar month by month, and its contract ties the result to a closed-form day number of day 1 (`FirstDayOf`: the days of the whole years since 1970 plus the days of the earlier months of the year).
- `text.dfy` (`Text`): Python's `str.strip()` and `str.upper()` on `seq<char>`.
- `store.dfy` (`Store`): the stored transaction and configuration rows. It also holds the three read-only queries the engine issues, as functions over a sequence of rows: lookup by id, count since an instant, and sum since an instant.
- `rules.dfy` (`Rules`): the view, the verdicts, the decision policy, rule construction and the four strategies.
- `engine.dfy` (`Engine`): the `RuleEngine` class, the evaluation loop, the default engine and the aggregate properties.
- `user_rule_config.dfy` (`UserRuleConfigRoutes`): the `UserRuleConfigTable` class and its GET, POST and PATCH methods.

Design choices:
- `RuleEngine` is a class with a `seq<Rule>` field. `RegisterRule` appends to it.
- `EvaluateTransaction` is the source's loop, with the loop invariant that the verdicts gathered so far are those of the rules visited so far. It is proved equal to the specification function `Engine.Evaluation`, and the lemmas state their properties about that function.
- The configuration table is a class holding `map<int, UserRuleConfig>`.
- A PATCH body keeps "field not sent" (`Unset`) apart from "field sent as null" (`Set(None)`).
- PATCH runs the source's `setattr` loop over the sent fields, and is proved equal to the field-wise patch `PatchRecord`.

The code and its docstrings disagree in three places; the model follows the code:
- `VelocityRule`'s docstring says it triggers when the hourly count reaches the limit. The code triggers only when the count is strictly greater (`rule_engine.py:144`). The count covers every row of the user created in the last hour, and the evaluated transaction is already stored, so it counts itself (`rule_engine.py:136-144`). A limit of L therefore allows L transactions in the hour, this one included: L earlier transactions plus this one trigger the rule. `Rules.VelocityCountsEvaluatedTransaction` states this.
- `MonthlyLimitRule`'s docstring says it adds the current amount to the month's total. The code adds nothing. The current transaction counts only because it is already stored when it is evaluated (`rule_engine.py:176-183`). `Rules.MonthlyCountsStoredTransaction` states this.
- `MonthlyLimitRule`'s docstring and comment speak of this month (`rule_engine.py:158`, `rule_engine.py:172`). The query has a lower end only (`rule_engine.py:176-181`), so a record of the same user stored in a later month also counts. `Rules.MonthlyCountsLaterRecords` states this, and `Rules.MonthlyLaterMonthExample` shows a January purchase triggering because of a February one.

## Model

| member | source | states |
|---|---|---|
| Rules.GetUserRules | Hackillionis-2026/app/services/rule_engine.py:228-241 | no row gives the default view; an existing row's three limits are copied unchanged and a null blocked list reads as empty |
| Rules.DecisionFromScore | Hackillionis-2026/app/services/rule_engine.py:64-70 | ALLOW iff score < 40, REVIEW iff 40 <= score <= 70, BLOCK iff score > 70 |
| Rules.DecisionMonotone | Hackillionis-2026/app/services/rule_engine.py:64-70 | a higher score never gives a milder decision |
| Rules.DecisionBoundaries | Hackillionis-2026/app/services/rule_engine.py:64-70 | 39 is ALLOW, 40 and 70 are REVIEW, 71 is BLOCK |
| Rules.NewRule | Hackillionis-2026/app/services/rule_engine.py:76-80 | construction succeeds iff 0 <= weight <= 100, keeping the class name and the weight; otherwise it fails with the weight error |
| Rules.EvaluateMaxAmount | Hackillionis-2026/app/services/rule_engine.py:105-118 | triggers iff a limit is set and the amount is strictly above it; contribution is the weight when triggered, else 0 |
| Rules.EvaluateVelocity | Hackillionis-2026/app/services/rule_engine.py:133-154 | triggers iff a limit is set and the user's transactions created at or after now minus one hour number strictly more than the limit; contribution is the weight when triggered, else 0 |
| Rules.EvaluateMonthlyLimit | Hackillionis-2026/app/services/rule_engine.py:169-193 | triggers iff a limit is set and the user's amounts created at or after the start of the transaction's month sum to strictly more than the limit; contribution is the weight when triggered, else 0 |
| Rules.NormalizeAll | Hackillionis-2026/app/services/rule_engine.py:214 | a code is in the normalized list iff some non-empty blocked entry strips and upper-cases to it |
| Rules.NormalizeAllPair | Hackillionis-2026/app/services/rule_engine.py:214 | two non-empty entries normalize to their two normal forms, in order |
| Rules.EvaluateCountryBlock | Hackillionis-2026/app/services/rule_engine.py:208-225 | triggers iff the stripped, upper-cased country is non-empty and equals the normal form of some non-empty blocked entry; contribution is the weight when triggered, else 0 |
| Rules.EvaluateRule | Hackillionis-2026/app/services/rule_engine.py:82-90 | every strategy leaves the name empty and contributes exactly its weight when triggered and 0 otherwise, so 0 <= contribution <= weight |
| Rules.DefaultViewNeverTriggers | Hackillionis-2026/app/services/rule_engine.py:35-41 | under the default view (no limits, nothing blocked) no rule triggers and each contributes 0 |
| Rules.VelocityZeroIsALimit | Hackillionis-2026/app/services/rule_engine.py:133-144 | a limit of 0 triggers as soon as one of the user's transactions lies in the last hour, while no limit never triggers |
| Rules.VelocityCountsEvaluatedTransaction | Hackillionis-2026/app/services/rule_engine.py:133-154 | the stored evaluated transaction counts toward its own hour: with limit L, L earlier same-user rows in the window do not trigger, and those rows plus the evaluated one do |
| Rules.MonthlyCountsStoredTransaction | Hackillionis-2026/app/services/rule_engine.py:172-183 | the evaluated transaction, once stored, counts toward its own month: an amount above the limit triggers on its own |
| Rules.MonthlyIgnoresEarlierMonth | Hackillionis-2026/app/services/rule_engine.py:173-180 | a record from an earlier calendar month does not change the monthly verdict |
| Rules.MonthlyCountsLaterRecords | Hackillionis-2026/app/services/rule_engine.py:172-181 | the window has no upper end: a same-user record stored at or after the transaction, even in a later month, adds its whole amount to the monthly total |
| Rules.MonthlyLaterMonthExample | Hackillionis-2026/app/services/rule_engine.py:169-193 | with limit 100, a 60 purchase on 1970-01-31 23:00 does not trigger alone but triggers once a 60 purchase on 1970-02-01 00:30 (a different month) is stored |
| Rules.BlankCountryNeverBlocked | Hackillionis-2026/app/services/rule_engine.py:211-213 | an absent, empty or whitespace-only country never triggers the country block |
| Rules.CountryMatchExample | Hackillionis-2026/app/services/rule_engine.py:211-225 | country " IR " is blocked by the list ["ir"] |
| Calendar.StartOfMonth | Hackillionis-2026/app/services/rule_engine.py:173-175 | the month start is midnight on day 1 of the calendar month holding the instant: it equals the closed-form first day `FirstDayOf(year, month)` of a month whose days include the instant's day, so it is at or before the instant and the instant lies within that month's length from it |
| Calendar.MonthsMakeYear | Hackillionis-2026/app/services/rule_engine.py:173-175 | the twelve Gregorian month lengths add up to the year's 365 or 366 days |
| Calendar.NextMonth | Hackillionis-2026/app/services/rule_engine.py:173-175 | the month after a month starts on its own closed-form day 1, the day after the previous month's last day |
| Calendar.StartOfMonthExample | Hackillionis-2026/app/services/rule_engine.py:173-175 | noon on 1970-03-15 has month start 1970-03-01, day 59 |
| Calendar.StartOfMonthIdempotent | Hackillionis-2026/app/services/rule_engine.py:173-175 | taking the month start of a month start changes nothing |
| Calendar.SameMonth | Hackillionis-2026/app/services/rule_engine.py:173-175 | every instant from the month start up to t has the same month start as t |
| Calendar.EarlierMonthExcluded | Hackillionis-2026/app/services/rule_engine.py:173-179 | an instant no later than t whose month start differs lies strictly before t's month start, so the monthly filter drops it |
| Calendar.MonthOfDay | Hackillionis-2026/app/services/rule_engine.py:173-175 | the month found for a day number is a calendar month from 1970 on whose closed-form day 1 is no later than that day and whose length covers it |
| Calendar.DaysInMonth | Hackillionis-2026/app/services/rule_engine.py:173-175 | a calendar month has 28 to 31 days |
| Text.StripLeftSpec | Hackillionis-2026/app/services/rule_engine.py:211 | the left strip is a suffix of the text, only whitespace was removed, and it does not start with whitespace |
| Text.StripRightSpec | Hackillionis-2026/app/services/rule_engine.py:211 | the right strip is a prefix of the text, only whitespace was removed, and it does not end with whitespace |
| Text.StripEmptyIff | Hackillionis-2026/app/services/rule_engine.py:211-212 | a stripped text is empty iff the text is all whitespace |
| Text.NormalizeEmptyIff | Hackillionis-2026/app/services/rule_engine.py:211-212 | a normalized country is empty iff the country is all whitespace |
| Text.StripIdempotent | Hackillionis-2026/app/services/rule_engine.py:211 | stripping twice equals stripping once |
| Text.Upper | Hackillionis-2026/app/services/rule_engine.py:211 | upper-casing keeps the length |
| Text.NormalizeFixed | Hackillionis-2026/app/services/rule_engine.py:211 | text without whitespace or lower-case letters is its own normal form |
| Text.NormalizeExample | Hackillionis-2026/app/services/rule_engine.py:211 | " IR " and "ir" both normalize to "IR" |
| Text.CodeExamples | Hackillionis-2026/app/services/rule_engine.py:214 | the codes "US", "IR" and "KP" are in normal form |
| Store.FindTransaction | Hackillionis-2026/app/services/rule_engine.py:269-270 | no result iff no stored record carries the id; a result is a stored record with that id |
| Store.FindTransactionUnique | Hackillionis-2026/app/services/rule_engine.py:269-270 | with unique ids, looking up a record's id returns that record |
| Store.Matching | Hackillionis-2026/app/services/rule_engine.py:137-142 | the rows selected are exactly the stored rows of the user created at or after the start |
| Store.QueriesAppend | Hackillionis-2026/app/services/rule_engine.py:137-143 | count and sum over two parts of the table add up |
| Store.StoredRecordCounted | Hackillionis-2026/app/services/rule_engine.py:137-143 | a record in the window adds one to the count and its amount to the sum |
| Store.RecordOutsideWindowIgnored | Hackillionis-2026/app/services/rule_engine.py:176-182 | a record of another user or before the start changes neither count nor sum |
| Store.TotalNonNegative | Hackillionis-2026/app/services/rule_engine.py:176-182 | with positive amounts, the summed amounts (0 for no rows) are not negative |
| Store.SumCoversStoredRecord | Hackillionis-2026/app/services/rule_engine.py:176-182 | with positive amounts, a record in the window contributes at least its own amount and counts once |
| Store.CountSinceAntitone | Hackillionis-2026/app/services/rule_engine.py:136-143 | a later window start never raises the count |
| Store.SingleRecordQueries | Hackillionis-2026/app/services/rule_engine.py:137-143 | count and sum over a one-record table |
| Store.AllInWindowCounted | Hackillionis-2026/app/services/rule_engine.py:137-143 | when every row is the user's and created at or after the window start, `COUNT` returns the number of rows |
| Engine.StampedResult | Hackillionis-2026/app/services/rule_engine.py:277-278 | a recorded verdict carries the rule's name and contributes its weight iff triggered |
| Engine.EvaluateAll | Hackillionis-2026/app/services/rule_engine.py:275-279 | one verdict per rule, in rule order, each computed from that rule alone |
| Engine.EvaluateAllAppend | Hackillionis-2026/app/services/rule_engine.py:276-279 | evaluating two rule lists one after the other concatenates their verdicts |
| Engine.SumIsTriggeredWeight | Hackillionis-2026/app/services/rule_engine.py:281 | the summed contribution equals the total weight of the triggered rules, between 0 and the total weight |
| Engine.SumOfNothingTriggered | Hackillionis-2026/app/services/rule_engine.py:281 | when no rule triggers, the triggered weight is 0 |
| Engine.EvaluationShape | Hackillionis-2026/app/services/rule_engine.py:269-289 | evaluation fails iff the id is unknown, with not-found; on success, score in 0..100 with its decision, one verdict per rule in order under its name, each contributing 0 or its weight |
| Engine.RuleEngine.constructor | Hackillionis-2026/app/services/rule_engine.py:253-254 | a new engine has no rules |
| Engine.RuleEngine.RegisterRule | Hackillionis-2026/app/services/rule_engine.py:256-258 | appends the rule after every rule registered before |
| Engine.RuleEngine.EvaluateTransaction | Hackillionis-2026/app/services/rule_engine.py:260-289 | the loop's result equals the specification `Evaluation` over the registered rules |
| Engine.CreateDefaultEngine | Hackillionis-2026/app/services/rule_engine.py:292-299 | a fresh engine holding MaxAmount(30), Velocity(25), MonthlyLimit(35), CountryBlock(40) in that order |
| Engine.ScoreClamp | Hackillionis-2026/app/services/rule_engine.py:281-282 | a sum above 100 is reported as 100; a sum at most 100 is reported unchanged |
| Engine.SumIndependentOfOrder | Hackillionis-2026/app/services/rule_engine.py:276-281 | two rule lists holding the same rules, each as often (equal multisets), give the same summed contribution |
| Engine.ScoreIndependentOfOrder | Hackillionis-2026/app/services/rule_engine.py:276-283 | any reordering of the registered rules (equal multisets) reports the same score and decision |
| Engine.SumWithout | Hackillionis-2026/app/services/rule_engine.py:276-281 | removing one rule from anywhere in the list removes exactly its contribution from the sum |
| Engine.DefaultRulesUseClassDefaults | Hackillionis-2026/app/services/rule_engine.py:96-97 | each weight the factory passes (lines 295-298) is that rule class's default weight (lines 96, 124, 160, 199), so every default rule is what its class builds with no weight argument |
| Engine.NoConfigurationAllows | Hackillionis-2026/app/services/rule_engine.py:234-235 | for a user without a configuration row, any engine reports score 0 and ALLOW |
| Engine.FirstMatchFound | Hackillionis-2026/app/services/rule_engine.py:269-270 | the lookup returns the first record carrying the id |
| Engine.DefaultRulesSum | Hackillionis-2026/app/services/rule_engine.py:292-299 | the default engine's sum is the weights 30, 25, 35, 40 of whichever rules trigger |
| Engine.DefaultVerdicts | Hackillionis-2026/app/services/rule_engine.py:292-299 | the default engine reports four verdicts, in order the amount rule with weight 30, velocity 25, monthly 35 and country 40 |
| Engine.DefaultRulesAllTriggeredBlock | Hackillionis-2026/app/services/rule_engine.py:281-283 | all four default rules triggering sum to 130, reported as 100 and BLOCK |
| Engine.EvaluationFound | Hackillionis-2026/app/services/rule_engine.py:274-289 | a found transaction is evaluated with its owner's view, giving the capped sum and its decision |
| Engine.ScenarioVerdicts | Hackillionis-2026/app/services/rule_engine.py:105-193 | with limits 1000 / 5 per hour / 5000 per month and a single stored record, the amount rule triggers only for 1500 and the velocity and monthly rules do not |
| Engine.ScenarioCountryA | Hackillionis-2026/app/services/rule_engine.py:208-220 | "US" is not blocked by ["IR", "KP"] |
| Engine.ScenarioCountryB | Hackillionis-2026/app/services/rule_engine.py:208-225 | "ir" is blocked by ["IR", "KP"] |
| Engine.ScenarioA | Hackillionis-2026/app/services/rule_engine.py:260-299 | 1500 from "US" under that configuration: only the amount rule triggers, score 30, ALLOW |
| Engine.ScenarioB | Hackillionis-2026/app/services/rule_engine.py:260-299 | 100 from "ir": only the country rule triggers, score 40, REVIEW |
| UserRuleConfigRoutes.FromCreate | Hackillionis-2026/app/routes/user_rule_config.py:52-58 | a POST body within the schema's bounds yields a row within those bounds whose blocked list is not null |
| UserRuleConfigRoutes.FromUpdate | Hackillionis-2026/app/routes/user_rule_config.py:77-84 | a PATCH body within bounds creates a row within bounds whose blocked list is not null |
| UserRuleConfigRoutes.PatchRecord | Hackillionis-2026/app/routes/user_rule_config.py:89-93 | patching a row within bounds with a body within bounds keeps the row within bounds and its blocked list not null |
| UserRuleConfigRoutes.DumpWithoutNullList | Hackillionis-2026/app/routes/user_rule_config.py:89-91 | deleting a sent null list from the dump leaves exactly the assignments the loop performs |
| UserRuleConfigRoutes.ChangesPatch | Hackillionis-2026/app/routes/user_rule_config.py:89-93 | running the `setattr` loop over the kept assignments yields the field-wise patch |
| UserRuleConfigRoutes.NullListDeletionMatters | Hackillionis-2026/app/routes/user_rule_config.py:90-93 | without the deletion a sent null list would null the stored list; with it the stored list stays |
| UserRuleConfigRoutes.EmptyPatchKeepsRow | Hackillionis-2026/app/routes/user_rule_config.py:89-93 | a PATCH sending no field performs no assignment and keeps the row |
| UserRuleConfigRoutes.PatchIdempotent | Hackillionis-2026/app/routes/user_rule_config.py:89-93 | sending the same PATCH twice leaves the same row as sending it once |
| UserRuleConfigRoutes.PatchNulls | Hackillionis-2026/app/routes/user_rule_config.py:89-93 | a sent null number clears that limit, a sent null list keeps the stored list, and an omitted field keeps its value |
| UserRuleConfigRoutes.FullPatchVersusPost | Hackillionis-2026/app/routes/user_rule_config.py:44-48 | a PATCH sending every field of a POST body stores what POST stores, except for a null list, which POST empties and PATCH keeps |
| UserRuleConfigRoutes.CreatePathsAgree | Hackillionis-2026/app/routes/user_rule_config.py:52-58 | without a stored row, PATCH and POST with the same fields insert the same row |
| UserRuleConfigRoutes.PostedRulesReachEngine | Hackillionis-2026/app/routes/user_rule_config.py:44-48 | after POST the engine's view of the user is exactly the posted limits, with a null list read as empty |
| UserRuleConfigRoutes.UserRuleConfigTable.constructor | Hackillionis-2026/app/models/user_rule_config.py:22-34 | an empty table for a given set of users satisfies the table invariant |
| UserRuleConfigRoutes.UserRuleConfigTable.GetUserRules | Hackillionis-2026/app/routes/user_rule_config.py:19-29 | not-found iff the user is unknown; otherwise the user's row, or null iff there is none |
| UserRuleConfigRoutes.UserRuleConfigTable.CreateOrUpdateUserRules | Hackillionis-2026/app/routes/user_rule_config.py:32-62 | a body out of bounds or an unknown user changes nothing; otherwise the user's row becomes the POST row, replacing any old one, and the table invariant holds |
| UserRuleConfigRoutes.UserRuleConfigTable.UpdateUserRules | Hackillionis-2026/app/routes/user_rule_config.py:65-96 | a body out of bounds or an unknown user changes nothing; without a row one is created from the sent fields; with a row it becomes the field-wise patch; the table invariant holds |

## Left out

- Message strings of `RuleResult` are not modelled. Verdicts keep `triggered`, `risk_contribution` and `rule_name`.
- Floating point is not modelled. Amounts and limits are exact `real`s, which is enough because the code only compares and sums them. Rounding of a float sum is not captured.
- The database is not modelled as SQL, sessions, `flush`/`refresh` or `async`. The stored rows are a sequence, and the queries are pure functions over it.
- The row id of a configuration row and the response schema's `id`/`user_id` fields are not modelled.
- Transaction `status`, `currency` checks and `metadata` are not modelled; the engine does not read them.
- The clock is a parameter: `datetime.now(timezone.utc)` becomes the `now` argument of `EvaluateTransaction`.
- Time zones are not modelled. Instants are microseconds since 1970-01-01 UTC, so the month start is taken in UTC, and instants before 1970 are not represented.
- Text.Upper: `str.upper()` is modelled for ASCII letters only. Other letters, whose upper-case forms Python takes from Unicode tables, are left unchanged. Python's mapping can also change the length ('ß' becomes 'SS'), so "upper-casing keeps the length" holds of the model only.
- The schema bounds on request bodies are modelled as a 422 `Unprocessable` failure that precedes the user lookup, as the framework rejects the body before the handler runs. The error's detail text is not modelled.
- The set of users is fixed for the lifetime of a `UserRuleConfigTable`. Creating and deleting users, and the cascade that deletes a user's row, belong to other routes.
- The engine's failure to find a transaction is the `TransactionNotFound` error. Its mapping to an HTTP 404 belongs to the evaluation route.
- `app/services/risk_calculator.py` is not part of this model: it is a float scorer the engine never uses.
- The Capital One client and proxy routes are not part of this model; they are external I/O.
- Rows and rules are values, not objects with identity. The in-place updates of a row (`setattr`, field assignment) are modelled as replacing the row in the map, and aliasing of a row between requests is not captured.
