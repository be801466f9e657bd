/**
 * The per-user rule configuration routes: read a user's row, replace it
 * (POST) or change some of its fields (PATCH). A request body that breaks the
 * schema's bounds is refused before the handler runs; a user that does not
 * exist is "User not found". Both writing routes create the row when the user
 * has none.
 */
module UserRuleConfigRoutes {
  import opened Wrappers
  import opened Store
  import Rules

  /** A PATCH field: left out of the request body, or given (possibly as null). */
  datatype Settable<T> = Unset | Set(to: Option<T>)

  /** The POST body. Every field has a default, so an omitted field reads as null (an omitted list as empty). */
  datatype ConfigCreate = ConfigCreate(
    maxTransactionAmount: Option<real>,
    maxTransactionsPerHour: Option<int>,
    monthlySpendingLimit: Option<real>,
    blockedCountries: Option<seq<string>>)

  /** The PATCH body, which remembers which fields the client actually sent. */
  datatype ConfigUpdate = ConfigUpdate(
    maxTransactionAmount: Settable<real>,
    maxTransactionsPerHour: Settable<int>,
    monthlySpendingLimit: Settable<real>,
    blockedCountries: Settable<seq<string>>)

  /** 404 for a missing user; 422 for a body the schema refuses. */
  datatype RouteError = UserNotFound | Unprocessable

  /** One `setattr` of the PATCH loop: a column and the value written into it. */
  datatype FieldAssignment =
    | AssignMaxAmount(amount: Option<real>)
    | AssignMaxPerHour(count: Option<int>)
    | AssignMonthly(limit: Option<real>)
    | AssignBlocked(countries: Option<seq<string>>)

  predicate PositiveOrNull(x: Option<real>) {
    x.None? || x.value > 0.0
  }

  predicate NonNegativeOrNull(x: Option<real>) {
    x.None? || x.value >= 0.0
  }

  predicate NonNegativeCountOrNull(x: Option<int>) {
    x.None? || x.value >= 0
  }

  /** The bounds the POST schema puts on its numbers: amount > 0, count >= 0, monthly limit >= 0. */
  predicate ValidCreate(p: ConfigCreate) {
    && PositiveOrNull(p.maxTransactionAmount)
    && NonNegativeCountOrNull(p.maxTransactionsPerHour)
    && NonNegativeOrNull(p.monthlySpendingLimit)
  }

  /** What the attribute of a PATCH body reads as: an omitted field is null. */
  function Given<T>(s: Settable<T>): Option<T> {
    if s.Set? then s.to else None
  }

  /** The same bounds on the fields of a PATCH body. */
  predicate ValidUpdate(p: ConfigUpdate) {
    && PositiveOrNull(Given(p.maxTransactionAmount))
    && NonNegativeCountOrNull(Given(p.maxTransactionsPerHour))
    && NonNegativeOrNull(Given(p.monthlySpendingLimit))
  }

  /** A stored row as the routes leave it: a blocked-country list (never null) and numbers within the schema's bounds. */
  predicate ValidRow(c: UserRuleConfig) {
    && PositiveOrNull(c.maxTransactionAmount)
    && NonNegativeCountOrNull(c.maxTransactionsPerHour)
    && NonNegativeOrNull(c.monthlySpendingLimit)
    && c.blockedCountries.Some?
  }

  /** The row POST stores, whether it replaces an existing row or inserts a new one: a null list becomes empty. */
  function FromCreate(p: ConfigCreate): (c: UserRuleConfig)
    ensures ValidCreate(p) ==> ValidRow(c)
  {
    UserRuleConfig(p.maxTransactionAmount, p.maxTransactionsPerHour, p.monthlySpendingLimit,
                   Some(p.blockedCountries.GetOr([])))
  }

  /** The row PATCH inserts for a user without one: omitted fields are null, an omitted or null list is empty. */
  function FromUpdate(p: ConfigUpdate): (c: UserRuleConfig)
    ensures ValidUpdate(p) ==> ValidRow(c)
  {
    UserRuleConfig(Given(p.maxTransactionAmount), Given(p.maxTransactionsPerHour), Given(p.monthlySpendingLimit),
                   Some(Given(p.blockedCountries).GetOr([])))
  }

  function PatchField<T>(current: Option<T>, s: Settable<T>): Option<T> {
    if s.Set? then s.to else current
  }

  /** The row PATCH leaves behind on an existing row: every sent field overwritten (a null number clears
      it), every omitted field kept, and a null list ignored. */
  function PatchRecord(existing: UserRuleConfig, p: ConfigUpdate): (c: UserRuleConfig)
    ensures ValidRow(existing) && ValidUpdate(p) ==> ValidRow(c)
  {
    UserRuleConfig(
      PatchField(existing.maxTransactionAmount, p.maxTransactionAmount),
      PatchField(existing.maxTransactionsPerHour, p.maxTransactionsPerHour),
      PatchField(existing.monthlySpendingLimit, p.monthlySpendingLimit),
      if p.blockedCountries.Set? && p.blockedCountries.to.Some? then p.blockedCountries.to
      else existing.blockedCountries)
  }

  /** The entries `model_dump(exclude_unset=True)` yields, one per sent field, in declaration order. */
  function AmountEntry(p: ConfigUpdate): seq<FieldAssignment> {
    if p.maxTransactionAmount.Set? then [AssignMaxAmount(p.maxTransactionAmount.to)] else []
  }

  function PerHourEntry(p: ConfigUpdate): seq<FieldAssignment> {
    if p.maxTransactionsPerHour.Set? then [AssignMaxPerHour(p.maxTransactionsPerHour.to)] else []
  }

  function MonthlyEntry(p: ConfigUpdate): seq<FieldAssignment> {
    if p.monthlySpendingLimit.Set? then [AssignMonthly(p.monthlySpendingLimit.to)] else []
  }

  function BlockedEntry(p: ConfigUpdate): seq<FieldAssignment> {
    if p.blockedCountries.Set? then [AssignBlocked(p.blockedCountries.to)] else []
  }

  function Dump(p: ConfigUpdate): seq<FieldAssignment> {
    AmountEntry(p) + PerHourEntry(p) + MonthlyEntry(p) + BlockedEntry(p)
  }

  /** The dump with a null blocked-country entry deleted: the assignments the PATCH loop performs. */
  function Changes(p: ConfigUpdate): seq<FieldAssignment> {
    AmountEntry(p) + PerHourEntry(p) + MonthlyEntry(p)
      + (if p.blockedCountries == Set(None) then [] else BlockedEntry(p))
  }

  /** Deleting the dump's last entry when it is a null list leaves exactly the kept assignments. */
  lemma DumpWithoutNullList(p: ConfigUpdate)
    ensures p.blockedCountries != Set(None) ==> Dump(p) == Changes(p)
    ensures p.blockedCountries == Set(None) ==> |Dump(p)| > 0 && Dump(p)[..|Dump(p)| - 1] == Changes(p)
  {
    var nums := AmountEntry(p) + PerHourEntry(p) + MonthlyEntry(p);
    if p.blockedCountries == Set(None) {
      assert Dump(p) == nums + [AssignBlocked(None)];
    }
  }

  /** `setattr(existing, key, value)` for one entry. */
  function ApplyAssignment(c: UserRuleConfig, a: FieldAssignment): UserRuleConfig {
    match a
    case AssignMaxAmount(v) => c.(maxTransactionAmount := v)
    case AssignMaxPerHour(v) => c.(maxTransactionsPerHour := v)
    case AssignMonthly(v) => c.(monthlySpendingLimit := v)
    case AssignBlocked(v) => c.(blockedCountries := v)
  }

  /** The row after performing `data`'s assignments in order. */
  function ApplyAll(c: UserRuleConfig, data: seq<FieldAssignment>): UserRuleConfig {
    if data == [] then c else ApplyAssignment(ApplyAll(c, data[..|data| - 1]), data[|data| - 1])
  }

  /** The PATCH body that sends every field of a POST body. */
  function AllSet(p: ConfigCreate): ConfigUpdate {
    ConfigUpdate(Set(p.maxTransactionAmount), Set(p.maxTransactionsPerHour), Set(p.monthlySpendingLimit),
                 Set(p.blockedCountries))
  }

  const NoChanges := ConfigUpdate(Unset, Unset, Unset, Unset)

  lemma {:induction false} ApplyAllAppend(c: UserRuleConfig, a: seq<FieldAssignment>, b: seq<FieldAssignment>)
    ensures ApplyAll(c, a + b) == ApplyAll(ApplyAll(c, a), b)
  {
    if b == [] {
      assert a + b == a;
    } else {
      assert (a + b)[..|a + b| - 1] == a + b[..|b| - 1];
      assert (a + b)[|a + b| - 1] == b[|b| - 1];
      ApplyAllAppend(c, a, b[..|b| - 1]);
    }
  }

  lemma ApplyOne(c: UserRuleConfig, a: FieldAssignment)
    ensures ApplyAll(c, [a]) == ApplyAssignment(c, a)
  {
    assert [a][..0] == [];
  }

  /** Assignments after the first three entries leave the three numbers alone; the dump's last entry is the list's. */
  lemma ApplyEntries(c: UserRuleConfig, p: ConfigUpdate)
    ensures ApplyAll(c, AmountEntry(p)).maxTransactionAmount == PatchField(c.maxTransactionAmount, p.maxTransactionAmount)
    ensures ApplyAll(c, AmountEntry(p)).(maxTransactionAmount := c.maxTransactionAmount) == c
    ensures ApplyAll(c, PerHourEntry(p)).maxTransactionsPerHour == PatchField(c.maxTransactionsPerHour, p.maxTransactionsPerHour)
    ensures ApplyAll(c, PerHourEntry(p)).(maxTransactionsPerHour := c.maxTransactionsPerHour) == c
    ensures ApplyAll(c, MonthlyEntry(p)).monthlySpendingLimit == PatchField(c.monthlySpendingLimit, p.monthlySpendingLimit)
    ensures ApplyAll(c, MonthlyEntry(p)).(monthlySpendingLimit := c.monthlySpendingLimit) == c
    ensures ApplyAll(c, BlockedEntry(p)) == c.(blockedCountries := PatchField(c.blockedCountries, p.blockedCountries))
  {
    if p.maxTransactionAmount.Set? { ApplyOne(c, AssignMaxAmount(p.maxTransactionAmount.to)); }
    if p.maxTransactionsPerHour.Set? { ApplyOne(c, AssignMaxPerHour(p.maxTransactionsPerHour.to)); }
    if p.monthlySpendingLimit.Set? { ApplyOne(c, AssignMonthly(p.monthlySpendingLimit.to)); }
    if p.blockedCountries.Set? { ApplyOne(c, AssignBlocked(p.blockedCountries.to)); }
  }

  /** The three numeric assignments of a dump, performed in order. */
  lemma ApplyNumbers(e: UserRuleConfig, p: ConfigUpdate)
    ensures ApplyAll(e, AmountEntry(p) + PerHourEntry(p) + MonthlyEntry(p))
         == PatchRecord(e, p).(blockedCountries := e.blockedCountries)
  {
    var a, b, m := AmountEntry(p), PerHourEntry(p), MonthlyEntry(p);
    ApplyAllAppend(e, a + b, m);
    ApplyAllAppend(e, a, b);
    var e1 := ApplyAll(e, a);
    var e2 := ApplyAll(e1, b);
    ApplyEntries(e, p);
    ApplyEntries(e1, p);
    ApplyEntries(e2, p);
  }

  /** The PATCH loop over the kept assignments produces exactly the field-wise patch. */
  lemma ChangesPatch(e: UserRuleConfig, p: ConfigUpdate)
    ensures ApplyAll(e, Changes(p)) == PatchRecord(e, p)
  {
    var nums := AmountEntry(p) + PerHourEntry(p) + MonthlyEntry(p);
    var last := if p.blockedCountries == Set(None) then [] else BlockedEntry(p);
    ApplyNumbers(e, p);
    ApplyAllAppend(e, nums, last);
    ApplyEntries(ApplyAll(e, nums), p);
  }

  /** Without deleting the null entry, a PATCH sending a null list would null the stored list; with it, the list stays. */
  lemma NullListDeletionMatters(e: UserRuleConfig, p: ConfigUpdate)
    requires p.blockedCountries == Set(None)
    ensures ApplyAll(e, Dump(p)).blockedCountries == None
    ensures ApplyAll(e, Changes(p)).blockedCountries == e.blockedCountries
  {
    var nums := AmountEntry(p) + PerHourEntry(p) + MonthlyEntry(p);
    ApplyAllAppend(e, nums, BlockedEntry(p));
    ApplyEntries(ApplyAll(e, nums), p);
    ChangesPatch(e, p);
  }

  /** A PATCH that sends nothing changes nothing. */
  lemma EmptyPatchKeepsRow(e: UserRuleConfig)
    ensures PatchRecord(e, NoChanges) == e
    ensures Changes(NoChanges) == []
  {
  }

  /** Sending the same PATCH twice leaves the same row as sending it once. */
  lemma PatchIdempotent(e: UserRuleConfig, p: ConfigUpdate)
    ensures PatchRecord(PatchRecord(e, p), p) == PatchRecord(e, p)
  {
  }

  /** A null number clears that limit; a null list keeps the stored list; an omitted field keeps its value. */
  lemma PatchNulls(e: UserRuleConfig, p: ConfigUpdate)
    ensures p.maxTransactionAmount == Set(None) ==> PatchRecord(e, p).maxTransactionAmount == None
    ensures p.maxTransactionsPerHour == Set(None) ==> PatchRecord(e, p).maxTransactionsPerHour == None
    ensures p.monthlySpendingLimit == Set(None) ==> PatchRecord(e, p).monthlySpendingLimit == None
    ensures p.blockedCountries.Set? && p.blockedCountries.to.None? ==> PatchRecord(e, p).blockedCountries == e.blockedCountries
    ensures p.maxTransactionAmount.Unset? ==> PatchRecord(e, p).maxTransactionAmount == e.maxTransactionAmount
    ensures p.maxTransactionsPerHour.Unset? ==> PatchRecord(e, p).maxTransactionsPerHour == e.maxTransactionsPerHour
    ensures p.monthlySpendingLimit.Unset? ==> PatchRecord(e, p).monthlySpendingLimit == e.monthlySpendingLimit
    ensures p.blockedCountries.Unset? ==> PatchRecord(e, p).blockedCountries == e.blockedCountries
  {
  }

  /** A PATCH sending every field of a POST body stores what the POST stores, unless the list is null:
      then POST empties the list and PATCH keeps the stored one. */
  lemma FullPatchVersusPost(e: UserRuleConfig, p: ConfigCreate)
    ensures p.blockedCountries.Some? ==> PatchRecord(e, AllSet(p)) == FromCreate(p)
    ensures p.blockedCountries.None? ==>
      && PatchRecord(e, AllSet(p)).blockedCountries == e.blockedCountries
      && FromCreate(p).blockedCountries == Some([])
  {
  }

  /** Without a stored row, PATCH and POST with the same fields insert the same row. */
  lemma CreatePathsAgree(p: ConfigCreate)
    ensures FromUpdate(AllSet(p)) == FromCreate(p)
  {
  }

  /** After POST, the rule engine sees exactly the posted limits, with a null list read as no blocked countries. */
  lemma PostedRulesReachEngine(configs: map<int, UserRuleConfig>, userId: int, p: ConfigCreate)
    ensures Rules.GetUserRules(configs[userId := FromCreate(p)], userId)
         == Rules.UserRulesView(p.maxTransactionAmount, p.maxTransactionsPerHour, p.monthlySpendingLimit,
                                p.blockedCountries.GetOr([]))
  {
  }

  /** Every row belongs to a known user and is as the routes write it. */
  predicate TableInvariant(users: set<int>, configs: map<int, UserRuleConfig>) {
    && configs.Keys <= users
    && forall u :: u in configs ==> ValidRow(configs[u])
  }

  /** Storing a row as the routes write it, for a known user, keeps the table invariant. */
  lemma StoreKeepsInvariant(users: set<int>, configs: map<int, UserRuleConfig>, userId: int, row: UserRuleConfig)
    requires TableInvariant(users, configs) && userId in users && ValidRow(row)
    ensures TableInvariant(users, configs[userId := row])
  {
  }

  /** The rows of the `user_rule_configs` table, one per user at most, for a fixed set of users. */
  class UserRuleConfigTable {
    const users: set<int>
    var configs: map<int, UserRuleConfig>

    ghost predicate Valid()
      reads this
    {
      TableInvariant(users, configs)
    }

    constructor (users: set<int>)
      ensures this.users == users && configs == map[]
      ensures Valid()
    {
      this.users := users;
      configs := map[];
    }

    /** GET: not-found for an unknown user, otherwise the user's row, or null when there is none. */
    method GetUserRules(userId: int) returns (r: Result<Option<UserRuleConfig>, RouteError>)
      ensures r.Failure? <==> userId !in users
      ensures r.Failure? ==> r.error == UserNotFound
      ensures r.Success? ==> (r.value.Some? <==> userId in configs)
      ensures r.Success? && r.value.Some? ==> r.value.value == configs[userId]
    {
      if userId !in users {
        return Failure(UserNotFound);
      }
      if userId in configs {
        r := Success(Some(configs[userId]));
      } else {
        r := Success(None);
      }
    }

    /** POST: replaces the user's row, or inserts one, with the body's fields. */
    method CreateOrUpdateUserRules(userId: int, payload: ConfigCreate) returns (r: Result<UserRuleConfig, RouteError>)
      requires Valid()
      modifies this
      ensures Valid()
      ensures !ValidCreate(payload) ==> r == Failure(Unprocessable) && configs == old(configs)
      ensures ValidCreate(payload) && userId !in users ==> r == Failure(UserNotFound) && configs == old(configs)
      ensures ValidCreate(payload) && userId in users ==>
        && r == Success(FromCreate(payload))
        && configs == old(configs)[userId := FromCreate(payload)]
    {
      if !ValidCreate(payload) {
        return Failure(Unprocessable);
      }
      if userId !in users {
        return Failure(UserNotFound);
      }
      var row: UserRuleConfig;
      if userId in configs {
        var existing := configs[userId];
        row := existing.(maxTransactionAmount := payload.maxTransactionAmount,
                         maxTransactionsPerHour := payload.maxTransactionsPerHour,
                         monthlySpendingLimit := payload.monthlySpendingLimit,
                         blockedCountries := Some(payload.blockedCountries.GetOr([])));
      } else {
        row := UserRuleConfig(payload.maxTransactionAmount, payload.maxTransactionsPerHour,
                              payload.monthlySpendingLimit, Some(payload.blockedCountries.GetOr([])));
      }
      assert row == FromCreate(payload);
      StoreKeepsInvariant(users, configs, userId, row);
      configs := configs[userId := row];
      r := Success(row);
    }

    /** PATCH: inserts a row from the sent fields when the user has none, otherwise performs one
        assignment per sent field, skipping a null list. */
    method UpdateUserRules(userId: int, payload: ConfigUpdate) returns (r: Result<UserRuleConfig, RouteError>)
      requires Valid()
      modifies this
      ensures Valid()
      ensures !ValidUpdate(payload) ==> r == Failure(Unprocessable) && configs == old(configs)
      ensures ValidUpdate(payload) && userId !in users ==> r == Failure(UserNotFound) && configs == old(configs)
      ensures ValidUpdate(payload) && userId in users && userId !in old(configs) ==>
        && r == Success(FromUpdate(payload))
        && configs == old(configs)[userId := FromUpdate(payload)]
      ensures ValidUpdate(payload) && userId in users && userId in old(configs) ==>
        && r == Success(PatchRecord(old(configs)[userId], payload))
        && configs == old(configs)[userId := PatchRecord(old(configs)[userId], payload)]
    {
      if !ValidUpdate(payload) {
        return Failure(Unprocessable);
      }
      if userId !in users {
        return Failure(UserNotFound);
      }
      if userId !in configs {
        var config := UserRuleConfig(Given(payload.maxTransactionAmount), Given(payload.maxTransactionsPerHour),
                                     Given(payload.monthlySpendingLimit),
                                     if Given(payload.blockedCountries).Some? then Given(payload.blockedCountries) else Some([]));
        assert config == FromUpdate(payload);
        StoreKeepsInvariant(users, configs, userId, config);
        configs := configs[userId := config];
        return Success(config);
      }
      var existing := configs[userId];
      var data := Dump(payload);
      DumpWithoutNullList(payload);
      // The list is the last field declared, so a sent null list is the dump's last entry.
      if payload.blockedCountries == Set(None) {
        data := data[..|data| - 1];
      }
      var row := existing;
      for i := 0 to |data|
        invariant row == ApplyAll(existing, data[..i])
      {
        row := ApplyAssignment(row, data[i]);
        assert data[..i + 1][..i] == data[..i] && data[..i + 1][i] == data[i];
      }
      assert data[..|data|] == data;
      ChangesPatch(existing, payload);
      assert row == PatchRecord(existing, payload);
      StoreKeepsInvariant(users, configs, userId, row);
      configs := configs[userId := row];
      r := Success(row);
    }
  }
}
