/**
 * The signed-in user's statistics endpoint `/api/stats`: the daily
 * `usage_stats` rows of one of the user's own keys for the last `days` days,
 * with their totals.
 */
module StatsRoute {
  import opened Wrappers
  import opened Text
  import opened ApiKeys

  const UnauthorizedMessage := "Unauthorized"
  const KeyIdRequiredMessage := "API key ID is required"
  const AccessDeniedMessage := "API key not found or access denied"
  const DefaultDays := "30"

  /**
   * The signed-in user (`None` when there is none or the lookup failed), the
   * `api_key_id` query parameter (`None` when absent or empty) and the raw
   * `days` query parameter.
   */
  datatype StatsRequest = StatsRequest(user: Option<UserId>, apiKeyId: Option<Id>, days: Option<string>)

  /** Today's day number and the store's answers to the two selects. */
  datatype StatsEnv = StatsEnv(today: int, keysSelect: StoreReply, statsSelect: StoreReply)

  datatype Totals = Totals(totalSms: int, totalSuccess: int, totalFailed: int)

  datatype StatsReply =
    | StatsError(httpStatus: int, error: string)
    | StatsOk(stats: seq<UsageStatRow>, totals: Totals, period: string)

  // ---------------------------------------------------------------------------
  // Totals

  const Zero := Totals(0, 0, 0)

  function Add(a: Totals, b: Totals): Totals
  {
    Totals(a.totalSms + b.totalSms, a.totalSuccess + b.totalSuccess, a.totalFailed + b.totalFailed)
  }

  function RowTotals(row: UsageStatRow): Totals
  {
    Totals(row.smsCount, row.successCount, row.failedCount)
  }

  /** The three column sums of `rows`. */
  function TotalsOf(rows: seq<UsageStatRow>): Totals
  {
    if rows == [] then Zero else Add(RowTotals(rows[0]), TotalsOf(rows[1..]))
  }

  /** `rows.reduce(...)` from the accumulator `acc`, one row at a time from the left. */
  function Reduce(acc: Totals, rows: seq<UsageStatRow>): Totals
    decreases |rows|
  {
    if rows == [] then acc else Reduce(Add(acc, RowTotals(rows[0])), rows[1..])
  }

  /** The reduction adds the column sums to its starting accumulator. */
  lemma {:induction false} ReduceAddsTotals(acc: Totals, rows: seq<UsageStatRow>)
    ensures Reduce(acc, rows) == Add(acc, TotalsOf(rows))
    decreases |rows|
  {
    if rows != [] {
      ReduceAddsTotals(Add(acc, RowTotals(rows[0])), rows[1..]);
    }
  }

  /** Reducing from zero gives the column sums. */
  lemma ReduceFromZero(rows: seq<UsageStatRow>)
    ensures Reduce(Zero, rows) == TotalsOf(rows)
  {
    ReduceAddsTotals(Zero, rows);
  }

  /** Column sums split over a concatenation. */
  lemma {:induction false} TotalsConcat(a: seq<UsageStatRow>, b: seq<UsageStatRow>)
    ensures TotalsOf(a + b) == Add(TotalsOf(a), TotalsOf(b))
  {
    if a == [] {
      assert a + b == b;
    } else {
      assert (a + b)[1..] == a[1..] + b;
      TotalsConcat(a[1..], b);
    }
  }

  /** Taking one row out of the middle takes its counts out of the sums. */
  lemma TotalsWithout(b: seq<UsageStatRow>, i: nat)
    requires i < |b|
    ensures TotalsOf(b) == Add(RowTotals(b[i]), TotalsOf(b[..i] + b[i + 1..]))
  {
    var front, back := b[..i], b[i + 1..];
    var rest := [b[i]] + back;
    assert b == front + rest;
    TotalsConcat(front, rest);
    assert rest[1..] == back;
    assert TotalsOf(rest) == Add(RowTotals(b[i]), TotalsOf(back));
    TotalsConcat(front, back);
  }

  /** Column sums do not depend on the order of the rows. */
  lemma {:induction false} TotalsOfPermutation(a: seq<UsageStatRow>, b: seq<UsageStatRow>)
    requires multiset(a) == multiset(b)
    ensures TotalsOf(a) == TotalsOf(b)
    decreases |a|
  {
    if a == [] {
      assert |b| == |multiset(b)| == 0;
    } else {
      assert a[0] in multiset(b);
      var i :| 0 <= i < |b| && b[i] == a[0];
      var rest := b[..i] + b[i + 1..];
      assert b == b[..i] + [b[i]] + b[i + 1..];
      assert a == [a[0]] + a[1..];
      assert multiset(rest) == multiset(b) - multiset{b[i]};
      assert multiset(a[1..]) == multiset(a) - multiset{a[0]};
      TotalsOfPermutation(a[1..], rest);
      TotalsWithout(b, i);
    }
  }

  /**
   * The date ordering of `getUsageStats` leaves the sums of the selected rows
   * as they are: the totals the handler reports are the column sums of exactly
   * this key's rows from the start date on, and zero when the start date lies
   * outside the range of a `Date`.
   */
  lemma UsageStatsTotals(stats: seq<UsageStatRow>, id: Id, days: Option<int>, today: int, select: StoreReply)
    requires days.Some? && select.Ok?
    ensures TotalsOf(GetUsageStats(stats, id, days, today, select)) ==
      if InDateRange(today - days.value) then TotalsOf(StatsSince(stats, id, today - days.value)) else Zero
  {
    if InDateRange(today - days.value) {
      TotalsOfPermutation(GetUsageStats(stats, id, days, today, select), StatsSince(stats, id, today - days.value));
    }
  }

  // ---------------------------------------------------------------------------
  // The handler

  /** The key with this id is one of the user's keys. */
  predicate Owns(keys: seq<ApiKeyRow>, userId: UserId, id: Id)
  {
    exists i :: 0 <= i < |keys| && keys[i].id == id && keys[i].userId == userId
  }

  /** `userKeys.some(key => key.id === id)` on the user's key list. */
  predicate Listed(userKeys: seq<ApiKeyRow>, id: Id)
  {
    exists i :: 0 <= i < |userKeys| && userKeys[i].id == id
  }

  /** The key list of a user names a key id exactly when the key is theirs, unless the select fails. */
  lemma ListedIffOwned(keys: seq<ApiKeyRow>, userId: UserId, select: StoreReply, id: Id)
    ensures Listed(GetUserApiKeys(keys, userId, select), id) ==> Owns(keys, userId, id)
    ensures select.Ok? ==> (Listed(GetUserApiKeys(keys, userId, select), id) <==> Owns(keys, userId, id))
  {
    var userKeys := GetUserApiKeys(keys, userId, select);
    if Listed(userKeys, id) {
      var i :| 0 <= i < |userKeys| && userKeys[i].id == id;
      assert userKeys[i] in keys;
    }
    if select.Ok? && Owns(keys, userId, id) {
      var i :| 0 <= i < |keys| && keys[i].id == id && keys[i].userId == userId;
      assert keys[i] in RowsOf(keys, userId);
      assert keys[i] in multiset(userKeys);
      var j :| 0 <= j < |userKeys| && userKeys[j] == keys[i];
      assert userKeys[j].id == id;
    }
  }

  /** `parseInt(days || "30")`. */
  function ParseDays(days: Option<string>): Option<int>
  {
    ParseInt(OrElse(days, Some(DefaultDays)).value)
  }

  /** `${days} days`, where a `NaN` count prints as `NaN`. */
  function Period(days: Option<int>): string
  {
    match days
    case None => "NaN days"
    case Some(d) => IntToDecimal(d) + " days"
  }

  /** GET `/api/stats` against the `api_keys` table `keys` and the `usage_stats` table `stats`. */
  function Stats(keys: seq<ApiKeyRow>, stats: seq<UsageStatRow>, req: StatsRequest, env: StatsEnv): (r: StatsReply)
    ensures req.user.None? ==> r == StatsError(401, UnauthorizedMessage)
    ensures req.user.Some? && req.apiKeyId.None? ==> r == StatsError(400, KeyIdRequiredMessage)
    ensures r.StatsOk? ==> req.user.Some? && req.apiKeyId.Some? && Owns(keys, req.user.value, req.apiKeyId.value)
    ensures r.StatsOk? ==> r.totals == TotalsOf(r.stats) && r.period == Period(ParseDays(req.days))
    ensures r.StatsOk? ==> forall i :: 0 <= i < |r.stats| ==> r.stats[i].apiKeyId == req.apiKeyId.value
    ensures r.StatsOk? ==> r.stats == GetUsageStats(stats, req.apiKeyId.value, ParseDays(req.days), env.today, env.statsSelect)
    ensures req.user.Some? && req.apiKeyId.Some? && env.keysSelect.Ok? && Owns(keys, req.user.value, req.apiKeyId.value) ==>
      r.StatsOk?
    ensures req.user.Some? && req.apiKeyId.Some? && env.keysSelect.Err? ==> r == StatsError(403, AccessDeniedMessage)
  {
    if req.user.None? then StatsError(401, UnauthorizedMessage)
    else
      var days := ParseDays(req.days);
      if req.apiKeyId.None? then StatsError(400, KeyIdRequiredMessage)
      else
        var id := req.apiKeyId.value;
        var userKeys := GetUserApiKeys(keys, req.user.value, env.keysSelect);
        ListedIffOwned(keys, req.user.value, env.keysSelect, id);
        if !Listed(userKeys, id) then StatsError(403, AccessDeniedMessage)
        else KeyStats(stats, id, days, env)
  }

  /** The successful answer for the key `id`: its rows of the window, their sums and the period. */
  function KeyStats(stats: seq<UsageStatRow>, id: Id, days: Option<int>, env: StatsEnv): (r: StatsReply)
    ensures r.StatsOk? && r.totals == TotalsOf(r.stats) && r.period == Period(days)
    ensures r.stats == GetUsageStats(stats, id, days, env.today, env.statsSelect)
  {
    var rows := GetUsageStats(stats, id, days, env.today, env.statsSelect);
    ReduceFromZero(rows);
    StatsOk(rows, Reduce(Zero, rows), Period(days))
  }

  /**
   * With the key list read successfully, a signed-in user naming a key id is
   * refused with 403 exactly when the key is not one of theirs.
   */
  lemma ForbiddenIffNotOwner(keys: seq<ApiKeyRow>, stats: seq<UsageStatRow>, req: StatsRequest, env: StatsEnv)
    requires req.user.Some? && req.apiKeyId.Some? && env.keysSelect.Ok?
    ensures Stats(keys, stats, req, env) == StatsError(403, AccessDeniedMessage) <==> !Owns(keys, req.user.value, req.apiKeyId.value)
  {
    ListedIffOwned(keys, req.user.value, env.keysSelect, req.apiKeyId.value);
  }

  /** Without a `days` parameter the window is thirty days. */
  lemma DaysDefaultToThirty(days: Option<string>)
    requires !Truthy(days)
    ensures ParseDays(days) == Some(30)
    ensures Period(ParseDays(days)) == "30 days"
  {
    assert NatToDecimal(3) == "3";
    assert NatToDecimal(30) == "30";
    assert OrElse(days, Some(DefaultDays)) == Some(IntToDecimal(30));
    ParseIntRoundTrip(30);
  }

  /**
   * A `days` value that is not a number still gets a successful answer, with
   * no rows, zero totals and the period "NaN days".
   */
  lemma NonNumericDaysGivesEmptyStats(keys: seq<ApiKeyRow>, stats: seq<UsageStatRow>, req: StatsRequest, env: StatsEnv)
    requires req.user.Some? && req.apiKeyId.Some? && Owns(keys, req.user.value, req.apiKeyId.value) && env.keysSelect.Ok?
    requires ParseDays(req.days).None?
    ensures Stats(keys, stats, req, env) == StatsOk([], Zero, "NaN days")
  {
    ForbiddenIffNotOwner(keys, stats, req, env);
  }

  /**
   * A day count that puts the start date outside the range of a `Date`
   * (such as `days=200000000`) also gets a successful answer with no rows
   * and zero totals; the period still names the count.
   */
  lemma FarStartDateGivesEmptyStats(keys: seq<ApiKeyRow>, stats: seq<UsageStatRow>, req: StatsRequest, env: StatsEnv)
    requires req.user.Some? && req.apiKeyId.Some? && Owns(keys, req.user.value, req.apiKeyId.value) && env.keysSelect.Ok?
    requires ParseDays(req.days).Some? && !InDateRange(env.today - ParseDays(req.days).value)
    ensures Stats(keys, stats, req, env) == StatsOk([], Zero, IntToDecimal(ParseDays(req.days).value) + " days")
  {
  }

  /** "abc" is such a value: `parseInt("abc")` is `NaN`. */
  lemma NonNumericExample()
    ensures ParseDays(Some("abc")).None?
  {
    assert DigitPrefixLength("abc") == 0;
  }
}
