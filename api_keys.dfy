/**
 * The API-key manager: key generation, the `api_keys` and `sms_logs`
 * tables, exact-match key validation, the sliding one-hour rate limit,
 * usage logging, owner-scoped deactivation and deletion, usage statistics,
 * and the admission chain run before every send.
 *
 * The hosted database is the class `ApiKeyStore`; each call to it takes the
 * store's answer (`StoreReply`) as a parameter, and the clock reading `now`
 * (milliseconds) is a parameter too.
 */
module ApiKeys {
  import opened Wrappers
  import opened Tables
  import opened Text

  const KeyPrefix := "sms_"
  const KeyHexLength := 48
  const DefaultRateLimit := 100
  const OneHourMs := 60 * 60 * 1000

  const CreateFailedMessage := "Failed to create API key"
  const ApiKeyRequiredMessage := "API key is required"
  const InvalidApiKeyMessage := "Invalid API key"
  const InactiveApiKeyMessage := "API key is inactive"
  const RateLimitExceededMessage := "Rate limit exceeded"

  /** Row identifiers; the database hands out a fresh one per insert. */
  type Id = nat
  /** The owner identity issued by the external auth provider. */
  type UserId = string

  /** A SHA-256 digest: 32 bytes. */
  type Sha256Digest = d: seq<byte> | |d| == 32 witness seq(32, _ => 0)

  /** A row of `api_keys` (the columns the core reads or writes). */
  datatype ApiKeyRow = ApiKeyRow(
    id: Id, userId: UserId, keyName: string, apiKey: string,
    isActive: bool, rateLimit: int, createdAt: int)

  /** What `validateApiKey` hands back for a key it accepts. */
  datatype ApiKeyData = ApiKeyData(id: Id, userId: UserId, keyName: string, rateLimit: int, isActive: bool)

  datatype Status = Pending | Sent | Failed

  /** The carrier outcome a terminal log row carries in `response_data`. */
  datatype ResponseData = ResponseData(success: bool, message: string)

  /** A row of `sms_logs`. */
  datatype SmsLogRow = SmsLogRow(
    apiKeyId: Id, phoneNumber: string, message: string, status: Status,
    responseData: Option<ResponseData>, createdAt: int, sentAt: Option<int>)

  /** A row of `usage_stats`: one key's counters for one day (`date` is a day number). */
  datatype UsageStatRow = UsageStatRow(apiKeyId: Id, date: int, smsCount: int, successCount: int, failedCount: int)

  /** The arguments of one call to the `update_usage_stats` procedure. */
  datatype StatsUpdate = StatsUpdate(apiKeyId: Id, success: bool)

  datatype CreateKeyResult = KeyCreated(apiKey: string) | KeyNotCreated(error: string)

  /** The outcome of `validateApiKeyMiddleware`. */
  datatype Admission = Admitted(data: ApiKeyData) | Denied(error: string)

  // ---------------------------------------------------------------------------
  // Key format

  /**
   * `generateApiKey`: the prefix, then the first 48 characters of the
   * hexadecimal SHA-256 digest of 32 random bytes and the clock; the digest
   * is the parameter.
   */
  function GenerateApiKey(digest: Sha256Digest): (key: string)
    ensures |key| == |KeyPrefix| + KeyHexLength
    ensures StartsWith(key, KeyPrefix)
    ensures forall i :: |KeyPrefix| <= i < |key| ==> IsLowerHex(key[i])
    ensures key[|KeyPrefix|..] == HexOfBytes(digest)[..KeyHexLength]
  {
    KeyPrefix + HexOfBytes(digest)[..KeyHexLength]
  }

  // ---------------------------------------------------------------------------
  // Validation

  /** The rows `.eq("api_key", apiKey).eq("is_active", true)` selects. */
  function ActiveRowsWithKey(keys: seq<ApiKeyRow>, apiKey: string): seq<ApiKeyRow>
  {
    Filter(keys, (row: ApiKeyRow) => row.apiKey == apiKey && row.isActive)
  }

  function ToData(row: ApiKeyRow): ApiKeyData
  {
    ApiKeyData(row.id, row.userId, row.keyName, row.rateLimit, row.isActive)
  }

  /**
   * `validateApiKey`: keys without the prefix are refused before the table
   * is read; otherwise `.single()` must find exactly one active row with that
   * exact key. A store error refuses too.
   */
  function ValidateApiKey(keys: seq<ApiKeyRow>, apiKey: string, lookup: StoreReply): (r: Option<ApiKeyData>)
    ensures !StartsWith(apiKey, KeyPrefix) ==> r.None?
    ensures lookup.Err? ==> r.None?
    ensures r.Some? ==> r.value.isActive
    ensures r.Some? ==> exists i :: 0 <= i < |keys| && keys[i].apiKey == apiKey && keys[i].isActive && ToData(keys[i]) == r.value
    ensures r.Some? <==> StartsWith(apiKey, KeyPrefix) && lookup.Ok? && |ActiveRowsWithKey(keys, apiKey)| == 1
  {
    if apiKey == "" || !StartsWith(apiKey, KeyPrefix) then None
    else if lookup.Err? then None
    else
      var rows := ActiveRowsWithKey(keys, apiKey);
      if |rows| != 1 then None
      else
        assert rows[0] in keys;
        Some(ToData(rows[0]))
  }

  /** Every key `GenerateApiKey` produces passes the prefix check. */
  lemma GeneratedKeyHasPrefix(digest: Sha256Digest)
    ensures GenerateApiKey(digest) != "" && StartsWith(GenerateApiKey(digest), KeyPrefix)
  {
  }

  // ---------------------------------------------------------------------------
  // Sliding-window rate limit

  /** The rows `.eq("api_key_id", apiKeyId).gte("created_at", since)` selects. */
  function RecentLogs(logs: seq<SmsLogRow>, apiKeyId: Id, since: int): seq<SmsLogRow>
  {
    Filter(logs, (row: SmsLogRow) => row.apiKeyId == apiKeyId && row.createdAt >= since)
  }

  /** The positions in the log of this key's rows created at or after `since`. */
  ghost function WindowPositions(logs: seq<SmsLogRow>, apiKeyId: Id, since: int): set<int>
  {
    set i | 0 <= i < |logs| && logs[i].apiKeyId == apiKeyId && logs[i].createdAt >= since
  }

  /** The select of the window returns one row per position in the window. */
  lemma {:induction false} RecentLogsCount(logs: seq<SmsLogRow>, apiKeyId: Id, since: int)
    ensures |RecentLogs(logs, apiKeyId, since)| == |WindowPositions(logs, apiKeyId, since)|
    decreases |logs|
  {
    if logs != [] {
      var init := logs[..|logs| - 1];
      var last := logs[|logs| - 1];
      assert logs == init + [last];
      RecentLogsCount(init, apiKeyId, since);
      LoggedRowCounts(init, last, apiKeyId, since + OneHourMs);
      WindowPositionsSnoc(init, last, apiKeyId, since);
    }
  }

  /** Appending a row adds its position to the window exactly when it is this key's and inside it. */
  lemma WindowPositionsSnoc(init: seq<SmsLogRow>, last: SmsLogRow, apiKeyId: Id, since: int)
    ensures |WindowPositions(init + [last], apiKeyId, since)| ==
      |WindowPositions(init, apiKeyId, since)| + (if last.apiKeyId == apiKeyId && last.createdAt >= since then 1 else 0)
  {
    var logs := init + [last];
    var before := WindowPositions(init, apiKeyId, since);
    assert forall i :: 0 <= i < |init| ==> logs[i] == init[i];
    assert |init| !in before;
    if last.apiKeyId == apiKeyId && last.createdAt >= since {
      assert WindowPositions(logs, apiKeyId, since) == before + {|init|};
    } else {
      assert WindowPositions(logs, apiKeyId, since) == before;
    }
  }

  /**
   * `checkRateLimit`: fewer than `rateLimit` log rows of this key created in
   * the last hour. A store error counts as over the limit.
   */
  function CheckRateLimit(logs: seq<SmsLogRow>, apiKeyId: Id, rateLimit: int, now: int, count: StoreReply): (within: bool)
    ensures within <==> count.Ok? && |WindowPositions(logs, apiKeyId, now - OneHourMs)| < rateLimit
    ensures rateLimit <= 0 ==> !within
    ensures |RecentLogs(logs, apiKeyId, now - OneHourMs)| >= rateLimit ==> !within
  {
    RecentLogsCount(logs, apiKeyId, now - OneHourMs);
    count.Ok? && |RecentLogs(logs, apiKeyId, now - OneHourMs)| < rateLimit
  }

  /**
   * The window counts exactly the rows of this key created from one hour ago
   * on: appending `extra` rows of this key, all inside the window, stays
   * within a limit of `rateLimit` exactly while the rows already in the
   * window and the appended ones number fewer than `rateLimit`.
   */
  lemma {:induction false} RateLimitCountsWindowRows(base: seq<SmsLogRow>, extra: seq<SmsLogRow>, apiKeyId: Id, rateLimit: int, now: int)
    requires forall i :: 0 <= i < |extra| ==> extra[i].apiKeyId == apiKeyId && extra[i].createdAt >= now - OneHourMs
    ensures CheckRateLimit(base + extra, apiKeyId, rateLimit, now, Ok) <==>
      |WindowPositions(base, apiKeyId, now - OneHourMs)| + |extra| < rateLimit
  {
    var p := (row: SmsLogRow) => row.apiKeyId == apiKeyId && row.createdAt >= now - OneHourMs;
    FilterConcat(base, extra, p);
    FilterSame(base, p, (row: SmsLogRow) => row.apiKeyId == apiKeyId && row.createdAt >= now - OneHourMs);
    FilterAllOrNone(extra, p);
    FilterSame(base + extra, p, (row: SmsLogRow) => row.apiKeyId == apiKeyId && row.createdAt >= now - OneHourMs);
    RecentLogsCount(base, apiKeyId, now - OneHourMs);
    RecentLogsCount(base + extra, apiKeyId, now - OneHourMs);
  }

  /** One more row of this key inside the window uses up one unit of the limit; rows of other keys use none. */
  lemma LoggedRowCounts(logs: seq<SmsLogRow>, row: SmsLogRow, apiKeyId: Id, now: int)
    ensures |RecentLogs(logs + [row], apiKeyId, now - OneHourMs)| ==
      |RecentLogs(logs, apiKeyId, now - OneHourMs)| + (if row.apiKeyId == apiKeyId && row.createdAt >= now - OneHourMs then 1 else 0)
  {
    var p := (r: SmsLogRow) => r.apiKeyId == apiKeyId && r.createdAt >= now - OneHourMs;
    FilterConcat(logs, [row], p);
    FilterSame(logs, p, (r: SmsLogRow) => r.apiKeyId == apiKeyId && r.createdAt >= now - OneHourMs);
    FilterSame(logs + [row], p, (r: SmsLogRow) => r.apiKeyId == apiKeyId && r.createdAt >= now - OneHourMs);
  }

  /** The window slides: with the same log, a key within its limit stays within it later. */
  lemma WindowSlides(logs: seq<SmsLogRow>, apiKeyId: Id, rateLimit: int, now: int, later: int, count: StoreReply)
    requires now <= later
    ensures CheckRateLimit(logs, apiKeyId, rateLimit, now, count) ==> CheckRateLimit(logs, apiKeyId, rateLimit, later, count)
  {
    FilterMonotone(logs,
      (row: SmsLogRow) => row.apiKeyId == apiKeyId && row.createdAt >= later - OneHourMs,
      (row: SmsLogRow) => row.apiKeyId == apiKeyId && row.createdAt >= now - OneHourMs);
  }

  // ---------------------------------------------------------------------------
  // Admission

  /**
   * `validateApiKeyMiddleware`: missing key, then validation, then the
   * active flag, then the rate limit, each with its own denial message.
   * Validation only hands back active keys, so the third denial never occurs.
   */
  function ValidateApiKeyMiddleware(keys: seq<ApiKeyRow>, logs: seq<SmsLogRow>, apiKey: string, now: int,
                                    lookup: StoreReply, count: StoreReply): (a: Admission)
    ensures apiKey == "" ==> a == Denied(ApiKeyRequiredMessage)
    ensures a == Denied(InvalidApiKeyMessage) <==> apiKey != "" && ValidateApiKey(keys, apiKey, lookup).None?
    ensures a == Denied(RateLimitExceededMessage) <==>
      ValidateApiKey(keys, apiKey, lookup).Some? &&
      !CheckRateLimit(logs, ValidateApiKey(keys, apiKey, lookup).value.id, ValidateApiKey(keys, apiKey, lookup).value.rateLimit, now, count)
    ensures a.Admitted? <==>
      apiKey != "" && ValidateApiKey(keys, apiKey, lookup).Some? &&
      CheckRateLimit(logs, ValidateApiKey(keys, apiKey, lookup).value.id, ValidateApiKey(keys, apiKey, lookup).value.rateLimit, now, count)
    ensures a.Admitted? ==>
      ValidateApiKey(keys, apiKey, lookup) == Some(a.data) && a.data.isActive &&
      CheckRateLimit(logs, a.data.id, a.data.rateLimit, now, count)
    ensures a != Denied(InactiveApiKeyMessage)
  {
    if apiKey == "" then Denied(ApiKeyRequiredMessage)
    else match ValidateApiKey(keys, apiKey, lookup)
      case None => Denied(InvalidApiKeyMessage)
      case Some(data) =>
        if !data.isActive then Denied(InactiveApiKeyMessage)
        else if !CheckRateLimit(logs, data.id, data.rateLimit, now, count) then Denied(RateLimitExceededMessage)
        else Admitted(data)
  }

  /**
   * A key whose last hour already holds `rateLimit` log rows is refused with
   * the rate-limit message, however it validates.
   */
  lemma ExhaustedKeyIsDenied(keys: seq<ApiKeyRow>, logs: seq<SmsLogRow>, apiKey: string, now: int, lookup: StoreReply, data: ApiKeyData)
    requires ValidateApiKey(keys, apiKey, lookup) == Some(data)
    requires |RecentLogs(logs, data.id, now - OneHourMs)| >= data.rateLimit
    ensures ValidateApiKeyMiddleware(keys, logs, apiKey, now, lookup, Ok) == Denied(RateLimitExceededMessage)
  {
  }

  // ---------------------------------------------------------------------------
  // Row updates

  /** The table after `.update({ is_active: false }).eq("id", apiKeyId).eq("user_id", userId)`. */
  function Deactivated(keys: seq<ApiKeyRow>, apiKeyId: Id, userId: UserId): seq<ApiKeyRow>
  {
    seq(|keys|, i requires 0 <= i < |keys| =>
      if keys[i].id == apiKeyId && keys[i].userId == userId then keys[i].(isActive := false) else keys[i])
  }

  /** The table after `.delete().eq("id", apiKeyId).eq("user_id", userId)`. */
  function Deleted(keys: seq<ApiKeyRow>, apiKeyId: Id, userId: UserId): seq<ApiKeyRow>
  {
    Filter(keys, (row: ApiKeyRow) => !(row.id == apiKeyId && row.userId == userId))
  }

  /** The rows owned by `userId`, in table order. */
  function RowsOf(keys: seq<ApiKeyRow>, userId: UserId): seq<ApiKeyRow>
  {
    Filter(keys, (row: ApiKeyRow) => row.userId == userId)
  }

  /**
   * Deactivation touches only the caller's row with that id, and only its
   * active flag; another owner's rows stay as they were.
   */
  lemma DeactivateScopedToOwner(keys: seq<ApiKeyRow>, apiKeyId: Id, userId: UserId)
    ensures |Deactivated(keys, apiKeyId, userId)| == |keys|
    ensures forall i :: 0 <= i < |keys| && (keys[i].id != apiKeyId || keys[i].userId != userId) ==>
      Deactivated(keys, apiKeyId, userId)[i] == keys[i]
    ensures forall i :: 0 <= i < |keys| ==> Deactivated(keys, apiKeyId, userId)[i] == keys[i].(isActive := Deactivated(keys, apiKeyId, userId)[i].isActive)
    ensures forall i :: 0 <= i < |keys| && keys[i].id == apiKeyId && keys[i].userId == userId ==>
      !Deactivated(keys, apiKeyId, userId)[i].isActive
  {
  }

  /** A deactivated key no longer validates: validation never returns the deactivated row. */
  lemma DeactivatedKeyRejected(keys: seq<ApiKeyRow>, apiKeyId: Id, userId: UserId, apiKey: string, lookup: StoreReply)
    ensures var r := ValidateApiKey(Deactivated(keys, apiKeyId, userId), apiKey, lookup);
      r.Some? ==> !(r.value.id == apiKeyId && r.value.userId == userId)
  {
    var after := Deactivated(keys, apiKeyId, userId);
    var r := ValidateApiKey(after, apiKey, lookup);
    if r.Some? {
      var i :| 0 <= i < |after| && after[i].apiKey == apiKey && after[i].isActive && ToData(after[i]) == r.value;
      assert !(after[i].id == apiKeyId && after[i].userId == userId);
    }
  }

  /**
   * Deleting removes the caller's row with that id and nothing else: every
   * other row, the caller's other keys included, keeps its multiplicity, and
   * every other owner's rows stay as they were, in order.
   */
  lemma {:induction false} DeleteScopedToOwner(keys: seq<ApiKeyRow>, apiKeyId: Id, userId: UserId, other: UserId)
    requires other != userId
    ensures forall i :: 0 <= i < |keys| ==>
      multiset(Deleted(keys, apiKeyId, userId))[keys[i]] ==
      if keys[i].id == apiKeyId && keys[i].userId == userId then 0 else multiset(keys)[keys[i]]
    ensures forall row :: row !in keys ==> row !in Deleted(keys, apiKeyId, userId)
    ensures RowsOf(Deleted(keys, apiKeyId, userId), other) == RowsOf(keys, other)
    ensures forall i :: 0 <= i < |Deleted(keys, apiKeyId, userId)| ==>
      !(Deleted(keys, apiKeyId, userId)[i].id == apiKeyId && Deleted(keys, apiKeyId, userId)[i].userId == userId)
  {
    FilterCounts(keys, (row: ApiKeyRow) => !(row.id == apiKeyId && row.userId == userId));
    if keys != [] {
      DeleteScopedToOwner(keys[1..], apiKeyId, userId, other);
      if keys[0].id == apiKeyId && keys[0].userId == userId {
        assert Deleted(keys, apiKeyId, userId) == Deleted(keys[1..], apiKeyId, userId);
      } else {
        assert Deleted(keys, apiKeyId, userId) == [keys[0]] + Deleted(keys[1..], apiKeyId, userId);
        assert ([keys[0]] + Deleted(keys[1..], apiKeyId, userId))[1..] == Deleted(keys[1..], apiKeyId, userId);
      }
    }
  }

  /** The row `logSmsUsage` inserts: `sent_at` is stamped only for a sent message. */
  function LogRow(apiKeyId: Id, phoneNumber: string, message: string, status: Status,
                  responseData: Option<ResponseData>, now: int): (row: SmsLogRow)
    ensures row.sentAt.Some? <==> status == Sent
    ensures row.apiKeyId == apiKeyId && row.status == status && row.createdAt == now
  {
    SmsLogRow(apiKeyId, phoneNumber, message, status, responseData, now, if status == Sent then Some(now) else None)
  }

  // ---------------------------------------------------------------------------
  // Reads

  /** The creation time negated: ascending order on it is newest first. */
  function NewestFirst(row: ApiKeyRow): int
  {
    -row.createdAt
  }

  /**
   * `getUserApiKeys`: the caller's rows, newest first; a store error gives
   * an empty list.
   */
  function GetUserApiKeys(keys: seq<ApiKeyRow>, userId: UserId, select: StoreReply): (r: seq<ApiKeyRow>)
    ensures select.Err? ==> r == []
    ensures select.Ok? ==> multiset(r) == multiset(RowsOf(keys, userId))
    ensures forall i :: 0 <= i < |r| ==> r[i].userId == userId && r[i] in keys
    ensures forall i, j :: 0 <= i < j < |r| ==> r[i].createdAt >= r[j].createdAt
  {
    if select.Err? then []
    else
      var rows := SortBy(RowsOf(keys, userId), NewestFirst);
      assert forall i :: 0 <= i < |rows| ==> rows[i] in multiset(RowsOf(keys, userId));
      rows
  }

  function ByDate(row: UsageStatRow): int
  {
    row.date
  }

  /** The rows of `usage_stats` for one key dated on or after `startDate`. */
  function StatsSince(stats: seq<UsageStatRow>, apiKeyId: Id, startDate: int): seq<UsageStatRow>
  {
    Filter(stats, (row: UsageStatRow) => row.apiKeyId == apiKeyId && row.date >= startDate)
  }

  /**
   * A JavaScript `Date` holds at most 8.64e15 milliseconds either side of
   * the epoch, that is 100 000 000 days (section 21.4.1.22 of ECMA-262).
   * Day numbers count days from the epoch.
   */
  const MaxDayNumber := 100_000_000

  predicate InDateRange(day: int)
  {
    -MaxDayNumber <= day <= MaxDayNumber
  }

  /**
   * `getUsageStats`: this key's rows of the last `days` days (day numbers),
   * oldest first. `days = None` is `NaN`, and a start day outside the range
   * of a `Date` is an invalid date too: formatting it throws, and the
   * function answers an empty list, as it does on a store error.
   */
  function GetUsageStats(stats: seq<UsageStatRow>, apiKeyId: Id, days: Option<int>, today: int, select: StoreReply): (r: seq<UsageStatRow>)
    ensures select.Err? || days.None? ==> r == []
    ensures days.Some? && !InDateRange(today - days.value) ==> r == []
    ensures select.Ok? && days.Some? && InDateRange(today - days.value) ==>
      multiset(r) == multiset(StatsSince(stats, apiKeyId, today - days.value))
    ensures days.Some? ==> forall i :: 0 <= i < |r| ==> r[i].apiKeyId == apiKeyId && r[i].date >= today - days.value
    ensures forall i, j :: 0 <= i < j < |r| ==> r[i].date <= r[j].date
  {
    if select.Err? || days.None? || !InDateRange(today - days.value) then []
    else StatsByDate(stats, apiKeyId, today - days.value)
  }

  /** The rows of `StatsSince`, ordered by date, oldest first. */
  function StatsByDate(stats: seq<UsageStatRow>, apiKeyId: Id, startDate: int): (r: seq<UsageStatRow>)
    ensures multiset(r) == multiset(StatsSince(stats, apiKeyId, startDate))
    ensures forall i :: 0 <= i < |r| ==> r[i].apiKeyId == apiKeyId && r[i].date >= startDate
    ensures forall i, j :: 0 <= i < j < |r| ==> r[i].date <= r[j].date
  {
    var rows := SortBy(StatsSince(stats, apiKeyId, startDate), ByDate);
    SortedStatsRows(stats, apiKeyId, startDate, rows);
    rows
  }

  /** Sorting keeps the rows `StatsSince` selected, and orders them by date. */
  lemma SortedStatsRows(stats: seq<UsageStatRow>, apiKeyId: Id, startDate: int, rows: seq<UsageStatRow>)
    requires rows == SortBy(StatsSince(stats, apiKeyId, startDate), ByDate)
    ensures forall i :: 0 <= i < |rows| ==> rows[i].apiKeyId == apiKeyId && rows[i].date >= startDate
    ensures forall i, j :: 0 <= i < j < |rows| ==> rows[i].date <= rows[j].date
  {
    var since := StatsSince(stats, apiKeyId, startDate);
    forall i | 0 <= i < |rows|
      ensures rows[i].apiKeyId == apiKeyId && rows[i].date >= startDate
    {
      assert rows[i] in multiset(rows);
      assert rows[i] in multiset(since);
      var k :| 0 <= k < |since| && since[k] == rows[i];
    }
    forall i, j | 0 <= i < j < |rows|
      ensures rows[i].date <= rows[j].date
    {
      assert ByDate(rows[i]) <= ByDate(rows[j]);
    }
  }

  // ---------------------------------------------------------------------------
  // The tables

  /** The `api_keys` and `sms_logs` tables, and the calls made to `update_usage_stats`. */
  class ApiKeyStore {
    var keys: seq<ApiKeyRow>
    var logs: seq<SmsLogRow>
    var statsUpdates: seq<StatsUpdate>
    var nextId: Id

    /** Every row id was handed out before `nextId`, so `nextId` is fresh. */
    ghost predicate Valid()
      reads this
    {
      forall i :: 0 <= i < |keys| ==> keys[i].id < nextId
    }

    constructor ()
      ensures Valid()
      ensures keys == [] && logs == [] && statsUpdates == []
    {
      keys, logs, statsUpdates, nextId := [], [], [], 0;
    }

    /**
     * `createApiKey`: insert an active row holding a generated key and hand
     * that key back; when the insert fails nothing is added.
     */
    method CreateApiKey(userId: UserId, keyName: string, digest: Sha256Digest, now: int, insert: StoreReply,
                        rateLimit: int := DefaultRateLimit)
      returns (r: CreateKeyResult)
      requires Valid()
      modifies this`keys, this`nextId
      ensures Valid()
      ensures insert.Ok? ==>
        && r == KeyCreated(GenerateApiKey(digest))
        && keys == old(keys) + [ApiKeyRow(old(nextId), userId, keyName, GenerateApiKey(digest), true, rateLimit, now)]
        && forall i :: 0 <= i < |old(keys)| ==> old(keys)[i].id != old(nextId)
      ensures insert.Err? ==> r == KeyNotCreated(CreateFailedMessage) && keys == old(keys)
    {
      var apiKey := GenerateApiKey(digest);
      if insert.Err? {
        return KeyNotCreated(CreateFailedMessage);
      }
      keys := keys + [ApiKeyRow(nextId, userId, keyName, apiKey, true, rateLimit, now)];
      nextId := nextId + 1;
      r := KeyCreated(apiKey);
    }

    /**
     * `logSmsUsage`: insert one new row (never update one), then report the
     * outcome to `update_usage_stats`, which happens even when the insert
     * failed. The `api_keys` table is outside the frame.
     */
    method LogSmsUsage(apiKeyId: Id, phoneNumber: string, message: string, status: Status,
                       responseData: Option<ResponseData>, now: int, insert: StoreReply)
      modifies this`logs, this`statsUpdates
      ensures logs == old(logs) + (if insert.Ok? then [LogRow(apiKeyId, phoneNumber, message, status, responseData, now)] else [])
      ensures statsUpdates == old(statsUpdates) + [StatsUpdate(apiKeyId, status == Sent)]
    {
      if insert.Ok? {
        logs := logs + [LogRow(apiKeyId, phoneNumber, message, status, responseData, now)];
      }
      statsUpdates := statsUpdates + [StatsUpdate(apiKeyId, status == Sent)];
    }

    /**
     * `deactivateApiKey`: clears the active flag of the caller's row with that
     * id. It reports failure only on a store error: an id that matches nothing
     * still answers true.
     */
    method DeactivateApiKey(apiKeyId: Id, userId: UserId, update: StoreReply) returns (ok: bool)
      requires Valid()
      modifies this`keys
      ensures Valid()
      ensures ok == update.Ok?
      ensures keys == if ok then Deactivated(old(keys), apiKeyId, userId) else old(keys)
    {
      if update.Err? {
        return false;
      }
      keys := Deactivated(keys, apiKeyId, userId);
      ok := true;
    }

    /**
     * `deleteApiKey`: removes the caller's row with that id, answering true
     * unless the store fails, whether or not a row matched.
     */
    method DeleteApiKey(apiKeyId: Id, userId: UserId, delete: StoreReply) returns (ok: bool)
      requires Valid()
      modifies this`keys
      ensures Valid()
      ensures ok == delete.Ok?
      ensures keys == if ok then Deleted(old(keys), apiKeyId, userId) else old(keys)
    {
      if delete.Err? {
        return false;
      }
      keys := Deleted(keys, apiKeyId, userId);
      ok := true;
    }
  }

  /**
   * Right after a successful `createApiKey` the new key validates, as an
   * active record, provided no other active row holds the same key string.
   */
  lemma CreatedKeyValidates(keys: seq<ApiKeyRow>, id: Id, userId: UserId, keyName: string, digest: Sha256Digest, rateLimit: int, now: int)
    requires ActiveRowsWithKey(keys, GenerateApiKey(digest)) == []
    ensures ValidateApiKey(keys + [ApiKeyRow(id, userId, keyName, GenerateApiKey(digest), true, rateLimit, now)], GenerateApiKey(digest), Ok)
      == Some(ApiKeyData(id, userId, keyName, rateLimit, true))
  {
    var key := GenerateApiKey(digest);
    var row := ApiKeyRow(id, userId, keyName, key, true, rateLimit, now);
    var p := (r: ApiKeyRow) => r.apiKey == key && r.isActive;
    FilterConcat(keys, [row], p);
    FilterSame(keys, p, (r: ApiKeyRow) => r.apiKey == key && r.isActive);
    FilterSame(keys + [row], p, (r: ApiKeyRow) => r.apiKey == key && r.isActive);
    assert Filter([row], p) == [row];
  }
}
