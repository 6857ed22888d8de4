/**
 * The coupon manager: code generation, the `coupon_codes` table, and the
 * redemption state machine of `applyCoupon` (lookup of an active coupon,
 * expiry and usage-limit checks that deactivate the coupon, otherwise one
 * more use).
 *
 * The table lives in the class `CouponStore`; every database call takes the
 * store's answer as a `StoreReply` parameter and the clock reading `now` is
 * a parameter.
 */
module Coupons {
  import opened Wrappers
  import opened Tables
  import opened Text

  const DefaultCodeLength := 12
  /** The `usage_limit` that means "no limit". */
  const Unlimited := -1

  const InvalidCouponMessage := "Invalid or inactive coupon code"
  const ExpiredMessage := "Coupon code has expired"
  const LimitReachedMessage := "Coupon code has reached its usage limit"
  const ApplyFailedMessage := "Failed to apply coupon"

  /** Row identifiers; the database hands out a fresh one per insert. */
  type Id = nat

  /** A row of `coupon_codes`; `value` is an integer amount and times are clock readings. */
  datatype Coupon = Coupon(
    id: Id, code: string, value: int, usageLimit: int, currentUses: int,
    expiresAt: Option<int>, createdBy: Option<string>, createdAt: int, isActive: bool)

  datatype CreateCouponResult = CouponCreated(coupon: Coupon) | CouponNotCreated(error: string)

  datatype ApplyResult = Applied(value: int) | Rejected(error: string)

  /** The table after one `applyCoupon` call, and what the call answered. */
  datatype ApplyOutcome = ApplyOutcome(table: seq<Coupon>, result: ApplyResult)

  // ---------------------------------------------------------------------------
  // Code generation

  /**
   * `generateCouponCode(length)`: `random` is what `randomBytes(ceil(length / 2))`
   * returned; its hexadecimal form is cut to `length` characters and upper-cased.
   */
  function GenerateCouponCode(random: seq<byte>, length: nat): (code: string)
    requires |random| == (length + 1) / 2
    ensures |code| == length
    ensures forall i :: 0 <= i < |code| ==> IsUpperHex(code[i])
  {
    ToUpper(HexOfBytes(random)[..length])
  }

  // ---------------------------------------------------------------------------
  // Table operations

  /** No two rows share an id (the table's primary key). */
  ghost predicate UniqueIds(coupons: seq<Coupon>)
  {
    forall i, j :: 0 <= i < j < |coupons| ==> coupons[i].id != coupons[j].id
  }

  /** The rows `.eq("code", code).eq("is_active", true)` selects. */
  function ActiveWithCode(coupons: seq<Coupon>, code: string): seq<Coupon>
  {
    Filter(coupons, (c: Coupon) => c.code == code && c.isActive)
  }

  /** The table after `.update({ is_active: active }).eq("id", id)`. */
  function WithActive(coupons: seq<Coupon>, id: Id, active: bool): seq<Coupon>
  {
    seq(|coupons|, i requires 0 <= i < |coupons| =>
      if coupons[i].id == id then coupons[i].(isActive := active) else coupons[i])
  }

  /** The table after `.update({ current_uses: uses }).eq("id", id)`. */
  function WithUses(coupons: seq<Coupon>, id: Id, uses: int): seq<Coupon>
  {
    seq(|coupons|, i requires 0 <= i < |coupons| =>
      if coupons[i].id == id then coupons[i].(currentUses := uses) else coupons[i])
  }

  /** The table after `.delete().eq("id", id)`. */
  function Without(coupons: seq<Coupon>, id: Id): seq<Coupon>
  {
    Filter(coupons, (c: Coupon) => c.id != id)
  }

  /** `expires_at` is set and lies before `now`. */
  predicate IsExpired(c: Coupon, now: int)
  {
    c.expiresAt.Some? && c.expiresAt.value < now
  }

  /** The usage limit applies and has been reached. */
  predicate AtLimit(c: Coupon)
  {
    c.usageLimit != Unlimited && c.currentUses >= c.usageLimit
  }

  /** A coupon with a non-negative limit has not been used more often than it allows. */
  predicate WithinLimit(c: Coupon)
  {
    c.usageLimit >= 0 ==> c.currentUses <= c.usageLimit
  }

  /** `a` and `b` are the same coupon except perhaps for `is_active` and `current_uses`. */
  predicate SameCoupon(a: Coupon, b: Coupon)
  {
    a.(isActive := b.isActive, currentUses := b.currentUses) == b
  }

  // ---------------------------------------------------------------------------
  // Redemption

  /**
   * `applyCoupon` as a state transition. `fetch` answers the lookup (a
   * `.single()` that fails unless exactly one active row has the code) and
   * `write` the one update the call then makes. The deactivating update's
   * answer is not looked at: the call reports expiry or exhaustion either way.
   */
  function ApplyStep(coupons: seq<Coupon>, code: string, now: int, fetch: StoreReply, write: StoreReply): (o: ApplyOutcome)
    ensures |o.table| == |coupons|
    ensures forall i :: 0 <= i < |coupons| ==> SameCoupon(coupons[i], o.table[i])
    ensures o.result.Applied? ==>
      exists i :: 0 <= i < |coupons| && coupons[i].code == code && coupons[i].isActive && o.result.value == coupons[i].value
  {
    var found := ActiveWithCode(coupons, code);
    if fetch.Err? || |found| != 1 then ApplyOutcome(coupons, Rejected(InvalidCouponMessage))
    else
      var c := found[0];
      assert c in coupons;
      if IsExpired(c, now) then
        ApplyOutcome(if write.Ok? then WithActive(coupons, c.id, false) else coupons, Rejected(ExpiredMessage))
      else if AtLimit(c) then
        ApplyOutcome(if write.Ok? then WithActive(coupons, c.id, false) else coupons, Rejected(LimitReachedMessage))
      else if write.Err? then
        ApplyOutcome(coupons, Rejected(ApplyFailedMessage))
      else
        ApplyOutcome(WithUses(coupons, c.id, c.currentUses + 1), Applied(c.value))
  }

  /** Without exactly one active coupon of that code the call is refused and nothing changes. */
  lemma ApplyUnknownCode(coupons: seq<Coupon>, code: string, now: int, fetch: StoreReply, write: StoreReply)
    requires fetch.Err? || |ActiveWithCode(coupons, code)| != 1
    ensures ApplyStep(coupons, code, now, fetch, write) == ApplyOutcome(coupons, Rejected(InvalidCouponMessage))
  {
  }

  /**
   * An expired coupon is switched off with its use count untouched, and the
   * call says so; expiry is checked before the usage limit.
   */
  lemma ApplyExpired(coupons: seq<Coupon>, c: Coupon, now: int)
    requires ActiveWithCode(coupons, c.code) == [c]
    requires IsExpired(c, now)
    ensures var o := ApplyStep(coupons, c.code, now, Ok, Ok);
      && o.result == Rejected(ExpiredMessage)
      && forall i :: 0 <= i < |coupons| ==>
           o.table[i] == if coupons[i].id == c.id then coupons[i].(isActive := false) else coupons[i]
  {
  }

  /** A coupon at its limit is switched off without another use, and the call says so. */
  lemma ApplyAtLimit(coupons: seq<Coupon>, c: Coupon, now: int)
    requires ActiveWithCode(coupons, c.code) == [c]
    requires !IsExpired(c, now) && c.usageLimit != Unlimited && c.currentUses >= c.usageLimit
    ensures var o := ApplyStep(coupons, c.code, now, Ok, Ok);
      && o.result == Rejected(LimitReachedMessage)
      && forall i :: 0 <= i < |coupons| ==>
           o.table[i] == if coupons[i].id == c.id then coupons[i].(isActive := false) else coupons[i]
  {
  }

  /**
   * A redemption that passes both checks adds exactly one use to that coupon,
   * answers its value, and changes nothing else: not its active flag and no
   * other coupon.
   */
  lemma ApplySucceeds(coupons: seq<Coupon>, c: Coupon, now: int)
    requires UniqueIds(coupons)
    requires ActiveWithCode(coupons, c.code) == [c]
    requires !IsExpired(c, now) && !AtLimit(c)
    ensures var o := ApplyStep(coupons, c.code, now, Ok, Ok);
      && o.result == Applied(c.value)
      && forall i :: 0 <= i < |coupons| ==>
           o.table[i] == if coupons[i] == c then c.(currentUses := c.currentUses + 1) else coupons[i]
  {
    assert c in coupons;
    var k :| 0 <= k < |coupons| && coupons[k] == c;
    forall i | 0 <= i < |coupons| && coupons[i].id == c.id
      ensures coupons[i] == c
    {
      assert i == k;
    }
  }

  /** A coupon without a limit never takes the limit branch: while it is unexpired every redemption succeeds. */
  lemma UnlimitedCouponApplies(coupons: seq<Coupon>, c: Coupon, now: int)
    requires ActiveWithCode(coupons, c.code) == [c]
    requires c.usageLimit == Unlimited && !IsExpired(c, now)
    ensures ApplyStep(coupons, c.code, now, Ok, Ok).result == Applied(c.value)
  {
  }

  /**
   * A failed update leaves the table as it was. When the failed update is the
   * increment itself the call answers "Failed to apply coupon"; the failed
   * deactivations still report expiry or exhaustion.
   */
  lemma ApplyUpdateFails(coupons: seq<Coupon>, c: Coupon, now: int, error: string)
    requires ActiveWithCode(coupons, c.code) == [c]
    ensures var o := ApplyStep(coupons, c.code, now, Ok, Err(error));
      && o.table == coupons
      && (IsExpired(c, now) ==> o.result == Rejected(ExpiredMessage))
      && (!IsExpired(c, now) && AtLimit(c) ==> o.result == Rejected(LimitReachedMessage))
      && (!IsExpired(c, now) && !AtLimit(c) ==> o.result == Rejected(ApplyFailedMessage))
  {
  }

  /** One redemption keeps every coupon within its limit and keeps the ids unique. */
  lemma {:induction false} ApplyKeepsWithinLimit(coupons: seq<Coupon>, code: string, now: int, fetch: StoreReply, write: StoreReply)
    requires UniqueIds(coupons)
    requires forall i :: 0 <= i < |coupons| ==> WithinLimit(coupons[i])
    ensures var o := ApplyStep(coupons, code, now, fetch, write);
      UniqueIds(o.table) && forall i :: 0 <= i < |o.table| ==> WithinLimit(o.table[i])
  {
    var o := ApplyStep(coupons, code, now, fetch, write);
    var found := ActiveWithCode(coupons, code);
    if fetch.Ok? && |found| == 1 && !IsExpired(found[0], now) && !AtLimit(found[0]) && write.Ok? {
      var c := found[0];
      assert c in coupons;
      var k :| 0 <= k < |coupons| && coupons[k] == c;
      forall i | 0 <= i < |o.table|
        ensures WithinLimit(o.table[i])
      {
        if coupons[i].id == c.id {
          assert i == k;
        }
      }
    }
  }

  /** A call of `applyCoupon` in a sequence of calls. */
  datatype ApplyCall = ApplyCall(code: string, now: int, fetch: StoreReply, write: StoreReply)

  /** The table after a sequence of calls made one after the other, and their answers. */
  datatype ApplyRun = ApplyRun(table: seq<Coupon>, results: seq<ApplyResult>)

  function ApplyAll(coupons: seq<Coupon>, calls: seq<ApplyCall>): (run: ApplyRun)
    ensures |run.results| == |calls|
    decreases |calls|
  {
    if calls == [] then ApplyRun(coupons, [])
    else
      var step := ApplyStep(coupons, calls[0].code, calls[0].now, calls[0].fetch, calls[0].write);
      var rest := ApplyAll(step.table, calls[1..]);
      ApplyRun(rest.table, [step.result] + rest.results)
  }

  /**
   * However many redemptions run one after another, a coupon with a
   * non-negative limit that starts within it never ends up used more often
   * than the limit allows.
   */
  lemma {:induction false} UsesNeverExceedLimit(coupons: seq<Coupon>, calls: seq<ApplyCall>)
    requires UniqueIds(coupons)
    requires forall i :: 0 <= i < |coupons| ==> WithinLimit(coupons[i])
    ensures forall i :: 0 <= i < |ApplyAll(coupons, calls).table| ==> WithinLimit(ApplyAll(coupons, calls).table[i])
    decreases |calls|
  {
    if calls != [] {
      var step := ApplyStep(coupons, calls[0].code, calls[0].now, calls[0].fetch, calls[0].write);
      ApplyKeepsWithinLimit(coupons, calls[0].code, calls[0].now, calls[0].fetch, calls[0].write);
      UsesNeverExceedLimit(step.table, calls[1..]);
    }
  }

  /**
   * A fresh coupon with a limit of three: three redemptions succeed, the
   * fourth is refused for the limit, and afterwards the coupon is inactive
   * with exactly three uses.
   */
  lemma LimitOfThreeScenario(code: string, value: int, now: int)
    ensures var c := Coupon(0, code, value, 3, 0, None, None, now, true);
      var call := ApplyCall(code, now, Ok, Ok);
      var run := ApplyAll([c], [call, call, call, call]);
      && run.results == [Applied(value), Applied(value), Applied(value), Rejected(LimitReachedMessage)]
      && run.table == [c.(currentUses := 3, isActive := false)]
  {
    var c := Coupon(0, code, value, 3, 0, None, None, now, true);
    var call := ApplyCall(code, now, Ok, Ok);
    var t1 := [c.(currentUses := 1)];
    var t2 := [c.(currentUses := 2)];
    var t3 := [c.(currentUses := 3)];
    assert ActiveWithCode([c], code) == [c];
    assert ApplyStep([c], code, now, Ok, Ok) == ApplyOutcome(t1, Applied(value));
    assert ActiveWithCode(t1, code) == t1;
    assert ApplyStep(t1, code, now, Ok, Ok) == ApplyOutcome(t2, Applied(value));
    assert ActiveWithCode(t2, code) == t2;
    assert ApplyStep(t2, code, now, Ok, Ok) == ApplyOutcome(t3, Applied(value));
    assert ActiveWithCode(t3, code) == t3;
    assert ApplyStep(t3, code, now, Ok, Ok) == ApplyOutcome([c.(currentUses := 3, isActive := false)], Rejected(LimitReachedMessage));
    assert [call, call, call, call][1..] == [call, call, call];
    assert [call, call, call][1..] == [call, call];
    assert [call, call][1..] == [call];
    assert ApplyAll(t3, [call]) == ApplyRun([c.(currentUses := 3, isActive := false)], [Rejected(LimitReachedMessage)]);
    assert ApplyAll(t2, [call, call]) == ApplyRun([c.(currentUses := 3, isActive := false)], [Applied(value), Rejected(LimitReachedMessage)]);
    assert ApplyAll(t1, [call, call, call]) == ApplyRun([c.(currentUses := 3, isActive := false)],
      [Applied(value), Applied(value), Rejected(LimitReachedMessage)]);
  }

  /** Deleting rows keeps the ids unique and below any bound they were below. */
  lemma {:induction false} WithoutKeepsIds(coupons: seq<Coupon>, id: Id, bound: nat)
    requires UniqueIds(coupons)
    requires forall i :: 0 <= i < |coupons| ==> coupons[i].id < bound
    ensures UniqueIds(Without(coupons, id))
    ensures forall i :: 0 <= i < |Without(coupons, id)| ==> Without(coupons, id)[i].id < bound
  {
    if coupons != [] {
      var rest := coupons[1..];
      WithoutKeepsIds(rest, id, bound);
      var w := Without(rest, id);
      forall i | 0 <= i < |w|
        ensures w[i].id != coupons[0].id
      {
        assert w[i] in rest;
      }
    }
  }

  // ---------------------------------------------------------------------------
  // Listing

  function NewestFirst(c: Coupon): int
  {
    -c.createdAt
  }

  /** `getCoupons`: every coupon, newest first; a store error gives an empty list. */
  function GetCoupons(coupons: seq<Coupon>, select: StoreReply): (r: seq<Coupon>)
    ensures select.Err? ==> r == []
    ensures select.Ok? ==> multiset(r) == multiset(coupons)
    ensures forall i, j :: 0 <= i < j < |r| ==> r[i].createdAt >= r[j].createdAt
  {
    if select.Err? then [] else SortBy(coupons, NewestFirst)
  }

  /**
   * The flag flips change only the active flag of the coupon with that id;
   * deletion removes that coupon and keeps every other one.
   */
  lemma FlagFlipsAndDeleteTouchOnlyThatCoupon(coupons: seq<Coupon>, id: Id, active: bool)
    ensures |WithActive(coupons, id, active)| == |coupons|
    ensures forall i :: 0 <= i < |coupons| ==>
      WithActive(coupons, id, active)[i] == if coupons[i].id == id then coupons[i].(isActive := active) else coupons[i]
    ensures forall i :: 0 <= i < |Without(coupons, id)| ==> Without(coupons, id)[i].id != id
    ensures forall i :: 0 <= i < |coupons| && coupons[i].id != id ==> coupons[i] in Without(coupons, id)
  {
  }

  // ---------------------------------------------------------------------------
  // The table

  /** The `coupon_codes` table. */
  class CouponStore {
    var coupons: seq<Coupon>
    var nextId: Id

    /** Ids are unique and all below `nextId`, so `nextId` is fresh. */
    ghost predicate Valid()
      reads this
    {
      UniqueIds(coupons) && forall i :: 0 <= i < |coupons| ==> coupons[i].id < nextId
    }

    constructor ()
      ensures Valid() && coupons == []
    {
      coupons, nextId := [], 0;
    }

    /**
     * `createCoupon`: insert an active coupon with the given fields as they
     * are (no range checks on value or limit) and no uses yet; on a store
     * error hand back the store's message and add nothing.
     */
    method CreateCoupon(code: string, value: int, usageLimit: int, expiresAt: Option<int>, createdBy: string,
                        now: int, insert: StoreReply)
      returns (r: CreateCouponResult)
      requires Valid()
      modifies this
      ensures Valid()
      ensures insert.Ok? ==>
        && r == CouponCreated(Coupon(old(nextId), code, value, usageLimit, 0, expiresAt, Some(createdBy), now, true))
        && coupons == old(coupons) + [r.coupon]
      ensures insert.Err? ==> r == CouponNotCreated(insert.message) && coupons == old(coupons)
    {
      if insert.Err? {
        return CouponNotCreated(insert.message);
      }
      var c := Coupon(nextId, code, value, usageLimit, 0, expiresAt, Some(createdBy), now, true);
      coupons := coupons + [c];
      nextId := nextId + 1;
      r := CouponCreated(c);
    }

    /** `applyCoupon`: one redemption attempt, as `ApplyStep` describes it. */
    method ApplyCoupon(code: string, now: int, fetch: StoreReply, write: StoreReply) returns (r: ApplyResult)
      requires Valid()
      modifies this`coupons
      ensures Valid()
      ensures ApplyOutcome(coupons, r) == ApplyStep(old(coupons), code, now, fetch, write)
    {
      var found := ActiveWithCode(coupons, code);
      if fetch.Err? || |found| != 1 {
        return Rejected(InvalidCouponMessage);
      }
      var c := found[0];
      if IsExpired(c, now) {
        if write.Ok? {
          coupons := WithActive(coupons, c.id, false);
        }
        return Rejected(ExpiredMessage);
      }
      if AtLimit(c) {
        if write.Ok? {
          coupons := WithActive(coupons, c.id, false);
        }
        return Rejected(LimitReachedMessage);
      }
      if write.Err? {
        return Rejected(ApplyFailedMessage);
      }
      coupons := WithUses(coupons, c.id, c.currentUses + 1);
      r := Applied(c.value);
    }

    /** `deactivateCoupon`: false only on a store error. */
    method DeactivateCoupon(id: Id, update: StoreReply) returns (ok: bool)
      requires Valid()
      modifies this`coupons
      ensures Valid()
      ensures ok == update.Ok?
      ensures coupons == if ok then WithActive(old(coupons), id, false) else old(coupons)
    {
      ok := update.Ok?;
      if ok {
        coupons := WithActive(coupons, id, false);
      }
    }

    /** `activateCoupon`: false only on a store error. */
    method ActivateCoupon(id: Id, update: StoreReply) returns (ok: bool)
      requires Valid()
      modifies this`coupons
      ensures Valid()
      ensures ok == update.Ok?
      ensures coupons == if ok then WithActive(old(coupons), id, true) else old(coupons)
    {
      ok := update.Ok?;
      if ok {
        coupons := WithActive(coupons, id, true);
      }
    }

    /** `deleteCoupon`: false only on a store error. */
    method DeleteCoupon(id: Id, delete: StoreReply) returns (ok: bool)
      requires Valid()
      modifies this`coupons
      ensures Valid()
      ensures ok == delete.Ok?
      ensures coupons == if ok then Without(old(coupons), id) else old(coupons)
    {
      ok := delete.Ok?;
      if ok {
        WithoutKeepsIds(coupons, id, nextId);
        coupons := Without(coupons, id);
      }
    }
  }
}
