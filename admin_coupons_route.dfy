/**
 * The administrators' coupon endpoint `/api/admin/coupons`: GET lists, POST
 * creates, PATCH activates or deactivates, DELETE deletes. Every handler
 * first requires a signed-in user whose role is "owner" or "admin".
 *
 * Each handler is a function of the request and of what the coupon manager
 * answered; its outcome names the manager call it makes, if any, so that
 * "no call" states that the coupons are not touched.
 */
module AdminCouponsRoute {
  import opened Wrappers
  import opened Text
  import opened Coupons

  const UnauthorizedMessage := "Unauthorized"
  const ForbiddenMessage := "Forbidden: Insufficient permissions"
  const InternalErrorMessage := "Internal server error"
  const CreateFieldsRequiredMessage := "Code, value, and usageLimit are required"
  const CouponCreatedMessage := "Coupon created successfully"
  const CreateFailedMessage := "Failed to create coupon"
  const PatchFieldsRequiredMessage := "Coupon ID and action are required"
  const InvalidActionMessage := "Invalid action"
  const CouponIdRequiredMessage := "Coupon ID is required"
  const CouponDeletedMessage := "Coupon deleted successfully"
  const DeleteFailedMessage := "Failed to delete coupon"

  type UserId = string

  /** The manager call a handler makes. */
  datatype CouponCall =
    | ListCoupons
    | CreateCoupon(code: string, value: int, usageLimit: int, expiresAt: Option<int>, createdBy: UserId)
    | DeactivateCoupon(id: Id)
    | ActivateCoupon(id: Id)
    | DeleteCoupon(id: Id)

  datatype AdminReply =
    | AdminError(httpStatus: int, error: string)
    | AdminOk(message: string)
    | CouponList(coupons: seq<Coupon>)
    | CouponMade(message: string, coupon: Coupon)

  /** The reply, and the manager call made on the way (`None`: the coupons were not touched). */
  datatype AdminOutcome = AdminOutcome(reply: AdminReply, call: Option<CouponCall>)

  /**
   * The fields of a POST body; `None` stands for `undefined` (and, for
   * `code` and `expiresAt`, for any falsy value).
   */
  datatype CreateBody = CreateBody(code: Option<string>, value: Option<int>, usageLimit: Option<int>, expiresAt: Option<int>)

  /** The fields of a PATCH or DELETE body; `None` stands for a falsy value. */
  datatype UpdateBody = UpdateBody(couponId: Option<Id>, action: Option<string>)

  /**
   * `isAdminOrOwner`: `role` is the user's `role` column, `None` when the
   * lookup failed or found no row.
   */
  predicate IsAdminOrOwner(role: Option<string>)
  {
    role == Some("owner") || role == Some("admin")
  }

  /**
   * The guard chain every handler starts with: 401 without a user, then 403
   * unless the user is an owner or an administrator.
   */
  function Guard(user: Option<UserId>, role: Option<string>): (g: Option<AdminReply>)
    ensures g.None? <==> user.Some? && IsAdminOrOwner(role)
    ensures user.None? ==> g == Some(AdminError(401, UnauthorizedMessage))
    ensures user.Some? && !IsAdminOrOwner(role) ==> g == Some(AdminError(403, ForbiddenMessage))
  {
    if user.None? then Some(AdminError(401, UnauthorizedMessage))
    else if !IsAdminOrOwner(role) then Some(AdminError(403, ForbiddenMessage))
    else None
  }

  /** A failed role lookup and every role other than the two admit nobody. */
  lemma OnlyOwnersAndAdminsPass(user: UserId, role: Option<string>)
    ensures Guard(Some(user), Some("owner")) == None && Guard(Some(user), Some("admin")) == None
    ensures Guard(Some(user), None) == Some(AdminError(403, ForbiddenMessage))
    ensures role != Some("owner") && role != Some("admin") ==> Guard(Some(user), role) == Some(AdminError(403, ForbiddenMessage))
  {
  }

  /** GET: list every coupon; `listed` is what `getCoupons` answered. */
  function Get(user: Option<UserId>, role: Option<string>, listed: seq<Coupon>): (o: AdminOutcome)
    ensures Guard(user, role).Some? ==> o == AdminOutcome(Guard(user, role).value, None)
    ensures Guard(user, role).None? ==> o == AdminOutcome(CouponList(listed), Some(ListCoupons))
  {
    match Guard(user, role)
    case Some(reply) => AdminOutcome(reply, None)
    case None => AdminOutcome(CouponList(listed), Some(ListCoupons))
  }

  /**
   * POST: create a coupon from the body (`None` when it is not JSON);
   * `created` is what `createCoupon` answered.
   */
  function Post(user: Option<UserId>, role: Option<string>, body: Option<CreateBody>, created: CreateCouponResult): (o: AdminOutcome)
    ensures o.call.Some? <==>
      Guard(user, role).None? && body.Some? && Truthy(body.value.code) && body.value.value.Some? && body.value.usageLimit.Some?
    ensures o.call.Some? ==>
      o.call.value == CreateCoupon(body.value.code.value, body.value.value.value, body.value.usageLimit.value, body.value.expiresAt, user.value)
    ensures o.reply.CouponMade? <==> o.call.Some? && created.CouponCreated?
    ensures Guard(user, role).None? && body.Some? && !(Truthy(body.value.code) && body.value.value.Some? && body.value.usageLimit.Some?)
      ==> o == AdminOutcome(AdminError(400, CreateFieldsRequiredMessage), None)
    ensures o.call.Some? && created.CouponNotCreated? ==> o.reply.AdminError? && o.reply.httpStatus == 400
    ensures Guard(user, role).None? && body.None? ==> o == AdminOutcome(AdminError(500, InternalErrorMessage), None)
    ensures o.call.Some? && created.CouponCreated? ==> o.reply == CouponMade(CouponCreatedMessage, created.coupon)
    ensures o.call.Some? && created.CouponNotCreated? ==>
      o.reply == AdminError(400, if created.error != "" then created.error else CreateFailedMessage)
  {
    match Guard(user, role)
    case Some(reply) => AdminOutcome(reply, None)
    case None =>
      match body
      case None => AdminOutcome(AdminError(500, InternalErrorMessage), None)
      case Some(b) =>
        if !Truthy(b.code) || b.value.None? || b.usageLimit.None? then
          AdminOutcome(AdminError(400, CreateFieldsRequiredMessage), None)
        else
          var call := CreateCoupon(b.code.value, b.value.value, b.usageLimit.value, b.expiresAt, user.value);
          match created
          case CouponCreated(c) => AdminOutcome(CouponMade(CouponCreatedMessage, c), Some(call))
          case CouponNotCreated(error) =>
            AdminOutcome(AdminError(400, if error != "" then error else CreateFailedMessage), Some(call))
  }

  /**
   * PATCH: "deactivate" or "activate" the coupon `couponId`; `ok` is what the
   * manager answered.
   */
  function Patch(user: Option<UserId>, role: Option<string>, body: Option<UpdateBody>, ok: bool): (o: AdminOutcome)
    ensures o.call.Some? ==> Guard(user, role).None? && body.Some? && body.value.couponId.Some? && Truthy(body.value.action)
    ensures Guard(user, role).None? && body.Some? && body.value.couponId.Some? ==>
      && (o.call == Some(DeactivateCoupon(body.value.couponId.value)) <==> body.value.action == Some("deactivate"))
      && (o.call == Some(ActivateCoupon(body.value.couponId.value)) <==> body.value.action == Some("activate"))
    ensures o.call.Some? ==>
      o.reply == if ok then AdminOk("Coupon " + body.value.action.value + "d successfully")
                 else AdminError(400, "Failed to " + body.value.action.value + " coupon")
    ensures Guard(user, role).None? && body.None? ==> o == AdminOutcome(AdminError(500, InternalErrorMessage), None)
    ensures Guard(user, role).None? && body.Some? && (body.value.couponId.None? || !Truthy(body.value.action)) ==>
      o == AdminOutcome(AdminError(400, PatchFieldsRequiredMessage), None)
    ensures Guard(user, role).None? && body.Some? && body.value.couponId.Some? && Truthy(body.value.action) &&
            body.value.action != Some("deactivate") && body.value.action != Some("activate") ==>
      o == AdminOutcome(AdminError(400, InvalidActionMessage), None)
  {
    match Guard(user, role)
    case Some(reply) => AdminOutcome(reply, None)
    case None =>
      match body
      case None => AdminOutcome(AdminError(500, InternalErrorMessage), None)
      case Some(b) =>
        if b.couponId.None? || !Truthy(b.action) then AdminOutcome(AdminError(400, PatchFieldsRequiredMessage), None)
        else
          var action := b.action.value;
          var call :=
            if action == "deactivate" then Some(DeactivateCoupon(b.couponId.value))
            else if action == "activate" then Some(ActivateCoupon(b.couponId.value))
            else None;
          if call.None? then AdminOutcome(AdminError(400, InvalidActionMessage), None)
          else if ok then AdminOutcome(AdminOk("Coupon " + action + "d successfully"), call)
          else AdminOutcome(AdminError(400, "Failed to " + action + " coupon"), call)
  }

  /** Any action other than the two is refused with "Invalid action" and touches nothing. */
  lemma UnknownActionRejected(user: UserId, role: Option<string>, id: Id, action: string, ok: bool)
    requires IsAdminOrOwner(role)
    requires action != "" && action != "deactivate" && action != "activate"
    ensures Patch(Some(user), role, Some(UpdateBody(Some(id), Some(action))), ok) ==
      AdminOutcome(AdminError(400, InvalidActionMessage), None)
  {
  }

  /** The success messages the two actions produce. */
  lemma PatchSuccessMessages(user: UserId, role: Option<string>, id: Id)
    requires IsAdminOrOwner(role)
    ensures Patch(Some(user), role, Some(UpdateBody(Some(id), Some("activate"))), true).reply ==
      AdminOk("Coupon activated successfully")
    ensures Patch(Some(user), role, Some(UpdateBody(Some(id), Some("deactivate"))), true).reply ==
      AdminOk("Coupon deactivated successfully")
  {
    assert "activate" != "deactivate";
    assert "Coupon " + "activate" + "d successfully" == "Coupon activated successfully";
    assert "Coupon " + "deactivate" + "d successfully" == "Coupon deactivated successfully";
  }

  /** DELETE: delete the coupon `couponId`; `ok` is what the manager answered. */
  function Delete(user: Option<UserId>, role: Option<string>, body: Option<UpdateBody>, ok: bool): (o: AdminOutcome)
    ensures o.call.Some? <==> Guard(user, role).None? && body.Some? && body.value.couponId.Some?
    ensures o.call.Some? ==> o.call.value == DeleteCoupon(body.value.couponId.value)
    ensures o.call.Some? ==> (o.reply.AdminOk? <==> ok)
    ensures o.call.Some? ==> o.reply == if ok then AdminOk(CouponDeletedMessage) else AdminError(400, DeleteFailedMessage)
    ensures Guard(user, role).None? && body.None? ==> o == AdminOutcome(AdminError(500, InternalErrorMessage), None)
    ensures Guard(user, role).None? && body.Some? && body.value.couponId.None? ==>
      o == AdminOutcome(AdminError(400, CouponIdRequiredMessage), None)
  {
    match Guard(user, role)
    case Some(reply) => AdminOutcome(reply, None)
    case None =>
      match body
      case None => AdminOutcome(AdminError(500, InternalErrorMessage), None)
      case Some(b) =>
        if b.couponId.None? then AdminOutcome(AdminError(400, CouponIdRequiredMessage), None)
        else
          var call := Some(DeleteCoupon(b.couponId.value));
          if ok then AdminOutcome(AdminOk(CouponDeletedMessage), call)
          else AdminOutcome(AdminError(400, DeleteFailedMessage), call)
  }

  /**
   * Every handler answers 401 without a user and then 403 for anyone but an
   * owner or administrator, whatever the body says and before any manager
   * call.
   */
  lemma GuardsComeFirst(user: Option<UserId>, role: Option<string>, listed: seq<Coupon>,
                        create: Option<CreateBody>, created: CreateCouponResult, update: Option<UpdateBody>, ok: bool)
    requires Guard(user, role).Some?
    ensures var g := AdminOutcome(Guard(user, role).value, None);
      && Get(user, role, listed) == g
      && Post(user, role, create, created) == g
      && Patch(user, role, update, ok) == g
      && Delete(user, role, update, ok) == g
    ensures Guard(user, role).value.httpStatus == (if user.None? then 401 else 403)
  {
  }

  // ---------------------------------------------------------------------------
  // The calls against the coupon table

  /**
   * What a manager call does to the table, with the store's answer `reply`
   * and the clock `now`: the flag flips and the deletion report `ok`, the
   * creation reports the new coupon.
   */
  method Perform(store: CouponStore, call: CouponCall, now: int, reply: StoreReply)
    returns (ok: bool, created: CreateCouponResult, listed: seq<Coupon>)
    requires store.Valid()
    modifies store
    ensures store.Valid()
    ensures call.ListCoupons? ==> store.coupons == old(store.coupons) && listed == GetCoupons(old(store.coupons), reply)
    ensures call.DeactivateCoupon? ==>
      ok == reply.Ok? && store.coupons == if ok then WithActive(old(store.coupons), call.id, false) else old(store.coupons)
    ensures call.ActivateCoupon? ==>
      ok == reply.Ok? && store.coupons == if ok then WithActive(old(store.coupons), call.id, true) else old(store.coupons)
    ensures call.DeleteCoupon? ==>
      ok == reply.Ok? && store.coupons == if ok then Without(old(store.coupons), call.id) else old(store.coupons)
    ensures call.CreateCoupon? ==>
      (created.CouponCreated? <==> reply.Ok?) && store.coupons == old(store.coupons) + (if reply.Ok? then [created.coupon] else [])
    ensures call.CreateCoupon? && reply.Ok? ==>
      created == CouponCreated(Coupon(old(store.nextId), call.code, call.value, call.usageLimit, 0, call.expiresAt,
                                      Some(call.createdBy), now, true))
    ensures call.CreateCoupon? && reply.Err? ==> created == CouponNotCreated(reply.message)
  {
    ok, created, listed := false, CouponNotCreated(""), [];
    match call
    case ListCoupons =>
      listed := GetCoupons(store.coupons, reply);
    case CreateCoupon(code, value, usageLimit, expiresAt, createdBy) =>
      created := store.CreateCoupon(code, value, usageLimit, expiresAt, createdBy, now, reply);
    case DeactivateCoupon(id) =>
      ok := store.DeactivateCoupon(id, reply);
    case ActivateCoupon(id) =>
      ok := store.ActivateCoupon(id, reply);
    case DeleteCoupon(id) =>
      ok := store.DeleteCoupon(id, reply);
  }
}
