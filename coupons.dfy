/**
 * The coupon handlers of src/controllers/couponController.js over an
 * in-memory coupon collection.  A coupon's discount terms (type, value,
 * minimum, limits, dates) are kept as a map from field name to the value the
 * request supplied; the model is about who may create and change a coupon,
 * which fields a handler writes, and the unique index on `code`.
 */
module Coupons {
  import opened Common

  datatype Coupon = Coupon(
    code: string,
    terms: map<string, string>,
    createdBy: Option<Id>,
    createdRole: Option<string>,
    usedBy: seq<Id>)

  /** The term fields `createCoupon` reads from the body. */
  const CreateFields: set<string> :=
    {"discountType", "discountValue", "minOrderValue", "maxDiscount", "validFrom", "validTo", "usageLimit"}

  /** The term fields `upsertCoupon` reads from the body and assigns, present or not. */
  const UpsertFields: set<string> :=
    {"discountType", "discountValue", "minOrderAmount", "validFrom", "expiresAt", "usageLimit", "maxDiscount"}

  /** What `getCouponUsage` reports. */
  datatype Usage = Usage(code: string, usedCount: nat, usedBy: seq<Id>)

  /** An update body for `editCoupon`: a new code, if any, and term fields to overwrite. */
  datatype CouponPatch = CouponPatch(code: Option<string>, terms: map<string, string>)

  /** The supplied values of the named fields. */
  function Pick(body: map<string, string>, fields: set<string>): (r: map<string, string>)
    ensures r.Keys == body.Keys * fields
    ensures forall f :: f in r ==> r[f] == body[f]
  {
    map f | f in body && f in fields :: body[f]
  }

  /** `findByIdAndUpdate(id, body)`: each supplied field replaces the stored one. */
  function ApplyPatch(c: Coupon, patch: CouponPatch): (r: Coupon)
    ensures r.code == patch.code.GetOr(c.code)
    ensures forall f :: f in r.terms <==> f in c.terms || f in patch.terms
    ensures forall f :: f in patch.terms ==> r.terms[f] == patch.terms[f]
    ensures forall f :: f in c.terms && f !in patch.terms ==> r.terms[f] == c.terms[f]
    ensures r.createdBy == c.createdBy && r.createdRole == c.createdRole && r.usedBy == c.usedBy
  {
    c.(code := patch.code.GetOr(c.code), terms := c.terms + patch.terms)
  }

  /** `Object.assign(coupon, {...})`: every upsert field is written, and one the body lacks is left unset. */
  function AssignTerms(terms: map<string, string>, body: map<string, string>): (r: map<string, string>)
    ensures forall f :: f in UpsertFields ==> (f in r <==> f in body) && (f in body ==> r[f] == body[f])
    ensures forall f :: f !in UpsertFields ==> (f in r <==> f in terms) && (f in terms ==> r[f] == terms[f])
  {
    (terms - UpsertFields) + Pick(body, UpsertFields)
  }

  predicate CodeTaken(coupons: map<Id, Coupon>, couponCode: string) {
    exists id :: id in coupons && coupons[id].code == couponCode
  }

  /** Another coupon than `id` already has the code. */
  predicate CodeTakenByOther(coupons: map<Id, Coupon>, id: Id, couponCode: string) {
    exists other :: other in coupons && other != id && coupons[other].code == couponCode
  }

  /** The unique index on `code`: no two coupons share one. */
  predicate UniqueCodes(coupons: map<Id, Coupon>) {
    forall a, b :: a in coupons && b in coupons && a != b ==> coupons[a].code != coupons[b].code
  }

  predicate MayEdit(userId: string, role: string, c: Coupon) {
    role == Admin || c.createdBy == Some(userId)
  }

  /** Replacing one coupon by one whose code no other coupon has keeps the codes unique. */
  lemma ReplaceKeepsUniqueCodes(coupons: map<Id, Coupon>, id: Id, c: Coupon)
    requires UniqueCodes(coupons)
    requires !CodeTakenByOther(coupons, id, c.code)
    ensures UniqueCodes(coupons[id := c])
  {
    var after := coupons[id := c];
    forall a, b | a in after && b in after && a != b
      ensures after[a].code != after[b].code
    {
      if a == id {
        assert b != id && b in coupons;
      } else if b == id {
        assert a != id && a in coupons;
      }
    }
  }

  class CouponStore {
    var coupons: map<Id, Coupon>

    constructor ()
      ensures coupons == map[]
    {
      coupons := map[];
    }

    /**
     * `createCoupon`: 400 without a user id or role in the query, 403 unless
     * admin or vendor, 500 when there is no code to trim or the trimmed code is
     * taken; otherwise stores the trimmed code, the supplied terms and the
     * creator.
     */
    method CreateCoupon(userId: Option<string>, role: Option<string>, couponCode: Option<string>,
                        body: map<string, string>, newId: Id)
      returns (code: nat, created: Option<Coupon>)
      requires newId !in coupons
      modifies this
      ensures !Truthy(userId) || !Truthy(role) ==> code == BadRequest && created == None && coupons == old(coupons)
      ensures Truthy(userId) && Truthy(role) && role.value != Admin && role.value != Vendor ==>
        code == Forbidden && created == None && coupons == old(coupons)
      ensures code == Created <==>
        && Truthy(userId) && Truthy(role) && (role.value == Admin || role.value == Vendor)
        && couponCode.Some? && !CodeTaken(old(coupons), Trim(couponCode.value))
      ensures code == Created ==>
        && created == Some(Coupon(Trim(couponCode.value), Pick(body, CreateFields), userId, role, []))
        && coupons == old(coupons)[newId := created.value]
      ensures code != Created ==> created == None && coupons == old(coupons)
      ensures UniqueCodes(old(coupons)) ==> UniqueCodes(coupons)
    {
      if !Truthy(userId) || !Truthy(role) {
        return BadRequest, None;
      }
      if role.value != Admin && role.value != Vendor {
        return Forbidden, None;
      }
      if couponCode.None? {
        return ServerError, None;
      }
      var trimmed := Trim(couponCode.value);
      if exists id :: id in coupons && coupons[id].code == trimmed {
        return ServerError, None;
      }
      var c := Coupon(trimmed, Pick(body, CreateFields), userId, role, []);
      coupons := coupons[newId := c];
      return Created, Some(c);
    }

    /**
     * `editCoupon`: 400 without a user id or role, then 404 for an unknown id,
     * then 403 unless the caller is admin or the coupon's creator; a new code
     * another coupon has breaks the unique index (500).
     */
    method EditCoupon(id: Id, userId: Option<string>, role: Option<string>, patch: CouponPatch)
      returns (code: nat, updated: Option<Coupon>)
      modifies this
      ensures !Truthy(userId) || !Truthy(role) ==> code == BadRequest && updated == None && coupons == old(coupons)
      ensures Truthy(userId) && Truthy(role) && id !in old(coupons) ==>
        code == NotFound && updated == None && coupons == old(coupons)
      ensures Truthy(userId) && Truthy(role) && id in old(coupons) && !MayEdit(userId.value, role.value, old(coupons)[id]) ==>
        code == Forbidden && updated == None && coupons == old(coupons)
      ensures code == Ok <==>
        && Truthy(userId) && Truthy(role) && id in old(coupons) && MayEdit(userId.value, role.value, old(coupons)[id])
        && !CodeTakenByOther(old(coupons), id, patch.code.GetOr(old(coupons)[id].code))
      ensures code == Ok ==>
        updated == Some(ApplyPatch(old(coupons)[id], patch)) && coupons == old(coupons)[id := updated.value]
      ensures code != Ok ==> updated == None && coupons == old(coupons)
      ensures UniqueCodes(old(coupons)) ==> UniqueCodes(coupons)
    {
      if !Truthy(userId) || !Truthy(role) {
        return BadRequest, None;
      }
      if id !in coupons {
        return NotFound, None;
      }
      var c := coupons[id];
      var isOwner := c.createdBy == Some(userId.value);
      if role.value != Admin && !isOwner {
        return Forbidden, None;
      }
      var c' := ApplyPatch(c, patch);
      if exists other :: other in coupons && other != id && coupons[other].code == c'.code {
        return ServerError, None;
      }
      if UniqueCodes(coupons) {
        ReplaceKeepsUniqueCodes(coupons, id, c');
      }
      coupons := coupons[id := c'];
      return Ok, Some(c');
    }

    /** `getCouponUsage`: 404 for an unknown code; otherwise the coupon's users and their number. */
    method GetCouponUsage(couponCode: string) returns (code: nat, usage: Option<Usage>)
      ensures !CodeTaken(coupons, couponCode) ==> code == NotFound && usage == None
      ensures CodeTaken(coupons, couponCode) ==> code == Ok && usage.Some?
      ensures usage.Some? ==> usage.value.code == couponCode && usage.value.usedCount == |usage.value.usedBy|
      ensures usage.Some? ==> exists id :: id in coupons && coupons[id] == Coupon(couponCode, coupons[id].terms,
        coupons[id].createdBy, coupons[id].createdRole, usage.value.usedBy)
    {
      if !exists id :: id in coupons && coupons[id].code == couponCode {
        return NotFound, None;
      }
      var id :| id in coupons && coupons[id].code == couponCode;
      var c := coupons[id];
      return Ok, Some(Usage(c.code, |c.usedBy|, c.usedBy));
    }

    /**
     * `upsertCoupon`: with a coupon of that code, only its creator or an admin
     * may rewrite its terms (a coupon without a creator makes the check throw,
     * 500); without one, a new coupon is created for the caller.
     */
    method UpsertCoupon(caller: Caller, couponCode: string, body: map<string, string>, newId: Id)
      returns (code: nat, result: Option<Coupon>)
      requires newId !in coupons
      modifies this
      ensures !CodeTaken(old(coupons), couponCode) ==>
        && code == Created
        && result == Some(Coupon(couponCode, Pick(body, UpsertFields), Some(caller.userId), Some(caller.role), []))
        && coupons == old(coupons)[newId := result.value]
      ensures CodeTaken(old(coupons), couponCode) ==> code in {Ok, Forbidden, ServerError} && |coupons| == |old(coupons)|
      ensures CodeTaken(old(coupons), couponCode)
        && (forall id :: id in old(coupons) && old(coupons)[id].code == couponCode ==> old(coupons)[id].createdBy.None?)
        ==> code == ServerError
      ensures CodeTaken(old(coupons), couponCode)
        && (forall id :: id in old(coupons) && old(coupons)[id].code == couponCode ==>
              old(coupons)[id].createdBy.Some? && old(coupons)[id].createdBy.value != caller.userId && caller.role != Admin)
        ==> code == Forbidden
      ensures CodeTaken(old(coupons), couponCode)
        && (forall id :: id in old(coupons) && old(coupons)[id].code == couponCode ==>
              old(coupons)[id].createdBy.Some? && (old(coupons)[id].createdBy.value == caller.userId || caller.role == Admin))
        ==> code == Ok
      ensures code == Ok ==> exists id :: UpsertedAt(old(coupons), coupons, id, couponCode, caller, body, result)
      ensures code != Ok && code != Created ==> result == None && coupons == old(coupons)
      ensures UniqueCodes(old(coupons)) ==> UniqueCodes(coupons)
    {
      if !exists id :: id in coupons && coupons[id].code == couponCode {
        var c := Coupon(couponCode, Pick(body, UpsertFields), Some(caller.userId), Some(caller.role), []);
        coupons := coupons[newId := c];
        return Created, Some(c);
      }
      var id :| id in coupons && coupons[id].code == couponCode;
      var c := coupons[id];
      if c.createdBy.None? {
        return ServerError, None;
      }
      if c.createdBy.value != caller.userId && caller.role != Admin {
        return Forbidden, None;
      }
      var c' := c.(terms := AssignTerms(c.terms, body));
      if UniqueCodes(coupons) {
        ReplaceKeepsUniqueCodes(coupons, id, c');
      }
      coupons := coupons[id := c'];
      result := Some(c');
      assert UpsertedAt(old(coupons), coupons, id, couponCode, caller, body, result);
      return Ok, result;
    }
  }

  /** The existing coupon `id` with that code was rewritten by its creator or an admin: new terms, same code and creator. */
  predicate UpsertedAt(before: map<Id, Coupon>, after: map<Id, Coupon>, id: Id, couponCode: string,
                       caller: Caller, body: map<string, string>, result: Option<Coupon>)
  {
    && id in before && before[id].code == couponCode
    && before[id].createdBy.Some?
    && (before[id].createdBy.value == caller.userId || caller.role == Admin)
    && result == Some(before[id].(terms := AssignTerms(before[id].terms, body)))
    && result.value.createdBy == before[id].createdBy
    && after == before[id := result.value]
  }

  /** Creation only for an unused code: a new coupon never shares its code with an existing one. */
  lemma CreateForFreshCodeKeepsUniqueCodes(coupons: map<Id, Coupon>, newId: Id, c: Coupon)
    requires UniqueCodes(coupons) && newId !in coupons && !CodeTaken(coupons, c.code)
    ensures UniqueCodes(coupons[newId := c])
  {
    ReplaceKeepsUniqueCodes(coupons, newId, c);
  }
}
