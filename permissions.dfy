/** The permission classes of gas_management/permissions.py: boolean
    predicates over the request method, the requester's profile and the
    ownership of the object. */
module Permissions {
  import opened Common
  import opened Models

  datatype HttpMethod = Get | Head | Options | Post | Put | Patch | Delete

  /** DRF's SAFE_METHODS. */
  predicate IsSafe(m: HttpMethod) {
    m == Get || m == Head || m == Options
  }

  /** True when the requester has a profile with this role; false without one. */
  predicate HasRole(a: Actor, r: Role) {
    match a.profile
    case None => false
    case Some(role) => role == r
  }

  predicate IsBuyer(m: HttpMethod, a: Actor) {
    IsSafe(m) || HasRole(a, Buyer)
  }

  predicate IsSeller(m: HttpMethod, a: Actor) {
    IsSafe(m) || HasRole(a, Seller)
  }

  /** Unlike the two above, no method is exempt. */
  predicate IsAdmin(m: HttpMethod, a: Actor) {
    HasRole(a, Admin)
  }

  /** Object-level: reads for anyone, writes for the object's seller only. */
  predicate IsSellerOrReadOnly(m: HttpMethod, a: Actor, objSeller: UserId) {
    IsSafe(m) || objSeller == a.user
  }

  /** Object-level check on an order: any admin, the order's buyer or the
      seller of its listing; nobody without a profile. */
  predicate IsBuyerOrSellerOrAdmin(a: Actor, orderBuyer: UserId, listingSeller: UserId) {
    match a.profile
    case None => false
    case Some(role) => role == Admin || orderBuyer == a.user || listingSeller == a.user
  }

  /** Read methods pass the three read-exempt classes for anyone, even a
      requester without a profile. */
  lemma ReadsAreExempt(m: HttpMethod, a: Actor, objSeller: UserId)
    requires IsSafe(m)
    ensures IsBuyer(m, a) && IsSeller(m, a) && IsSellerOrReadOnly(m, a, objSeller)
  {
  }

  /** IsAdmin ignores the method; it holds exactly for admin profiles. */
  lemma AdminHasNoReadExemption(m: HttpMethod, m': HttpMethod, a: Actor)
    ensures IsAdmin(m, a) == IsAdmin(m', a)
    ensures IsAdmin(m, a) <==> a.profile == Some(Admin)
    ensures a.profile == None ==> !IsAdmin(Get, a)
  {
  }

  /** On a write, each of IsBuyer, IsSeller and IsAdmin admits exactly its own
      role, so no requester passes two of them. */
  lemma WriteRolesAreExclusive(m: HttpMethod, a: Actor)
    requires !IsSafe(m)
    ensures IsBuyer(m, a) <==> a.profile == Some(Buyer)
    ensures IsSeller(m, a) <==> a.profile == Some(Seller)
    ensures !(IsBuyer(m, a) && IsSeller(m, a))
    ensures !(IsBuyer(m, a) && IsAdmin(m, a))
    ensures !(IsSeller(m, a) && IsAdmin(m, a))
  {
  }

  /** An admin may access every order; a non-admin exactly the orders it
      bought or sold; a requester without a profile none. */
  lemma OrderAccess(a: Actor, orderBuyer: UserId, listingSeller: UserId)
    ensures a.profile == Some(Admin) ==> IsBuyerOrSellerOrAdmin(a, orderBuyer, listingSeller)
    ensures a.profile.Some? && a.profile != Some(Admin) ==>
              (IsBuyerOrSellerOrAdmin(a, orderBuyer, listingSeller) <==> orderBuyer == a.user || listingSeller == a.user)
    ensures a.profile == None ==> !IsBuyerOrSellerOrAdmin(a, orderBuyer, listingSeller)
  {
  }
}
