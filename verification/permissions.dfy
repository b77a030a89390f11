/** Who may do what: the two custom permission classes and the plan
    endpoint's permission policy in each of the two application variants. */
module Permissions {
  import opened Models

  /** An authenticated user, as far as authorization looks at one. */
  datatype Requester = Requester(id: UserId, isStaff: bool)

  /** A request's user: None is the anonymous user. */
  type Caller = Option<Requester>

  predicate IsAuthenticated(c: Caller) {
    c.Some?
  }

  /** Staff-only access. The anonymous user is not staff. */
  function IsAdminUser(c: Caller): (granted: bool)
    ensures granted <==> IsAuthenticated(c) && c.value.isStaff
  {
    match c
    case None => false
    case Some(u) => u.isStaff
  }

  /** Object-level access: the record's owner, or any staff user. */
  function IsOwnerOrAdmin(req: Requester, owner: UserId): (granted: bool)
    ensures req.isStaff ==> granted
    ensures owner == req.id ==> granted
    ensures !req.isStaff && owner != req.id ==> !granted
  {
    owner == req.id || req.isStaff
  }

  /** Whatever the staff-only class grants, the owner-or-staff class grants
      too, for every record. */
  lemma AdminImpliesOwnerOrAdmin(c: Caller, owner: UserId)
    ensures IsAdminUser(c) ==> IsOwnerOrAdmin(c.value, owner)
  {
  }

  datatype HttpMethod = Get | Head | Options | Post | Put | Patch | Delete {
    predicate IsRead() {
      this == Get || this == Head || this == Options
    }
  }

  /** The plan endpoint of the first variant: reads need a signed-in user,
      everything else needs staff. */
  function PlanAccess(c: Caller, m: HttpMethod): (granted: bool)
    ensures m.IsRead() ==> (granted <==> IsAuthenticated(c))
    ensures !m.IsRead() ==> (granted <==> IsAdminUser(c))
  {
    if m == Get || m == Head || m == Options then c.Some? else IsAdminUser(c)
  }

  /** The plan endpoint of the second variant: staff only, reads included. */
  function PlanAccessStaffOnly(c: Caller, m: HttpMethod): (granted: bool)
    ensures granted <==> IsAuthenticated(c) && c.value.isStaff
  {
    IsAdminUser(c)
  }

  /** The staff-only policy is the stricter one: it refuses signed-in
      non-staff reads that the first variant admits, and agrees with it on
      every write. */
  lemma PlanPoliciesCompared(c: Caller, m: HttpMethod)
    ensures PlanAccessStaffOnly(c, m) ==> PlanAccess(c, m)
    ensures !m.IsRead() ==> PlanAccessStaffOnly(c, m) == PlanAccess(c, m)
    ensures c.Some? && !c.value.isStaff && m.IsRead() ==> PlanAccess(c, m) && !PlanAccessStaffOnly(c, m)
  {
  }
}
