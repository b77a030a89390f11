/** The subscription endpoint: listing, creation guarded by the one-active
    rule, and the two cancellation routes (DELETE and the `unsubscribe`
    action). Both application variants carry the same logic. */
module SubscriptionViews {
  import opened Models
  import opened Permissions
  import opened Responses

  /** The base queryset: every subscription for staff, the requester's own
      otherwise. */
  function SubscriptionScope(st: Store, req: Requester): set<Id> {
    if req.isStaff then st.subs.Keys else set k | k in st.subs && st.subs[k].user == req.id
  }

  /** The queryset of the list view, which detail lookups also go through:
      the base queryset, narrowed to exact matches of a non-empty `status`
      parameter against the stored status code. */
  function ListSubscriptions(st: Store, req: Requester, statusParam: string): (r: set<Id>)
    ensures forall k :: k in r <==>
      k in st.subs && IsOwnerOrAdmin(req, st.subs[k].user) && AdmitsSub(statusParam, st.subs[k].status)
    ensures req.isStaff && statusParam == "" ==> r == st.subs.Keys
    ensures !req.isStaff ==> forall k :: k in r ==> st.subs[k].user == req.id
    ensures statusParam != "" && ParseSubStatus(statusParam).None? ==> r == {}
  {
    var scope := SubscriptionScope(st, req);
    if statusParam != "" then set k | k in scope && st.subs[k].status.Code() == statusParam else scope
  }

  /** The validated request body of a create: `user` is read-only and comes
      from the requester; an absent status takes the column default. */
  datatype SubscriptionForm = SubscriptionForm(plan: Id, start: Day, end: Day, status: Option<SubStatus>)

  predicate HasActive(st: Store, user: UserId) {
    exists k :: k in st.subs && st.subs[k].user == user && st.subs[k].status == Active
  }

  /** The subscription a successful create stores. */
  function FormRecord(req: Requester, form: SubscriptionForm): Subscription {
    Subscription(req.id, form.plan, form.start, form.end, form.status.GetOr(DefaultSubStatus))
  }

  /** Create: an unknown plan fails validation; a requester who owns any
      active subscription is refused whatever status is asked for;
      otherwise exactly one subscription, owned by the requester, is added
      under a fresh key and nothing else changes. */
  function CreateSubscription(st: Store, req: Requester, form: SubscriptionForm): (r: Response)
    requires Valid(st)
    ensures Valid(r.store)
    ensures AtMostOneActive(st) ==> AtMostOneActive(r.store)
    ensures form.plan !in st.plans ==> r == Response(BadRequest(UnknownPlanMsg), st)
    ensures form.plan in st.plans && HasActive(st, req.id) ==> r == Response(BadRequest(ActiveExistsMsg), st)
    ensures r.reply.Created? <==> form.plan in st.plans && !HasActive(st, req.id)
    ensures r.reply.Created? ==>
      && r.reply.id !in st.subs
      && r.store.subs == st.subs[r.reply.id := FormRecord(req, form)]
      && |r.store.subs| == |st.subs| + 1
      && r.store.plans == st.plans
      && r.store.invoices == st.invoices
  {
    if form.plan !in st.plans then
      Response(BadRequest(UnknownPlanMsg), st)
    else if HasActive(st, req.id) then
      Response(BadRequest(ActiveExistsMsg), st)
    else
      var id := st.nextSub;
      Response(Created(id), st.(subs := st.subs[id := FormRecord(req, form)], nextSub := id + 1))
  }

  /** The DELETE route: a soft cancel. The record is looked up through the
      list queryset (so a non-staff requester never reaches another user's
      subscription), an already-cancelled one is refused unchanged, and
      otherwise that one record, active or expired, becomes cancelled. */
  function DestroySubscription(st: Store, req: Requester, id: Id, statusParam: string): (r: Response)
    ensures r.store == st.(subs := r.store.subs)
    ensures r.store.subs.Keys == st.subs.Keys
    ensures forall k :: k in st.subs && k != id ==> r.store.subs[k] == st.subs[k]
    ensures r.reply.Ok? <==> id in ListSubscriptions(st, req, statusParam) && st.subs[id].status != Cancelled
    ensures r.reply.Ok? ==> r.reply.detail == CancelledMsg && r.store.subs[id] == st.subs[id].(status := Cancelled)
    ensures !r.reply.Ok? ==> r.store == st
    ensures r.reply != Forbidden
    ensures id !in ListSubscriptions(st, req, statusParam) ==> r.reply == NotFound
    ensures id in ListSubscriptions(st, req, statusParam) && st.subs[id].status == Cancelled
      ==> r.reply == Conflict(AlreadyCancelledMsg)
    ensures r.store != st ==> id in st.subs && IsOwnerOrAdmin(req, st.subs[id].user)
    ensures Valid(st) ==> Valid(r.store)
    ensures AtMostOneActive(st) ==> AtMostOneActive(r.store)
  {
    if id !in ListSubscriptions(st, req, statusParam) then
      Response(NotFound, st)
    else if !IsOwnerOrAdmin(req, st.subs[id].user) then
      // The queryset already keeps only records the requester may see.
      assert false;
      Response(Forbidden, st)
    else if st.subs[id].status == Cancelled then
      Response(Conflict(AlreadyCancelledMsg), st)
    else
      Response(Ok(CancelledMsg), st.(subs := st.subs[id := st.subs[id].(status := Cancelled)]))
  }

  /** The `unsubscribe` action, written separately in the source with its
      own success message. */
  function Unsubscribe(st: Store, req: Requester, id: Id, statusParam: string): (r: Response)
    ensures r.store.subs.Keys == st.subs.Keys
    ensures r.reply.Ok? <==> id in ListSubscriptions(st, req, statusParam) && st.subs[id].status != Cancelled
    ensures r.reply.Ok? ==> r.reply.detail == CancelledSuccessfullyMsg
    ensures !r.reply.Ok? ==> r.store == st
    ensures r.reply != Forbidden
  {
    if id !in ListSubscriptions(st, req, statusParam) then
      Response(NotFound, st)
    else if !IsOwnerOrAdmin(req, st.subs[id].user) then
      // The queryset already keeps only records the requester may see.
      assert false;
      Response(Forbidden, st)
    else if st.subs[id].status == Cancelled then
      Response(Conflict(AlreadyCancelledMsg), st)
    else
      Response(Ok(CancelledSuccessfullyMsg), st.(subs := st.subs[id := st.subs[id].(status := Cancelled)]))
  }

  /** The two cancellation routes leave the same store for every input and
      give the same reply except for the wording of success. */
  lemma UnsubscribeMatchesDestroy(st: Store, req: Requester, id: Id, statusParam: string)
    ensures Unsubscribe(st, req, id, statusParam).store == DestroySubscription(st, req, id, statusParam).store
    ensures Unsubscribe(st, req, id, statusParam).reply.Ok? <==> DestroySubscription(st, req, id, statusParam).reply.Ok?
    ensures !Unsubscribe(st, req, id, statusParam).reply.Ok? ==>
      Unsubscribe(st, req, id, statusParam).reply == DestroySubscription(st, req, id, statusParam).reply
  {
  }

  /** Cancelling twice: the second attempt is refused as a conflict (or,
      under a status filter the cancelled record no longer matches, not
      found) and changes nothing. */
  lemma DestroyTwice(st: Store, req: Requester, id: Id, statusParam: string)
    ensures var once := DestroySubscription(st, req, id, statusParam);
      var twice := DestroySubscription(once.store, req, id, statusParam);
      && twice.store == once.store
      && (once.reply.Ok? && statusParam == "" ==> twice.reply == Conflict(AlreadyCancelledMsg))
  {
    var once := DestroySubscription(st, req, id, statusParam);
    if once.reply.Ok? && statusParam == "" {
      assert id in ListSubscriptions(once.store, req, statusParam);
    }
  }
}
