/** The invoice endpoint: the owner-or-staff listing and, in the second
    application variant, the mock `pay` action. */
module InvoiceViews {
  import opened Models
  import opened Permissions
  import opened Responses

  /** The base queryset: every invoice for staff, the requester's own otherwise. */
  function InvoiceScope(st: Store, req: Requester): set<Id> {
    if req.isStaff then st.invoices.Keys else set k | k in st.invoices && st.invoices[k].user == req.id
  }

  /** The queryset of the list view, which detail lookups also go through:
      the base queryset, narrowed to exact matches of a non-empty `status`
      parameter against the stored status code. */
  function ListInvoices(st: Store, req: Requester, statusParam: string): (r: set<Id>)
    ensures forall k :: k in r <==>
      k in st.invoices && IsOwnerOrAdmin(req, st.invoices[k].user) && AdmitsInvoice(statusParam, st.invoices[k].status)
    ensures req.isStaff && statusParam == "" ==> r == st.invoices.Keys
    ensures !req.isStaff ==> forall k :: k in r ==> st.invoices[k].user == req.id
    ensures statusParam != "" && ParseInvoiceStatus(statusParam).None? ==> r == {}
  {
    var scope := InvoiceScope(st, req);
    if statusParam != "" then set k | k in scope && st.invoices[k].status.Code() == statusParam else scope
  }

  /** The invoice table after invoice `id` is settled; nothing else moves. */
  function SettleInvoice(st: Store, id: Id): Store
    requires id in st.invoices
  {
    st.(invoices := st.invoices[id := st.invoices[id].(status := Paid)])
  }

  /** The mock pay action: the invoice is looked up through the list
      queryset; a paid one is refused unchanged; a pending or overdue one
      becomes paid, and no other field or record changes. */
  function PayInvoice(st: Store, req: Requester, id: Id, statusParam: string): (r: Response)
    ensures r.store == st.(invoices := r.store.invoices)
    ensures r.store.invoices.Keys == st.invoices.Keys
    ensures forall k :: k in st.invoices && k != id ==> r.store.invoices[k] == st.invoices[k]
    ensures id in st.invoices ==> r.store.invoices[id] == st.invoices[id].(status := r.store.invoices[id].status)
    ensures r.reply.Ok? <==> id in ListInvoices(st, req, statusParam) && st.invoices[id].status != Paid
    ensures r.reply.Ok? ==> r.reply.detail == PaymentSuccessfulMsg && r.store.invoices[id].status == Paid
    ensures !r.reply.Ok? ==> r.store == st
    ensures id !in ListInvoices(st, req, statusParam) ==> r.reply == NotFound
    ensures id in ListInvoices(st, req, statusParam) && st.invoices[id].status == Paid
      ==> r.reply == Conflict(AlreadyPaidMsg)
    ensures r.store != st ==> id in st.invoices && IsOwnerOrAdmin(req, st.invoices[id].user)
    ensures Valid(st) ==> Valid(r.store)
  {
    if id !in ListInvoices(st, req, statusParam) then
      Response(NotFound, st)
    else if st.invoices[id].status == Paid then
      Response(Conflict(AlreadyPaidMsg), st)
    else
      Response(Ok(PaymentSuccessfulMsg), SettleInvoice(st, id))
  }

  /** Paying twice leaves the store of paying once; without a status filter
      the second attempt reports that the invoice is already paid. */
  lemma PayTwice(st: Store, req: Requester, id: Id, statusParam: string)
    ensures var once := PayInvoice(st, req, id, statusParam);
      var twice := PayInvoice(once.store, req, id, statusParam);
      && twice.store == once.store
      && !twice.reply.Ok?
      && (once.reply.Ok? && statusParam == "" ==> twice.reply == Conflict(AlreadyPaidMsg))
  {
    var once := PayInvoice(st, req, id, statusParam);
    if once.reply.Ok? && statusParam == "" {
      assert id in ListInvoices(once.store, req, statusParam);
    }
  }
}
