/** The store driven by the modelled operations, run one after another.
    The operations come from both variants of the application: the mock
    `pay` action only from the second, payment-success confirmation and
    payment-intent creation only from the first. No single deployment
    offers all of them, but every property here ranges over arbitrary
    sequences, so it holds in particular for each variant's own
    operations. Over any sequence the store stays well formed, no user
    gains a second active subscription, no subscription gets two invoices
    for one issue date, invoices only move pending -> overdue -> paid (or
    straight to paid), and paid invoices and cancelled subscriptions stay
    as they are. The framework's generic create, update and delete routes
    are not among these operations. */
module Lifecycle {
  import opened Models
  import opened Permissions
  import Tasks
  import SubscriptionViews
  import InvoiceViews
  import Payments

  datatype Op =
    | GenerateOp(today: Day)
    | MarkOverdueOp(today: Day)
    | RemindOp(today: Day)
    | CreateOp(req: Requester, form: SubscriptionViews.SubscriptionForm)
    | DestroyOp(req: Requester, id: Id, statusParam: string)
    | UnsubscribeOp(req: Requester, id: Id, statusParam: string)
    | PayOp(req: Requester, id: Id, statusParam: string)
    | ConfirmOp(invoiceId: Option<int>)
    | IntentOp(apiKey: string, invoiceId: Option<int>)

  /** The store an operation leaves. The reminder job and payment-intent
      creation only read it. */
  function Apply(st: Store, op: Op): (r: Store)
    requires Valid(st)
    ensures Valid(r)
    ensures AtMostOneActive(st) ==> AtMostOneActive(r)
  {
    match op
    case GenerateOp(today) => Tasks.GenerateDailyInvoices(st, today)
    case MarkOverdueOp(today) =>
      var r := Tasks.MarkOverdueInvoices(st, today).store;
      assert forall k :: k in r.invoices ==> r.invoices[k] == st.invoices[k].(status := r.invoices[k].status);
      r
    case RemindOp(_) => st
    case CreateOp(req, form) => SubscriptionViews.CreateSubscription(st, req, form).store
    case DestroyOp(req, id, p) => SubscriptionViews.DestroySubscription(st, req, id, p).store
    case UnsubscribeOp(req, id, p) =>
      SubscriptionViews.UnsubscribeMatchesDestroy(st, req, id, p);
      SubscriptionViews.Unsubscribe(st, req, id, p).store
    case PayOp(req, id, p) => InvoiceViews.PayInvoice(st, req, id, p).store
    case ConfirmOp(invoiceId) => Payments.ConfirmPayment(st, invoiceId).store
    case IntentOp(_, _) => st
  }

  /** The invoice transitions an operation may make: none, or a status
      change alone, pending to overdue by the overdue job once the due date
      has passed, or pending or overdue to paid by a payment. */
  ghost predicate Allowed(op: Op, before: Invoice, after: Invoice) {
    || after == before
    || (op.MarkOverdueOp? && before.status == Pending && before.due < op.today
        && after == before.(status := Overdue))
    || ((op.PayOp? || op.ConfirmOp?) && before.status != Paid
        && after == before.(status := Paid))
  }

  /** Every operation keeps every invoice and moves it only as allowed. */
  lemma StepFollowsStateMachine(st: Store, op: Op)
    requires Valid(st)
    ensures forall k :: k in st.invoices ==>
      k in Apply(st, op).invoices && Allowed(op, st.invoices[k], Apply(st, op).invoices[k])
  {
    var r := Apply(st, op);
    match op
    case MarkOverdueOp(today) =>
      forall k | k in st.invoices ensures k in r.invoices && Allowed(op, st.invoices[k], r.invoices[k]) {
        if Tasks.OverdueEligible(st.invoices[k], today) {
          assert r.invoices[k] == st.invoices[k].(status := Overdue);
        }
      }
    case PayOp(req, id, p) =>
      forall k | k in st.invoices ensures k in r.invoices && Allowed(op, st.invoices[k], r.invoices[k]) {
        if k == id && r != st {
          assert r.invoices[k] == st.invoices[k].(status := Paid);
        }
      }
    case _ =>
  }

  /** Runs the operations in order. */
  function Run(st: Store, ops: seq<Op>): (r: Store)
    requires Valid(st)
    ensures Valid(r)
    ensures AtMostOneActive(st) ==> AtMostOneActive(r)
    decreases |ops|
  {
    if ops == [] then st else Run(Apply(st, ops[0]), ops[1..])
  }

  /** Where an invoice status stands in the lifecycle. */
  function Rank(s: InvoiceStatus): nat {
    match s
    case Pending => 0
    case Overdue => 1
    case Paid => 2
  }

  /** Across any run an invoice keeps its key and every field but its
      status, and its status never moves back. */
  lemma {:induction false} InvoicesOnlyAdvance(st: Store, ops: seq<Op>, k: Id)
    requires Valid(st)
    requires k in st.invoices
    ensures k in Run(st, ops).invoices
    ensures Run(st, ops).invoices[k] == st.invoices[k].(status := Run(st, ops).invoices[k].status)
    ensures Rank(st.invoices[k].status) <= Rank(Run(st, ops).invoices[k].status)
    decreases |ops|
  {
    if ops != [] {
      var next := Apply(st, ops[0]);
      StepFollowsStateMachine(st, ops[0]);
      InvoicesOnlyAdvance(next, ops[1..], k);
    }
  }

  /** Paid is terminal: across any run of the modelled operations a paid
      invoice stays exactly as it is. */
  lemma {:induction false} PaidIsTerminal(st: Store, ops: seq<Op>, k: Id)
    requires Valid(st)
    requires k in st.invoices && st.invoices[k].status == Paid
    ensures k in Run(st, ops).invoices && Run(st, ops).invoices[k] == st.invoices[k]
    decreases |ops|
  {
    if ops != [] {
      var next := Apply(st, ops[0]);
      StepFollowsStateMachine(st, ops[0]);
      PaidIsTerminal(next, ops[1..], k);
    }
  }

  /** A subscription keeps its key and every field but its status, and a
      cancelled one stays cancelled. */
  lemma StepKeepsSubscriptions(st: Store, op: Op)
    requires Valid(st)
    ensures forall k :: k in st.subs ==>
      && k in Apply(st, op).subs
      && Apply(st, op).subs[k] == st.subs[k].(status := Apply(st, op).subs[k].status)
      && (st.subs[k].status == Cancelled ==> Apply(st, op).subs[k] == st.subs[k])
      && (Apply(st, op).subs[k] != st.subs[k] ==> Apply(st, op).subs[k].status == Cancelled)
  {
    match op
    case UnsubscribeOp(req, id, p) =>
      SubscriptionViews.UnsubscribeMatchesDestroy(st, req, id, p);
    case _ =>
  }

  lemma {:induction false} CancelledIsTerminal(st: Store, ops: seq<Op>, k: Id)
    requires Valid(st)
    requires k in st.subs && st.subs[k].status == Cancelled
    ensures k in Run(st, ops).subs && Run(st, ops).subs[k] == st.subs[k]
    decreases |ops|
  {
    if ops != [] {
      StepKeepsSubscriptions(st, ops[0]);
      CancelledIsTerminal(Apply(st, ops[0]), ops[1..], k);
    }
  }

  /** From an empty store any run of the modelled operations keeps each
      user to at most one active subscription. */
  lemma SingleActiveFromEmpty(plans: map<Id, Plan>, ops: seq<Op>)
    requires PlansValid(plans)
    ensures AtMostOneActive(Run(EmptyStore(plans), ops))
  {
  }

  /** Every operation keeps at most one invoice per subscription and issue
      date: generation by its duplicate check, the rest because they add no
      invoice and keep each invoice's subscription and issue date. */
  lemma StepKeepsOneInvoicePerDay(st: Store, op: Op)
    requires Valid(st)
    ensures Tasks.OneInvoicePerDay(st.invoices) ==> Tasks.OneInvoicePerDay(Apply(st, op).invoices)
  {
    match op
    case GenerateOp(today) =>
      Tasks.GenerateKeepsOnePerDay(st, today);
    case _ =>
      var r := Apply(st, op);
      StepFollowsStateMachine(st, op);
      assert r.invoices.Keys == st.invoices.Keys;
  }

  lemma {:induction false} RunKeepsOneInvoicePerDay(st: Store, ops: seq<Op>)
    requires Valid(st)
    ensures Tasks.OneInvoicePerDay(st.invoices) ==> Tasks.OneInvoicePerDay(Run(st, ops).invoices)
    decreases |ops|
  {
    if ops != [] {
      StepKeepsOneInvoicePerDay(st, ops[0]);
      RunKeepsOneInvoicePerDay(Apply(st, ops[0]), ops[1..]);
    }
  }

  /** From a store holding only plans, after any run of the modelled
      operations followed by the generation job, every subscription billable
      that day has exactly one invoice issued that day, however often the
      job ran before. */
  lemma GeneratedExactlyOnce(plans: map<Id, Plan>, ops: seq<Op>, today: Day, sid: Id)
    requires PlansValid(plans)
    ensures var r := Tasks.GenerateDailyInvoices(Run(EmptyStore(plans), ops), today);
      && Tasks.OneInvoicePerDay(r.invoices)
      && (sid in r.subs && Tasks.Billable(r.subs[sid], today) ==> Tasks.InvoicedOn(r.invoices, sid, today))
  {
    var st := Run(EmptyStore(plans), ops);
    RunKeepsOneInvoicePerDay(EmptyStore(plans), ops);
    Tasks.GenerateKeepsOnePerDay(st, today);
  }
}
