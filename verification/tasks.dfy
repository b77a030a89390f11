/** The three scheduled jobs that drive the invoice lifecycle: daily
    invoice generation, overdue marking and pending reminders. "Today" is a
    parameter; the jobs are otherwise deterministic. */
module Tasks {
  import opened Models

  /** An invoice falls due this many days after it is issued. */
  const PaymentTermDays: int := 7

  // ----------------------------------------------------- daily generation

  /** The subscriptions the generation job selects: active, starting today. */
  predicate Billable(sub: Subscription, today: Day) {
    sub.status == Active && sub.start == today
  }

  /** The duplicate check: some invoice of subscription `sid` was issued on `day`. */
  predicate InvoicedOn(invoices: map<Id, Invoice>, sid: Id, day: Day) {
    exists k :: k in invoices && invoices[k].subscription == sid && invoices[k].issue == day
  }

  /** The invoice the job writes for subscription `sid` at plan price `price`. */
  function NewInvoice(sid: Id, sub: Subscription, price: Cents, today: Day): Invoice {
    Invoice(sub.user, Some(sub.plan), sid, price, today, today + PaymentTermDays, Pending)
  }

  /** `r` keeps plans, subscriptions and every invoice of `st` as they were. */
  ghost predicate Extends(st: Store, r: Store) {
    && r.plans == st.plans
    && r.subs == st.subs
    && r.nextSub == st.nextSub
    && st.nextInvoice <= r.nextInvoice
    && forall k :: k in st.invoices ==> k in r.invoices && r.invoices[k] == st.invoices[k]
  }

  /** Every invoice `r` has beyond `st` is the one the job writes for a
      billable subscription that had no invoice issued today in `st`. */
  ghost predicate AddedOnlyBilled(st: Store, r: Store, today: Day) {
    forall k :: k in r.invoices && k !in st.invoices ==>
      var sid := r.invoices[k].subscription;
      && sid in st.subs
      && Billable(st.subs[sid], today)
      && !InvoicedOn(st.invoices, sid, today)
      && st.subs[sid].plan in st.plans
      && r.invoices[k] == NewInvoice(sid, st.subs[sid], st.plans[st.subs[sid].plan].price, today)
  }

  /** No two invoices added between `st` and `r` bill the same subscription. */
  ghost predicate AddedDistinct(st: Store, r: Store) {
    forall k1, k2 ::
      k1 in r.invoices && k2 in r.invoices && k1 !in st.invoices && k2 !in st.invoices && k1 != k2
      ==> r.invoices[k1].subscription != r.invoices[k2].subscription
  }

  /** Every billable subscription with a key below `n` has an invoice issued today. */
  ghost predicate BilledBelow(st: Store, today: Day, n: int) {
    forall sid :: sid < n && sid in st.subs && Billable(st.subs[sid], today) ==> InvoicedOn(st.invoices, sid, today)
  }

  /** At most one invoice per subscription carries issue date `day`. */
  ghost predicate UniqueOn(invoices: map<Id, Invoice>, day: Day) {
    forall k1, k2 ::
      k1 in invoices && k2 in invoices
      && invoices[k1].issue == day && invoices[k2].issue == day
      && invoices[k1].subscription == invoices[k2].subscription
      ==> k1 == k2
  }

  /** One iteration of the job's loop, for subscription `sid`. */
  function BillOne(st: Store, today: Day, sid: Id): (r: Store)
    requires Valid(st)
    ensures Valid(r) && Extends(st, r) && AddedOnlyBilled(st, r, today) && AddedDistinct(st, r)
    ensures sid in st.subs && Billable(st.subs[sid], today) ==> InvoicedOn(r.invoices, sid, today)
  {
    if sid in st.subs && Billable(st.subs[sid], today) && !InvoicedOn(st.invoices, sid, today) then
      var sub := st.subs[sid];
      var inv := NewInvoice(sid, sub, st.plans[sub.plan].price, today);
      var r := st.(invoices := st.invoices[st.nextInvoice := inv], nextInvoice := st.nextInvoice + 1);
      assert r.invoices[st.nextInvoice] == inv;
      r
    else
      st
  }

  lemma InvoicedOnExtends(st: Store, r: Store, sid: Id, day: Day)
    requires Extends(st, r)
    requires InvoicedOn(st.invoices, sid, day)
    ensures InvoicedOn(r.invoices, sid, day)
  {
    var k :| k in st.invoices && st.invoices[k].subscription == sid && st.invoices[k].issue == day;
    assert k in r.invoices && r.invoices[k] == st.invoices[k];
  }

  /** Two runs of the loop body compose into one. */
  lemma ComposeBilling(st: Store, mid: Store, r: Store, today: Day, n: int)
    requires Extends(st, mid) && AddedOnlyBilled(st, mid, today) && AddedDistinct(st, mid)
    requires Extends(mid, r) && AddedOnlyBilled(mid, r, today) && AddedDistinct(mid, r)
    requires BilledBelow(mid, today, n - 1)
    requires n - 1 in mid.subs && Billable(mid.subs[n - 1], today) ==> InvoicedOn(r.invoices, n - 1, today)
    ensures Extends(st, r) && AddedOnlyBilled(st, r, today) && AddedDistinct(st, r)
    ensures BilledBelow(r, today, n)
  {
    forall k | k in r.invoices && k !in st.invoices
      ensures var sid := r.invoices[k].subscription;
        && sid in st.subs
        && Billable(st.subs[sid], today)
        && !InvoicedOn(st.invoices, sid, today)
        && st.subs[sid].plan in st.plans
        && r.invoices[k] == NewInvoice(sid, st.subs[sid], st.plans[st.subs[sid].plan].price, today)
    {
      var sid := r.invoices[k].subscription;
      if k !in mid.invoices {
        if InvoicedOn(st.invoices, sid, today) {
          InvoicedOnExtends(st, mid, sid, today);
          assert false;
        }
      }
    }
    forall k1, k2 | k1 in r.invoices && k2 in r.invoices && k1 !in st.invoices && k2 !in st.invoices && k1 != k2
      ensures r.invoices[k1].subscription != r.invoices[k2].subscription
    {
      if k1 in mid.invoices && k2 !in mid.invoices {
        var sid := r.invoices[k2].subscription;
        assert mid.invoices[k1].subscription == r.invoices[k1].subscription;
        assert mid.invoices[k1].issue == today;
      } else if k1 !in mid.invoices && k2 in mid.invoices {
        var sid := r.invoices[k1].subscription;
        assert mid.invoices[k2].issue == today;
      }
    }
    forall sid | sid < n && sid in r.subs && Billable(r.subs[sid], today)
      ensures InvoicedOn(r.invoices, sid, today)
    {
      if sid < n - 1 {
        InvoicedOnExtends(mid, r, sid, today);
      }
    }
  }

  /** The job's loop over subscription keys 0 .. n-1, in ascending order. */
  function GenerateUpTo(st: Store, today: Day, n: nat): (r: Store)
    requires Valid(st)
    ensures Valid(r) && Extends(st, r) && AddedOnlyBilled(st, r, today) && AddedDistinct(st, r)
    ensures BilledBelow(r, today, n)
    decreases n
  {
    if n == 0 then
      st
    else
      var mid := GenerateUpTo(st, today, n - 1);
      var r := BillOne(mid, today, n - 1);
      ComposeBilling(st, mid, r, today, n);
      r
  }

  /** Invoices issued today are unique per subscription after a run that
      started with them unique. */
  lemma AddedKeepsUnique(st: Store, r: Store, today: Day)
    requires Extends(st, r) && AddedOnlyBilled(st, r, today) && AddedDistinct(st, r)
    ensures UniqueOn(st.invoices, today) ==> UniqueOn(r.invoices, today)
  {
    if UniqueOn(st.invoices, today) {
      forall k1, k2 |
        k1 in r.invoices && k2 in r.invoices
        && r.invoices[k1].issue == today && r.invoices[k2].issue == today
        && r.invoices[k1].subscription == r.invoices[k2].subscription
        ensures k1 == k2
      {
        var sid := r.invoices[k1].subscription;
        if k1 in st.invoices && k2 !in st.invoices {
          assert st.invoices[k1] == r.invoices[k1];
          assert InvoicedOn(st.invoices, sid, today);
        } else if k1 !in st.invoices && k2 in st.invoices {
          assert st.invoices[k2] == r.invoices[k2];
          assert InvoicedOn(st.invoices, sid, today);
        }
      }
    }
  }

  /** The daily generation job. It only adds invoices; each added invoice
      bills a subscription that is active and starts today, copies that
      subscription's user and plan, charges the plan's price, is issued
      today, falls due a week later and is pending; no subscription gets
      two, none that already had one issued today gets another, and every
      billable subscription has one issued today afterwards. */
  function GenerateDailyInvoices(st: Store, today: Day): (r: Store)
    requires Valid(st)
    ensures Valid(r)
    ensures Extends(st, r)
    ensures AddedOnlyBilled(st, r, today)
    ensures AddedDistinct(st, r)
    ensures forall sid :: sid in r.subs && Billable(r.subs[sid], today) ==> InvoicedOn(r.invoices, sid, today)
    ensures UniqueOn(st.invoices, today) ==> UniqueOn(r.invoices, today)
  {
    var r := GenerateUpTo(st, today, st.nextSub);
    AddedKeepsUnique(st, r, today);
    r
  }

  /** Once every key below `n` that is billable has today's invoice, the
      loop changes nothing. */
  lemma {:induction false} GenerateUpToSettled(st: Store, today: Day, n: nat)
    requires Valid(st)
    requires BilledBelow(st, today, n)
    ensures GenerateUpTo(st, today, n) == st
  {
    if n > 0 {
      GenerateUpToSettled(st, today, n - 1);
      assert n - 1 in st.subs && Billable(st.subs[n - 1], today) ==> InvoicedOn(st.invoices, n - 1, today);
    }
  }

  /** Running the generation job twice on one day leaves the same store as
      running it once. */
  lemma GenerateIdempotent(st: Store, today: Day)
    requires Valid(st)
    ensures GenerateDailyInvoices(GenerateDailyInvoices(st, today), today) == GenerateDailyInvoices(st, today)
  {
    var r := GenerateDailyInvoices(st, today);
    GenerateUpToSettled(r, today, r.nextSub);
  }

  /** The invoice invariant the duplicate check maintains: at most one
      invoice per subscription and issue date. */
  ghost predicate OneInvoicePerDay(invoices: map<Id, Invoice>) {
    forall k1, k2 ::
      k1 in invoices && k2 in invoices
      && invoices[k1].subscription == invoices[k2].subscription
      && invoices[k1].issue == invoices[k2].issue
      ==> k1 == k2
  }

  /** Generation keeps at most one invoice per subscription and issue date:
      today's by the duplicate check, every other day's because it only
      adds invoices issued today. */
  lemma GenerateKeepsOnePerDay(st: Store, today: Day)
    requires Valid(st)
    ensures OneInvoicePerDay(st.invoices) ==> OneInvoicePerDay(GenerateDailyInvoices(st, today).invoices)
  {
    var r := GenerateDailyInvoices(st, today);
    if OneInvoicePerDay(st.invoices) {
      assert UniqueOn(st.invoices, today);
      forall k1, k2 |
        k1 in r.invoices && k2 in r.invoices
        && r.invoices[k1].subscription == r.invoices[k2].subscription
        && r.invoices[k1].issue == r.invoices[k2].issue
        ensures k1 == k2
      {
        if r.invoices[k1].issue != today {
          assert k1 in st.invoices && k2 in st.invoices;
        }
      }
    }
  }

  // ------------------------------------------------------ overdue marking

  /** Pending and past its due date. */
  predicate OverdueEligible(inv: Invoice, today: Day) {
    inv.status == Pending && inv.due < today
  }

  /** Pending and due today or later. */
  predicate ReminderEligible(inv: Invoice, today: Day) {
    inv.status == Pending && inv.due >= today
  }

  function PendingIds(invoices: map<Id, Invoice>): set<Id> {
    set k | k in invoices && invoices[k].status == Pending
  }

  function OverdueIds(invoices: map<Id, Invoice>, today: Day): set<Id> {
    set k | k in invoices && OverdueEligible(invoices[k], today)
  }

  function ReminderIds(invoices: map<Id, Invoice>, today: Day): set<Id> {
    set k | k in invoices && ReminderEligible(invoices[k], today)
  }

  /** The keys whose record differs between two tables. */
  function ChangedIds(before: map<Id, Invoice>, after: map<Id, Invoice>): set<Id> {
    set k | k in before && k in after && before[k] != after[k]
  }

  /** A job's summary count together with the store it leaves. */
  datatype JobResult = JobResult(count: nat, store: Store)

  lemma OverdueChangesExactlyHit(before: map<Id, Invoice>, after: map<Id, Invoice>, hit: set<Id>)
    requires after.Keys == before.Keys
    requires forall k :: k in hit ==> k in before && before[k].status == Pending
    requires forall k :: k in before ==> after[k] == if k in hit then before[k].(status := Overdue) else before[k]
    ensures ChangedIds(before, after) == hit
  {
    forall k | k in hit ensures k in ChangedIds(before, after) {
      assert after[k].status != before[k].status;
    }
    forall k | k in ChangedIds(before, after) ensures k in hit {
    }
  }

  /** The overdue job: every pending invoice past its due date becomes
      overdue, nothing else changes, and the count it reports is the number
      of records it changed. */
  function MarkOverdueInvoices(st: Store, today: Day): (r: JobResult)
    ensures r.store == st.(invoices := r.store.invoices)
    ensures r.store.invoices.Keys == st.invoices.Keys
    ensures forall k :: k in st.invoices ==> r.store.invoices[k] == st.invoices[k].(status := r.store.invoices[k].status)
    ensures forall k :: k in st.invoices && OverdueEligible(st.invoices[k], today) ==> r.store.invoices[k].status == Overdue
    ensures forall k :: k in st.invoices && !OverdueEligible(st.invoices[k], today) ==> r.store.invoices[k] == st.invoices[k]
    ensures r.count == |ChangedIds(st.invoices, r.store.invoices)|
  {
    var hit := OverdueIds(st.invoices, today);
    var invoices := map k | k in st.invoices :: if k in hit then st.invoices[k].(status := Overdue) else st.invoices[k];
    OverdueChangesExactlyHit(st.invoices, invoices, hit);
    JobResult(|hit|, st.(invoices := invoices))
  }

  /** A second overdue run on the same day reports nothing and changes nothing. */
  lemma MarkOverdueIdempotent(st: Store, today: Day)
    ensures var once := MarkOverdueInvoices(st, today);
      var twice := MarkOverdueInvoices(once.store, today);
      twice.count == 0 && twice.store == once.store
  {
    var once := MarkOverdueInvoices(st, today);
    var twice := MarkOverdueInvoices(once.store, today);
    assert OverdueIds(once.store.invoices, today) == {};
    assert twice.store.invoices == once.store.invoices;
  }

  /** On any day the pending invoices split into those the overdue job
      takes and those the reminder job counts. */
  lemma PendingPartition(invoices: map<Id, Invoice>, today: Day)
    ensures OverdueIds(invoices, today) * ReminderIds(invoices, today) == {}
    ensures OverdueIds(invoices, today) + ReminderIds(invoices, today) == PendingIds(invoices)
    ensures |OverdueIds(invoices, today)| + |ReminderIds(invoices, today)| == |PendingIds(invoices)|
  {
    var o, m := OverdueIds(invoices, today), ReminderIds(invoices, today);
    forall k | k in o ensures k !in m {
    }
    assert o * m == {};
    forall k | k in PendingIds(invoices) ensures k in o + m {
      if invoices[k].due < today {
        assert k in o;
      } else {
        assert k in m;
      }
    }
    forall k | k in o + m ensures k in PendingIds(invoices) {
      assert invoices[k].status == Pending;
    }
    assert o + m == PendingIds(invoices);
  }

  // ------------------------------------------------------------ reminders

  /** The reminder job: it counts the pending invoices not yet past due and
      changes nothing. Together with the overdue job's count on the same
      day it accounts for every pending invoice, and the overdue job leaves
      exactly these pending. */
  function SendPendingReminders(st: Store, today: Day): (count: nat)
    ensures count + MarkOverdueInvoices(st, today).count == |PendingIds(st.invoices)|
    ensures count == |ReminderIds(st.invoices, today)|
    ensures count == |PendingIds(MarkOverdueInvoices(st, today).store.invoices)|
  {
    var due := set k | k in st.invoices && ReminderEligible(st.invoices[k], today);
    PendingPartition(st.invoices, today);
    var after := MarkOverdueInvoices(st, today).store.invoices;
    assert PendingIds(after) == due;
    |due|
  }

  /** Marking overdue invoices does not change what the reminder job counts. */
  lemma MarkOverdueKeepsReminders(st: Store, today: Day)
    ensures SendPendingReminders(MarkOverdueInvoices(st, today).store, today) == SendPendingReminders(st, today)
  {
    var after := MarkOverdueInvoices(st, today).store.invoices;
    forall k | k in ReminderIds(st.invoices, today) ensures k in ReminderIds(after, today) {
      assert after[k] == st.invoices[k];
    }
    forall k | k in ReminderIds(after, today) ensures k in ReminderIds(st.invoices, today) {
      if !OverdueEligible(st.invoices[k], today) {
        assert after[k] == st.invoices[k];
      }
    }
    assert ReminderIds(after, today) == ReminderIds(st.invoices, today);
  }

  // ------------------------------------------------------------- examples

  /** A basic plan at 100.00 and a subscription starting on day 100: the
      job bills it once, for 100.00 due on day 107, and a second run adds
      nothing. */
  lemma GenerationExample()
    ensures var plans := map[1 := Plan(Basic, 10000, None)];
      var st := Store(plans, map[1 := Subscription(7, 1, 100, 130, Active)], map[], 2, 1);
      var r := GenerateDailyInvoices(st, 100);
      && r.invoices == map[1 := Invoice(7, Some(1), 1, 10000, 100, 107, Pending)]
      && GenerateDailyInvoices(r, 100) == r
  {
    var plans := map[1 := Plan(Basic, 10000, None)];
    var st := Store(plans, map[1 := Subscription(7, 1, 100, 130, Active)], map[], 2, 1);
    assert Valid(st);
    var r := GenerateDailyInvoices(st, 100);
    assert GenerateUpTo(st, 100, 1) == st;
    assert !InvoicedOn(st.invoices, 1, 100);
    GenerateIdempotent(st, 100);
  }

  /** A pending invoice that fell due yesterday is marked overdue and
      counted once; it no longer draws a reminder. */
  lemma OverdueExample()
    ensures var inv := Invoice(7, Some(1), 1, 10000, 90, 99, Pending);
      var st := Store(map[], map[], map[5 := inv], 1, 6);
      var r := MarkOverdueInvoices(st, 100);
      && r.count == 1
      && r.store.invoices == map[5 := inv.(status := Overdue)]
      && SendPendingReminders(r.store, 100) == 0
  {
    var inv := Invoice(7, Some(1), 1, 10000, 90, 99, Pending);
    var st := Store(map[], map[], map[5 := inv], 1, 6);
    assert OverdueIds(st.invoices, 100) == {5};
    var r := MarkOverdueInvoices(st, 100);
    assert r.store.invoices == map[5 := inv.(status := Overdue)];
    assert (set k | k in r.store.invoices && ReminderEligible(r.store.invoices[k], 100)) == {};
  }
}
