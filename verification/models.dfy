/** Records of the billing store: plans, subscriptions and invoices, the
    status enumerations stored in them, and the referential integrity the
    database keeps between them.

    Dates are day numbers, money is an integer count of hundredths (the
    columns are fixed-point decimals with two places), and primary keys are
    the database's auto-incremented integers, starting at 1. */
module Models {

  datatype Option<T> = None | Some(value: T) {
    function GetOr(default: T): T {
      match this
      case Some(v) => v
      case None => default
    }
  }

  type Id = int
  type UserId = int
  type Day = int
  type Cents = int

  /** A DecimalField(max_digits=10, decimal_places=2) holds at most ten
      digits, so its value in hundredths is strictly below 10^10 in size. */
  const CentsBound: int := 10_000_000_000

  predicate InMoneyRange(x: Cents) {
    -CentsBound < x < CentsBound
  }

  // ---------------------------------------------------------------- enums

  datatype PlanName = Basic | Pro | Enterprise {
    /** The value stored in the `name` column. */
    function Code(): string {
      match this
      case Basic => "basic"
      case Pro => "pro"
      case Enterprise => "enterprise"
    }
  }

  datatype SubStatus = Active | Cancelled | Expired {
    function Code(): string {
      match this
      case Active => "active"
      case Cancelled => "cancelled"
      case Expired => "expired"
    }
  }

  datatype InvoiceStatus = Pending | Paid | Overdue {
    function Code(): string {
      match this
      case Pending => "pending"
      case Paid => "paid"
      case Overdue => "overdue"
    }
  }

  /** Column default of the subscription status field. */
  const DefaultSubStatus: SubStatus := Active

  /** The choice whose stored code is `s`, if there is one. */
  function ParsePlanName(s: string): (r: Option<PlanName>)
    ensures r.Some? ==> r.value.Code() == s
    ensures r.None? ==> forall n: PlanName :: n.Code() != s
  {
    if s == "basic" then Some(Basic)
    else if s == "pro" then Some(Pro)
    else if s == "enterprise" then Some(Enterprise)
    else None
  }

  function ParseSubStatus(s: string): (r: Option<SubStatus>)
    ensures r.Some? ==> r.value.Code() == s
    ensures r.None? ==> forall t: SubStatus :: t.Code() != s
  {
    if s == "active" then Some(Active)
    else if s == "cancelled" then Some(Cancelled)
    else if s == "expired" then Some(Expired)
    else None
  }

  function ParseInvoiceStatus(s: string): (r: Option<InvoiceStatus>)
    ensures r.Some? ==> r.value.Code() == s
    ensures r.None? ==> forall t: InvoiceStatus :: t.Code() != s
  {
    if s == "pending" then Some(Pending)
    else if s == "paid" then Some(Paid)
    else if s == "overdue" then Some(Overdue)
    else None
  }

  /** Every choice parses back from its stored code, so two choices with
      the same code are the same choice. */
  lemma CodesRoundTrip(n: PlanName, s: SubStatus, t: InvoiceStatus)
    ensures ParsePlanName(n.Code()) == Some(n)
    ensures ParseSubStatus(s.Code()) == Some(s)
    ensures ParseInvoiceStatus(t.Code()) == Some(t)
  {
  }

  /** The `status` query parameter as the list views read it: the empty
      string stands for an absent or empty parameter, which filters
      nothing; any other value keeps exactly the records whose status it
      names. */
  predicate AdmitsSub(statusParam: string, s: SubStatus) {
    statusParam == "" || ParseSubStatus(statusParam) == Some(s)
  }

  predicate AdmitsInvoice(statusParam: string, s: InvoiceStatus) {
    statusParam == "" || ParseInvoiceStatus(statusParam) == Some(s)
  }

  // -------------------------------------------------------------- records

  datatype Plan = Plan(name: PlanName, price: Cents, description: Option<string>)

  datatype Subscription = Subscription(
    user: UserId,
    plan: Id,
    start: Day,
    end: Day,
    status: SubStatus)

  /** `plan` is nullable: the reference is cleared when the plan is deleted. */
  datatype Invoice = Invoice(
    user: UserId,
    plan: Option<Id>,
    subscription: Id,
    amount: Cents,
    issue: Day,
    due: Day,
    status: InvoiceStatus)

  /** The tables, with the next key each auto-increment column hands out. */
  datatype Store = Store(
    plans: map<Id, Plan>,
    subs: map<Id, Subscription>,
    invoices: map<Id, Invoice>,
    nextSub: Id,
    nextInvoice: Id)

  // ------------------------------------------------------------ integrity

  /** Plan names are unique and prices fit the column. */
  ghost predicate PlansValid(plans: map<Id, Plan>) {
    && (forall k :: k in plans ==> InMoneyRange(plans[k].price))
    && (forall k1, k2 :: k1 in plans && k2 in plans && plans[k1].name == plans[k2].name ==> k1 == k2)
  }

  /** Keys come from the counter and the plan foreign key resolves. */
  ghost predicate SubsValid(st: Store) {
    && 1 <= st.nextSub
    && forall k :: k in st.subs ==> 1 <= k < st.nextSub && st.subs[k].plan in st.plans
  }

  /** Keys come from the counter, the subscription foreign key resolves,
      a non-null plan reference resolves, and amounts fit the column. */
  ghost predicate InvoicesValid(st: Store) {
    && 1 <= st.nextInvoice
    && forall k :: k in st.invoices ==>
         && 1 <= k < st.nextInvoice
         && st.invoices[k].subscription in st.subs
         && (st.invoices[k].plan.Some? ==> st.invoices[k].plan.value in st.plans)
         && InMoneyRange(st.invoices[k].amount)
  }

  ghost predicate Valid(st: Store) {
    PlansValid(st.plans) && SubsValid(st) && InvoicesValid(st)
  }

  /** A store holding a plan catalogue and nothing else. */
  function EmptyStore(plans: map<Id, Plan>): (st: Store)
    requires PlansValid(plans)
    ensures Valid(st)
    ensures st.subs == map[] && st.invoices == map[]
  {
    Store(plans, map[], map[], 1, 1)
  }

  /** The invariant the subscription views aim for: no user holds two
      active subscriptions. */
  ghost predicate AtMostOneActive(st: Store) {
    forall k1, k2 ::
      k1 in st.subs && k2 in st.subs
      && st.subs[k1].status == Active && st.subs[k2].status == Active
      && st.subs[k1].user == st.subs[k2].user
      ==> k1 == k2
  }
}
