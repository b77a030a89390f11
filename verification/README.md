# Subscription and invoice lifecycle of the billing backend, in Dafny

This project models the decision logic of a small subscription-billing
service: a catalogue of plans, user subscriptions to them, and the invoices
billed against subscriptions. The records live in an abstract store of
three tables. Every operation is a pure function of the store, the
requester and, for the scheduled jobs, the current day.

- `models.dfy` (`Models`): the records and their status enumerations with
  their stored codes and defaults. Also the store, its referential
  integrity (`Valid`), and the one-active-subscription-per-user invariant.
  Days are day numbers. Money is an integer count of hundredths: the
  columns are `DecimalField(max_digits=10, decimal_places=2)`, so every
  amount is below 10^10 in size.
- `permissions.dfy` (`Permissions`): the staff-only and owner-or-staff
  permission classes, and the plan endpoint's policy in both variants of
  the application.
- `tasks.dfy` (`Tasks`): the three scheduled jobs. These are daily invoice
  generation with its duplicate check, the bulk pending→overdue update,
  and the reminder count.
- `subscription_views.dfy` (`SubscriptionViews`): the subscription list
  query, creation guarded by "already has an active subscription", and
  the two cancellation routes.
- `invoice_views.dfy` (`InvoiceViews`): the invoice list query and the
  mock `pay` action of the second variant.
- `payments.dfy` (`Payments`): the pre-checks of payment-intent creation,
  the conversion of an amount to minor units, and the payment-success
  confirmation.
- `lifecycle.dfy` (`Lifecycle`): the modelled operations as steps on one
  store, and properties of arbitrary runs of them. The operations come
  from both variants: the mock `pay` action only from the second, payment
  confirmation and intent creation only from the first. No deployment
  offers all of them, but the properties range over every sequence, so
  they hold for each variant's own operations.

A requester is `(id, isStaff)`. Anonymous callers only matter for the plan
policy, where the caller is `Option<Requester>`. The `status` query
parameter is a string, and the empty string stands for "absent". A
non-empty value keeps only the records whose stored status code equals it
exactly. Detail lookups (cancel, pay) go through the same list queryset.
So a status parameter narrows them too, and a non-staff requester can
never reach another user's record.

Replies are abstract (`Responses.Reply`). A lookup that misses yields
`NotFound`. In the source this is the framework's not-found exception.
Every view's catch-all handler turns that exception into a 500, not a 404.
The unsubscribe action's dedicated "Subscription not found." branch is
never reached, because the lookup raises the framework's exception and
not `Subscription.DoesNotExist`.

The second variant's plan test `test_normal_user_can_access_plans`
(billingapi/billingapp/tests.py:93-98) expects a signed-in non-staff user to
read the plan list, while that variant's plan viewset admits staff only
(billingapi/billingapp/views.py:47). `Permissions.PlanPoliciesCompared`
states exactly this difference: the test's expectation matches the first
variant's policy, not the second's.

The one-active-subscription rule is enforced only when a subscription is
created (billingapp/views.py:97-111). The subscription serializer leaves
`status` writable (billingapp/serializers.py:54-66), and the generic
update route saves it without that check. So an owner with an active
subscription can set a cancelled one back to active and hold two, in a
purely sequential use of the service. `Lifecycle.Run` and
`Lifecycle.SingleActiveFromEmpty` therefore state the rule over the
modelled operations only, which leave the generic update route out.

## Model

| member | source | states |
|---|---|---|
| `Models.ParsePlanName` | billingapp/models.py:15-21 | A plan name is one of basic, pro or enterprise; a string parses to a name exactly when it is that name's stored code |
| `Models.ParseSubStatus` | billingapp/models.py:31-35 | Subscription status is one of active, cancelled, expired; a string parses exactly when it is one of the stored codes |
| `Models.ParseInvoiceStatus` | billingapp/models.py:51-55 | Invoice status is one of pending, paid, overdue; a string parses exactly when it is one of the stored codes |
| `Models.CodesRoundTrip` | billingapp/models.py:15-55 | Every choice's stored code parses back to that choice, so the codes are distinct |
| `Models.EmptyStore` | billingapp/models.py:36-63 | A store holding only a valid plan catalogue satisfies the integrity rules: keys from the counters, foreign keys resolve, amounts fit ten digits, plan names unique |
| `Permissions.IsAdminUser` | billingapp/permissions.py:11-12 | Access is granted if and only if the caller is signed in and is staff |
| `Permissions.IsOwnerOrAdmin` | billingapp/permissions.py:20-21 | Access to a record is granted to its owner and to every staff user, and refused to a non-staff user for every record of another user; together these decide every case |
| `Permissions.AdminImpliesOwnerOrAdmin` | billingapp/permissions.py:11-21 | Whenever the staff-only class grants access, the owner-or-staff class grants it for every record |
| `Permissions.PlanAccess` | billingapp/views.py:61-64 | First variant: GET, HEAD and OPTIONS pass the permission check for any signed-in user, every other method only for staff |
| `Permissions.PlanAccessStaffOnly` | billingapi/billingapp/views.py:45-48 | Second variant: every method, reads included, passes the permission check only for staff |
| `Permissions.PlanPoliciesCompared` | billingapi/billingapp/views.py:39-48 | The staff-only policy is stricter than the first variant's: it agrees on writes, and it refuses signed-in non-staff reads that the first variant allows |
| `Tasks.BillOne` | billingapp/tasks.py:26-44 | One loop iteration keeps the store valid and only adds invoices. An invoice is added only for an active subscription starting today that has no invoice issued today. Afterwards such a subscription has one |
| `Tasks.GenerateUpTo` | billingapp/tasks.py:24-44 | The loop over subscription keys keeps everything that existed. Every invoice it adds bills a billable subscription that had none issued today. No two added invoices share a subscription. Every billable key visited ends with an invoice issued today |
| `Tasks.GenerateDailyInvoices` | billingapp/tasks.py:14-44 | Generation only adds invoices: subscriptions, plans and existing invoices stay unchanged. Each added invoice copies the subscription's user and plan, charges the plan price, is issued today, falls due today + 7 and is pending. Only active subscriptions starting today get one, and every such subscription has one afterwards. No subscription gets a second invoice for today |
| `Tasks.AddedKeepsUnique` | billingapp/tasks.py:27-33 | If each subscription had at most one invoice issued today before generation, that still holds afterwards |
| `Tasks.GenerateUpToSettled` | billingapp/tasks.py:26-33 | Once every billable subscription has today's invoice, the loop leaves the store unchanged |
| `Tasks.GenerateIdempotent` | billingapp/tasks.py:20-33 | Running generation twice on one day leaves the same store as running it once |
| `Tasks.MarkOverdueInvoices` | billingapp/tasks.py:47-58 | Every pending invoice past its due date becomes overdue. Paid and overdue invoices, and pending ones not yet due, stay unchanged. Only the status field changes. The reported count equals the number of records changed |
| `Tasks.MarkOverdueIdempotent` | billingapp/tasks.py:55-57 | A second overdue run on the same day reports 0 and changes nothing |
| `Tasks.PendingPartition` | billingapp/tasks.py:56-71 | On any day, the overdue-eligible and reminder-eligible invoices are disjoint. Together they are exactly the pending invoices, so their counts add up to the pending count |
| `Tasks.SendPendingReminders` | billingapp/tasks.py:61-79 | The reminder count is the number of pending invoices not yet past due. Plus the overdue job's count on the same day, it is the number of pending invoices. It also equals the number still pending after the overdue job. The job changes nothing |
| `Tasks.GenerationExample` | billingapp/tasks.py:23-44 | A basic plan at 100.00 with a subscription starting today yields one invoice of 100.00, issued today, due in seven days, pending. A second run adds nothing |
| `Tasks.OverdueExample` | billingapp/tasks.py:55-79 | A pending invoice due yesterday becomes overdue with a count of 1, and then draws no reminder |
| `Tasks.MarkOverdueKeepsReminders` | billingapp/tasks.py:55-79 | Marking overdue invoices does not change the reminder count for the same day |
| `SubscriptionViews.ListSubscriptions` | billingapp/views.py:77-95 | A subscription is listed if and only if the requester owns it or is staff, and a non-empty status parameter names its status. Staff without a filter see all. A filter naming no status yields nothing |
| `SubscriptionViews.CreateSubscription` | billingapp/views.py:97-111 | An unknown plan is rejected. A requester who owns an active subscription is rejected with "You already have an active subscription." and nothing changes. Otherwise exactly one subscription is added under a fresh key, owned by the requester, with status defaulting to active. The store stays valid and at most one active subscription per user is kept |
| `SubscriptionViews.DestroySubscription` | billingapp/views.py:116-136 | An invisible record is not found. An already-cancelled one is refused with "Subscription already cancelled." and nothing changes. Otherwise that one subscription, active or expired, becomes cancelled and nothing else changes. Only the owner or staff can cause a change, and the object-level permission refusal is never reached behind the queryset |
| `SubscriptionViews.Unsubscribe` | billingapp/views.py:138-166 | The unsubscribe action succeeds exactly when the record is visible and not cancelled, with its own success message. Keys are kept, a refusal changes nothing, and the object-level permission refusal is never reached |
| `SubscriptionViews.UnsubscribeMatchesDestroy` | billingapi/billingapp/views.py:100-150 | For every input, unsubscribe leaves the same store as the DELETE route. It gives the same reply except for the success wording |
| `SubscriptionViews.DestroyTwice` | billingapp/views.py:120-126 | Cancelling twice leaves the store of cancelling once. Without a status filter the second attempt is refused as already cancelled |
| `InvoiceViews.ListInvoices` | billingapi/billingapp/views.py:164-181 | An invoice is listed if and only if the requester owns it or is staff, and a non-empty status parameter names its status. Staff without a filter see all |
| `InvoiceViews.PayInvoice` | billingapi/billingapp/views.py:183-221 | Paying a paid invoice is refused with "Invoice already paid." and leaves the store unchanged. Paying a visible pending or overdue invoice makes it paid, and no other field or record changes. An invisible invoice is not found |
| `InvoiceViews.PayTwice` | billingapi/billingapp/views.py:190-202 | Paying twice leaves the store of paying once. Without a status filter the second attempt reports already paid |
| `Payments.TruncDiv` | billingapp/views.py:220 | Integer conversion truncates toward zero: the quotient times the divisor lies within one divisor of the dividend, on the dividend's side of zero |
| `Payments.MinorUnitsExact` | billingapp/views.py:220 | With at most two decimal places, `int(amount * 100)` is the coefficient scaled to hundredths exactly |
| `Payments.MinorUnitsOfAmount` | billingapp/views.py:220 | The gateway amount of a two-place invoice amount is its value in hundredths |
| `Payments.ConfirmPayment` | billingapp/views.py:248-278 | A missing invoice id is rejected. A paid or absent invoice is not found, and nothing changes. Otherwise a pending or overdue invoice becomes paid, and only its status changes. No requester is consulted |
| `Payments.ConfirmMatchesPay` | billingapp/views.py:256-266 | For an invoice its requester can see, confirming payment leaves the same store as the mock pay action, and both accept exactly the unpaid invoices |
| `Payments.CreatePaymentIntent` | billingapp/views.py:199-233 | The checks run in order: a missing API key first, then a missing invoice id, then a paid or absent invoice. The store is never changed. An intent is requested exactly when the key is set and the invoice could be confirmed. It is requested in INR for the invoice amount in hundredths, below 10^10 |
| `Lifecycle.Apply` | billingapp/models.py:15-63 | Every modelled operation keeps the store's integrity: plan names unique, prices and amounts below 10^10 hundredths, foreign keys resolving. It also keeps each user to at most one active subscription |
| `Lifecycle.StepFollowsStateMachine` | billingapp/tasks.py:47-58 | Every operation keeps every invoice. It either leaves an invoice unchanged, or changes only its status: pending to overdue by the overdue job once past due, or pending or overdue to paid by a payment |
| `Lifecycle.Run` | billingapi/billingapp/views.py:85-95 | Any sequence of modelled operations keeps the store valid and keeps at most one active subscription per user |
| `Lifecycle.InvoicesOnlyAdvance` | billingapp/models.py:51-63 | Across any run, an invoice keeps its key and every field but its status. Its status never moves back along pending, overdue, paid |
| `Lifecycle.PaidIsTerminal` | billingapi/billingapp/views.py:192-202 | Across any run of the modelled operations a paid invoice stays exactly as it is |
| `Lifecycle.StepKeepsSubscriptions` | billingapi/billingapp/views.py:104-116 | No operation removes a subscription or changes anything but its status. The only change an operation makes is to cancelled, and a cancelled subscription is left alone |
| `Lifecycle.CancelledIsTerminal` | billingapp/views.py:122-129 | Across any run a cancelled subscription stays exactly as it is |
| `Lifecycle.SingleActiveFromEmpty` | billingapi/billingapp/views.py:85-95 | Starting from a store with only plans, every sequential run keeps each user to at most one active subscription |
| `Tasks.GenerateKeepsOnePerDay` | billingapp/tasks.py:23-44 | If every subscription had at most one invoice per issue date, that still holds after generation: for today by the duplicate check, and for every other day because the job only adds invoices issued today |
| `Lifecycle.StepKeepsOneInvoicePerDay` | billingapp/tasks.py:26-33 | No modelled operation gives a subscription a second invoice for the same issue date |
| `Lifecycle.RunKeepsOneInvoicePerDay` | billingapp/tasks.py:26-33 | At most one invoice per subscription and issue date holds across any sequential run that starts with it |
| `Lifecycle.GeneratedExactlyOnce` | billingapp/tasks.py:17-44 | Starting from a store with only plans, after any run followed by the generation job, every subscription billable that day has exactly one invoice issued that day, however often the job ran before |

## Left out

- Payment-gateway calls and environment reads: the intent's creation at the gateway, its client secret and id, and the gateway-error handler. The secret key is a parameter, and intent creation ends with the request it would send.
- The payment page template render: it is presentation only.
- The ORM, migrations, and the `created_at`/`updated_at` timestamps: the store is three maps with id counters, and "today" is a parameter.
- Users and authentication: token views, registration and the user endpoint. A requester is an id and a staff flag. Subscription and invoice views are only reached by signed-in users.
- Concurrency: the check-then-act races in create, in generation's duplicate check, and in the paid check. The invariants are claimed for sequential execution of the modelled operations only. Races are one way they break; the generic update route below is another.
- Printed reminder lines and the mock-payment print: only the counts are kept.
- The framework's generic create/update/delete routes: plan and user CRUD, invoice create/update/delete, and subscription retrieve/update. "Paid is terminal" and "cancelled is terminal" hold for the modelled operations only, not for an arbitrary update, and so does at most one active subscription per user (`Lifecycle.Run`, `Lifecycle.SingleActiveFromEmpty`): an update of `status` skips the create guard. Nor does at most one invoice per subscription and issue date (`Lifecycle.RunKeepsOneInvoicePerDay`, `Lifecycle.GeneratedExactlyOnce`): no database constraint backs it, and the generic invoice create can add a second one.
- Exact HTTP status codes and exception texts: outcomes are abstract replies.
- Serializer validation beyond two points: the plan must exist, and an absent status takes the default. `Responses.UnknownPlanMsg` stands in for the framework's message. Date parsing and field presence are assumed already validated.
- The `DatabaseError` handler of create: storage failures are not modelled.
- The order of the generation loop: it is unspecified in the source, and the model visits subscription keys in ascending order. Only the keys given to new invoices depend on it.
- A non-numeric `invoice_id` in a payment request body: the field is modelled as an optional integer, and a numeric zero counts as missing because the source tests the field for falsiness. A string "0", as a form-encoded body carries it, is truthy and reaches the lookup, which misses; the model does not distinguish it.
- `Permissions.PlanAccess`: models the permission check only. The plan viewset's `http_method_names` (billingapp/views.py:59) leaves out HEAD and OPTIONS, so those methods pass the check and are then refused as not allowed.
- `Permissions.PlanAccessStaffOnly`: models the permission check only. The second variant's plan viewset (billingapi/billingapp/views.py:48) refuses HEAD and OPTIONS in the same way after the check.
- `SubscriptionViews.Unsubscribe`: its contract is weaker than `DestroySubscription`'s. The rest follows through `SubscriptionViews.UnsubscribeMatchesDestroy`.
