/** The payment-gateway views: the pre-checks of payment-intent creation
    with the conversion of an invoice amount to the gateway's minor units,
    and the payment-success confirmation. The gateway call itself is not
    modelled: intent creation ends with the request it would send. */
module Payments {
  import opened Models
  import opened Responses
  import InvoiceViews
  import Permissions

  // ------------------------------------------------- minor-unit conversion

  /** A decimal number `coefficient * 10^-places`. */
  datatype Decimal = Decimal(coefficient: int, places: nat)

  function Pow10(n: nat): (r: nat)
    ensures r >= 1
  {
    if n == 0 then 1 else 10 * Pow10(n - 1)
  }

  /** Floor division of a natural number: quotient and remainder bounds. */
  lemma DivBounds(a: nat, b: nat)
    requires b > 0
    ensures 0 <= (a / b) * b <= a < (a / b) * b + b
  {
    var q, m := a / b, a % b;
    assert a == q * b + m && 0 <= m < b;
    assert q >= 0;
    assert q * b >= 0;
  }

  /** Integer conversion of a quotient, truncating toward zero (Dafny's own
      `/` rounds toward negative infinity for a positive divisor). */
  function TruncDiv(a: int, b: nat): (q: int)
    requires b > 0
    ensures 0 <= a ==> 0 <= q * b <= a < q * b + b
    ensures a < 0 ==> q * b - b < a <= q * b <= 0
  {
    if a >= 0 then
      DivBounds(a, b);
      a / b
    else
      DivBounds(-a, b);
      var q := (-a) / b;
      assert (-q) * b == -(q * b);
      -q
  }

  /** `int(d * 100)`: the amount in hundredths, truncated toward zero. */
  function ToMinorUnits(d: Decimal): int {
    TruncDiv(d.coefficient * 100, Pow10(d.places))
  }

  /** An amount column as read back: a decimal with two places. */
  function AmountDecimal(amount: Cents): Decimal {
    Decimal(amount, 2)
  }

  lemma MulDivCancel(x: nat, b: nat)
    requires b > 0
    ensures x * b / b == x
  {
    var a := x * b;
    var q, m := a / b, a % b;
    assert a == q * b + m && 0 <= m < b;
    var d := x - q;
    assert d * b == m;
  }

  lemma TruncDivExact(x: int, b: nat)
    requires b > 0
    ensures TruncDiv(x * b, b) == x
  {
    if x >= 0 {
      MulDivCancel(x, b);
    } else {
      assert -(x * b) == (-x) * b;
      MulDivCancel(-x, b);
    }
  }

  /** With at most two decimal places nothing is truncated: the conversion
      scales the coefficient to hundredths exactly. */
  lemma MinorUnitsExact(c: int, places: nat)
    requires places <= 2
    ensures ToMinorUnits(Decimal(c, places)) == c * Pow10(2 - places)
  {
    var b := Pow10(places);
    var s := Pow10(2 - places);
    assert b * s == 100 by {
      if places == 0 {
      } else if places == 1 {
      } else {
      }
    }
    assert c * 100 == (c * s) * b;
    TruncDivExact(c * s, b);
  }

  /** The gateway amount of an invoice is its value in hundredths. */
  lemma MinorUnitsOfAmount(amount: Cents)
    ensures ToMinorUnits(AmountDecimal(amount)) == amount
  {
    MinorUnitsExact(amount, 2);
  }

  // -------------------------------------------------------------- lookups

  /** The `invoice_id` field of the request body, as a number: None when
      absent. A numeric zero is falsy and counts as missing, like an absent
      field. */
  predicate IdMissing(invoiceId: Option<int>) {
    invoiceId.None? || invoiceId.value == 0
  }

  /** The lookup both views make: the invoice with key `id` among the
      invoices that are not paid. */
  predicate Payable(st: Store, id: Id) {
    id in st.invoices && st.invoices[id].status != Paid
  }

  // ---------------------------------------------------------- confirmation

  /** The payment-success view. It trusts the caller: no requester and no
      gateway state take part. A missing id is a validation error, a paid
      or absent invoice is not found, and otherwise exactly that invoice's
      status becomes paid. */
  function ConfirmPayment(st: Store, invoiceId: Option<int>): (r: Response)
    ensures r.store == st.(invoices := r.store.invoices)
    ensures r.store.invoices.Keys == st.invoices.Keys
    ensures IdMissing(invoiceId) ==> r == Response(BadRequest(InvoiceIdRequiredMsg), st)
    ensures !IdMissing(invoiceId) && !Payable(st, invoiceId.value) ==> r == Response(NotFound, st)
    ensures r.reply.MarkedPaid? <==> !IdMissing(invoiceId) && Payable(st, invoiceId.value)
    ensures r.reply.MarkedPaid? ==>
      && r.reply.invoice == invoiceId.value
      && r.store.invoices[invoiceId.value] == st.invoices[invoiceId.value].(status := Paid)
      && forall k :: k in st.invoices && k != invoiceId.value ==> r.store.invoices[k] == st.invoices[k]
    ensures Valid(st) ==> Valid(r.store)
  {
    if IdMissing(invoiceId) then
      Response(BadRequest(InvoiceIdRequiredMsg), st)
    else if !Payable(st, invoiceId.value) then
      Response(NotFound, st)
    else
      Response(MarkedPaid(invoiceId.value), InvoiceViews.SettleInvoice(st, invoiceId.value))
  }

  /** For an invoice its requester can see, confirming payment leaves the
      same store as the mock pay action, and both accept exactly the
      pending and overdue invoices. */
  lemma ConfirmMatchesPay(st: Store, req: Permissions.Requester, id: Id)
    requires id != 0
    requires id in InvoiceViews.ListInvoices(st, req, "")
    ensures ConfirmPayment(st, Some(id)).store == InvoiceViews.PayInvoice(st, req, id, "").store
    ensures ConfirmPayment(st, Some(id)).reply.MarkedPaid? <==> InvoiceViews.PayInvoice(st, req, id, "").reply.Ok?
  {
  }

  // ------------------------------------------------------- payment intents

  const Currency := "inr"

  /** What the view asks the gateway for. */
  datatype IntentRequest = IntentRequest(amountMinor: int, currency: string, invoice: Id)

  datatype IntentReply = IntentReady(request: IntentRequest) | IntentRefused(reply: Reply)

  /** Payment-intent creation up to the gateway call. The checks run in
      order: a missing secret key (an exception the catch-all turns into a
      500), a missing invoice id, then a paid or absent invoice. The store is
      only read. On success the gateway is asked for the invoice amount in
      minor units, which is the amount in hundredths. */
  function CreatePaymentIntent(st: Store, apiKey: string, invoiceId: Option<int>): (r: IntentReply)
    requires Valid(st)
    ensures apiKey == "" ==> r == IntentRefused(ServerError(MissingApiKeyMsg))
    ensures apiKey != "" && IdMissing(invoiceId) ==> r == IntentRefused(BadRequest(InvoiceIdRequiredMsg))
    ensures apiKey != "" && !IdMissing(invoiceId) && !Payable(st, invoiceId.value) ==> r == IntentRefused(NotFound)
    ensures r.IntentReady? <==> apiKey != "" && ConfirmPayment(st, invoiceId).reply.MarkedPaid?
    ensures r.IntentReady? ==>
      && r.request.invoice == invoiceId.value
      && r.request.currency == Currency
      && r.request.amountMinor == st.invoices[invoiceId.value].amount
      && InMoneyRange(r.request.amountMinor)
  {
    if apiKey == "" then
      IntentRefused(ServerError(MissingApiKeyMsg))
    else if IdMissing(invoiceId) then
      IntentRefused(BadRequest(InvoiceIdRequiredMsg))
    else if !Payable(st, invoiceId.value) then
      IntentRefused(NotFound)
    else
      var id := invoiceId.value;
      MinorUnitsOfAmount(st.invoices[id].amount);
      IntentReady(IntentRequest(ToMinorUnits(AmountDecimal(st.invoices[id].amount)), Currency, id))
  }
}
