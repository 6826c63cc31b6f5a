/** The daily statement (component/DailyStatement.js): the bookings checked in on a day,
    split into regular and unpaid invoices, the per-booking paid and due totals, the
    editable daily amounts of a form keyed by booking id, the daily income summed from
    them, and the payment update sent for one booking. Dates are day numbers. */
module DailyStatement {
  import opened JsSemantics

  /** One entry of a booking's `invoiceDetails`. */
  datatype InvoiceEntry = InvoiceEntry(date: int, totalPaid: Option<int>, dailyAmount: Option<int>)

  /** The fields of a booking the statement reads. `invoiceDetails` is `None` when it is
      missing or not an array. */
  datatype Booking = Booking(
    id: string,
    totalBill: Option<int>,
    totalPaid: Option<int>,
    dailyAmount: Option<int>,
    invoiceDetails: Option<seq<InvoiceEntry>>)

  // ---------------------------------------------------------------------------
  // getCumulativeTotals

  datatype Totals = Totals(totalPaid: int, dailyAmount: int, dueAmount: int)

  function EntryPaid(e: InvoiceEntry): int {
    OrZero(e.totalPaid)
  }

  /** `getCumulativeTotals`: what is paid and what is still due on a booking. */
  function CumulativeTotals(b: Booking): (r: Totals)
    ensures r.totalPaid + r.dueAmount == OrZero(b.totalBill)
    ensures b.invoiceDetails.None? ==> r.totalPaid == OrZero(b.totalPaid)
    ensures b.invoiceDetails.Some? ==> r.totalPaid == SumOf(b.invoiceDetails.value, EntryPaid)
    ensures r.dailyAmount == OrZero(b.dailyAmount)
  {
    if b.invoiceDetails.None? then
      Totals(OrZero(b.totalPaid), OrZero(b.dailyAmount), OrZero(b.totalBill) - OrZero(b.totalPaid))
    else
      var paid := SumOf(b.invoiceDetails.value, EntryPaid);
      Totals(paid, OrZero(b.dailyAmount), OrZero(b.totalBill) - paid)
  }

  /** Recording one more entry of payment p moves p from due to paid. */
  lemma NewEntryMovesDueToPaid(b: Booking, e: InvoiceEntry)
    requires b.invoiceDetails.Some?
    ensures var after := b.(invoiceDetails := Some(b.invoiceDetails.value + [e]));
            && CumulativeTotals(after).totalPaid == CumulativeTotals(b).totalPaid + EntryPaid(e)
            && CumulativeTotals(after).dueAmount == CumulativeTotals(b).dueAmount - EntryPaid(e)
  {
    SumOfAppend(b.invoiceDetails.value, [e], EntryPaid);
    SumOfSingleton(e, EntryPaid);
  }

  // ---------------------------------------------------------------------------
  // The entry of the selected day

  /** `invoiceDetails?.find(entry => isSameDay(entry.date, date))`. */
  function FindEntry(es: seq<InvoiceEntry>, d: int): (r: Option<InvoiceEntry>)
    ensures r.Some? ==> r.value in es && r.value.date == d
    decreases |es|
  {
    if es == [] then None
    else if es[0].date == d then Some(es[0])
    else FindEntry(es[1..], d)
  }

  /** `find` returns the first entry of the day, and nothing only when there is none. */
  lemma {:induction false} FindEntryFirst(es: seq<InvoiceEntry>, d: int)
    ensures FindEntry(es, d).None? <==> forall i :: 0 <= i < |es| ==> es[i].date != d
    ensures FindEntry(es, d).Some? ==>
              exists k :: 0 <= k < |es| && es[k] == FindEntry(es, d).value &&
                          forall i :: 0 <= i < k ==> es[i].date != d
    decreases |es|
  {
    if es != [] && es[0].date != d {
      FindEntryFirst(es[1..], d);
      if FindEntry(es[1..], d).Some? {
        var k :| 0 <= k < |es[1..]| && es[1..][k] == FindEntry(es[1..], d).value &&
                 forall i :: 0 <= i < k ==> es[1..][i].date != d;
        assert es[k + 1] == FindEntry(es, d).value;
        assert forall i :: 0 <= i < k + 1 ==> es[i].date != d by {
          forall i | 0 <= i < k + 1
            ensures es[i].date != d
          {
            if i > 0 {
              assert es[i] == es[1..][i - 1];
            }
          }
        }
      }
    } else if es != [] {
      assert es[0] == FindEntry(es, d).value;
    }
  }

  /** `dateEntry?.dailyAmount || 0`: the amount recorded for day d, or 0. */
  function DailyAmountOn(b: Booking, d: int): int {
    if b.invoiceDetails.None? then 0
    else
      var entry := FindEntry(b.invoiceDetails.value, d);
      if entry.Some? then OrZero(entry.value.dailyAmount) else 0
  }

  /** A booking with no entry dated d contributes nothing to day d. */
  lemma NoEntryNoAmount(b: Booking, d: int)
    requires b.invoiceDetails.None? || forall i :: 0 <= i < |b.invoiceDetails.value| ==> b.invoiceDetails.value[i].date != d
    ensures DailyAmountOn(b, d) == 0
  {
    if b.invoiceDetails.Some? {
      FindEntryFirst(b.invoiceDetails.value, d);
    }
  }

  /** The amount of day d, as a term of a sum over bookings. */
  function DayAmount(d: int): Booking -> int {
    b => DailyAmountOn(b, d)
  }

  // ---------------------------------------------------------------------------
  // Removing unpaid invoices that are also regular invoices

  function IdsOf(s: seq<Booking>): (r: seq<string>)
    ensures |r| == |s|
    ensures forall i :: 0 <= i < |s| ==> r[i] == s[i].id
  {
    seq(|s|, i requires 0 <= i < |s| => s[i].id)
  }

  /** No regular invoice has this id. */
  predicate NotRegular(regular: seq<Booking>, u: Booking) {
    u.id !in IdsOf(regular)
  }

  /** `unPaidInvoice.filter(invoice => !regularInvoiceIds.includes(invoice._id))`. */
  function DedupUnpaid(regular: seq<Booking>, unpaid: seq<Booking>): (r: seq<Booking>)
    ensures |r| <= |unpaid|
  {
    Filter(unpaid, u => NotRegular(regular, u))
  }

  /** An id is among the regular ids exactly when some regular invoice carries it. */
  lemma IdsOfMembership(s: seq<Booking>, id: string)
    ensures id in IdsOf(s) <==> exists b :: b in s && b.id == id
  {
    if id in IdsOf(s) {
      var i :| 0 <= i < |s| && IdsOf(s)[i] == id;
      assert s[i] in s;
    }
  }

  /** After the dedup, an unpaid invoice is kept exactly when it was listed as unpaid and
      no regular invoice has its id; in particular no kept invoice shares an id with a
      regular one. */
  lemma DedupKeeps(regular: seq<Booking>, unpaid: seq<Booking>, u: Booking)
    ensures u in DedupUnpaid(regular, unpaid) <==> u in unpaid && forall r :: r in regular ==> r.id != u.id
  {
    FilterMembership(unpaid, u => NotRegular(regular, u), u);
    IdsOfMembership(regular, u.id);
  }

  /** The unpaid invoices that remain keep their order. */
  lemma DedupKeepsOrder(regular: seq<Booking>, unpaid: seq<Booking>)
    ensures Subsequence(DedupUnpaid(regular, unpaid), unpaid)
  {
    FilterSubsequence(unpaid, u => NotRegular(regular, u));
  }

  /** With no overlap, the dedup changes nothing. */
  lemma DedupWithoutOverlap(regular: seq<Booking>, unpaid: seq<Booking>)
    requires forall i, j :: 0 <= i < |unpaid| && 0 <= j < |regular| ==> unpaid[i].id != regular[j].id
    ensures DedupUnpaid(regular, unpaid) == unpaid
  {
    forall i | 0 <= i < |unpaid|
      ensures NotRegular(regular, unpaid[i])
    {
      IdsOfMembership(regular, unpaid[i].id);
    }
    FilterAll(unpaid, u => NotRegular(regular, u));
  }

  // ---------------------------------------------------------------------------
  // The form values: a JavaScript object keyed by booking id

  /** `{ totalPaid, dailyAmount }` of one booking; an edit may clear `dailyAmount` (`null`). */
  datatype FormValue = FormValue(totalPaid: Option<int>, dailyAmount: Option<int>)

  /** One property of the form values, in insertion order. */
  datatype Field = Field(id: string, value: FormValue)

  /** `values[id]`. */
  function Lookup(values: seq<Field>, id: string): (r: Option<FormValue>)
    ensures r.None? <==> forall i :: 0 <= i < |values| ==> values[i].id != id
    decreases |values|
  {
    if values == [] then None
    else if values[0].id == id then Some(values[0].value)
    else Lookup(values[1..], id)
  }

  /** `values[id] = v`: replace the property in place, or add it at the end. */
  function Assign(values: seq<Field>, id: string, v: FormValue): (r: seq<Field>)
    decreases |values|
  {
    if values == [] then [Field(id, v)]
    else if values[0].id == id then [Field(id, v)] + values[1..]
    else [values[0]] + Assign(values[1..], id, v)
  }

  /** After an assignment the property reads back the new value and every other
      property reads as before. */
  lemma {:induction false} LookupAssign(values: seq<Field>, id: string, v: FormValue, other: string)
    ensures Lookup(Assign(values, id, v), id) == Some(v)
    ensures other != id ==> Lookup(Assign(values, id, v), other) == Lookup(values, other)
    decreases |values|
  {
    if values != [] && values[0].id != id {
      LookupAssign(values[1..], id, v, other);
      assert Assign(values, id, v)[1..] == Assign(values[1..], id, v);
    }
    if values != [] && values[0].id == id {
      assert Assign(values, id, v)[1..] == values[1..];
    }
  }

  /** `value.dailyAmount || 0` of one property. */
  function FieldAmount(f: Field): int {
    OrZero(f.value.dailyAmount)
  }

  /** `Object.values(values).reduce((sum, v) => sum + (v.dailyAmount || 0), 0)`. */
  function Income(values: seq<Field>): int {
    SumOf(values, FieldAmount)
  }

  /** `values[id]?.dailyAmount || 0`. */
  function AmountOf(values: seq<Field>, id: string): int {
    var v := Lookup(values, id);
    if v.Some? then OrZero(v.value.dailyAmount) else 0
  }

  /** Assigning a property changes the income by the new amount minus the old one. */
  lemma {:induction false} IncomeAssign(values: seq<Field>, id: string, v: FormValue)
    ensures Income(Assign(values, id, v)) == Income(values) - AmountOf(values, id) + OrZero(v.dailyAmount)
    decreases |values|
  {
    if values == [] {
      SumOfSingleton(Field(id, v), FieldAmount);
    } else {
      assert values == [values[0]] + values[1..];
      SumOfCons(values[0], values[1..], FieldAmount);
      if values[0].id == id {
        SumOfCons(Field(id, v), values[1..], FieldAmount);
      } else {
        IncomeAssign(values[1..], id, v);
        SumOfCons(values[0], Assign(values[1..], id, v), FieldAmount);
      }
    }
  }

  /** `formik.setFieldValue(`${id}.dailyAmount`, value)`: the other part of the
      property is kept; a property that did not exist is created with only the amount. */
  function SetAmount(values: seq<Field>, id: string, value: Option<int>): seq<Field> {
    var prev := Lookup(values, id);
    Assign(values, id, FormValue(if prev.Some? then prev.value.totalPaid else None, value))
  }

  // ---------------------------------------------------------------------------
  // The initial values and the daily income after a fetch

  /** What the fetch puts in the form for one booking. */
  function InitialValue(b: Booking, d: int): FormValue {
    FormValue(Some(OrZero(b.totalPaid)), Some(DailyAmountOn(b, d)))
  }

  /** The `forEach` over the listed bookings that fills `initialValues`, one assignment
      per booking in list order. */
  function InitialValues(bookings: seq<Booking>, d: int): seq<Field>
    decreases |bookings|
  {
    if bookings == [] then []
    else
      var b := bookings[|bookings| - 1];
      Assign(InitialValues(bookings[..|bookings| - 1], d), b.id, InitialValue(b, d))
  }

  /** The form holds a property for exactly the ids of the listed bookings. */
  lemma {:induction false} InitialValuesKeys(bookings: seq<Booking>, d: int, id: string)
    ensures Lookup(InitialValues(bookings, d), id).Some? <==> exists i :: 0 <= i < |bookings| && bookings[i].id == id
    decreases |bookings|
  {
    if bookings != [] {
      var n := |bookings| - 1;
      var init := bookings[..n];
      InitialValuesKeys(init, d, id);
      LookupAssign(InitialValues(init, d), bookings[n].id, InitialValue(bookings[n], d), id);
      if exists i :: 0 <= i < |bookings| && bookings[i].id == id {
        var i :| 0 <= i < |bookings| && bookings[i].id == id;
        if i < n {
          assert init[i].id == id;
        }
      }
      if exists i :: 0 <= i < |init| && init[i].id == id {
        var i :| 0 <= i < |init| && init[i].id == id;
        assert bookings[i].id == id;
      }
    }
  }

  /** No two listed bookings share an id. */
  predicate IdsDistinct(bookings: seq<Booking>) {
    forall i, j :: 0 <= i < j < |bookings| ==> bookings[i].id != bookings[j].id
  }

  /** With distinct ids, the income computed after a fetch is the sum, over all listed
      bookings, of the amount recorded for the selected day. */
  lemma {:induction false} InitialIncome(bookings: seq<Booking>, d: int)
    requires IdsDistinct(bookings)
    ensures Income(InitialValues(bookings, d)) == SumOf(bookings, DayAmount(d))
    decreases |bookings|
  {
    if bookings != [] {
      var n := |bookings| - 1;
      var init := bookings[..n];
      var b := bookings[n];
      assert IdsDistinct(init);
      InitialIncome(init, d);
      InitialValuesKeys(init, d, b.id);
      IncomeAssign(InitialValues(init, d), b.id, InitialValue(b, d));
    }
  }

  /** The loop of `fetchBookingsByDate` that fills `initialValues`. */
  method BuildInitialValues(bookings: seq<Booking>, d: int) returns (values: seq<Field>)
    ensures values == InitialValues(bookings, d)
  {
    values := [];
    var i := 0;
    while i < |bookings|
      invariant 0 <= i <= |bookings|
      invariant values == InitialValues(bookings[..i], d)
    {
      var b := bookings[i];
      assert bookings[..i + 1][..i] == bookings[..i];
      values := Assign(values, b.id, InitialValue(b, d));
      i := i + 1;
    }
    assert bookings[..i] == bookings;
  }

  // ---------------------------------------------------------------------------
  // regularTotals and unpaidTotals

  datatype SectionTotals = SectionTotals(totalBill: int, totalPaid: int, dailyAmount: int, dueAmount: int)

  /** The reduce over one section: per booking, the bill, the cumulative paid and due and
      the amount of the selected day are added to the accumulator. */
  function SectionSum(bookings: seq<Booking>, d: int): (r: SectionTotals)
    ensures r.totalPaid + r.dueAmount == r.totalBill
    decreases |bookings|
  {
    if bookings == [] then SectionTotals(0, 0, 0, 0)
    else
      var acc := SectionSum(bookings[..|bookings| - 1], d);
      var b := bookings[|bookings| - 1];
      var totals := CumulativeTotals(b);
      SectionTotals(
        acc.totalBill + OrZero(b.totalBill),
        acc.totalPaid + totals.totalPaid,
        acc.dailyAmount + DailyAmountOn(b, d),
        acc.dueAmount + totals.dueAmount)
  }

  function BillOf(b: Booking): int {
    OrZero(b.totalBill)
  }

  function CumulativePaid(b: Booking): int {
    CumulativeTotals(b).totalPaid
  }

  function CumulativeDue(b: Booking): int {
    CumulativeTotals(b).dueAmount
  }

  /** Every column of a section total is the sum of that column over the section. */
  lemma {:induction false} SectionSumColumns(bookings: seq<Booking>, d: int)
    ensures SectionSum(bookings, d) ==
            SectionTotals(SumOf(bookings, BillOf), SumOf(bookings, CumulativePaid),
                          SumOf(bookings, DayAmount(d)), SumOf(bookings, CumulativeDue))
    decreases |bookings|
  {
    if bookings != [] {
      SectionSumColumns(bookings[..|bookings| - 1], d);
    }
  }

  /** Right after a fetch with distinct ids, the daily income handed to the summary is the
      sum of the daily columns of the two sections. */
  lemma IncomeIsSectionDailySum(regular: seq<Booking>, unpaid: seq<Booking>, d: int)
    requires IdsDistinct(regular + unpaid)
    ensures Income(InitialValues(regular + unpaid, d)) ==
            SectionSum(regular, d).dailyAmount + SectionSum(unpaid, d).dailyAmount
  {
    InitialIncome(regular + unpaid, d);
    SumOfAppend(regular, unpaid, DayAmount(d));
    SectionSumColumns(regular, d);
    SectionSumColumns(unpaid, d);
  }

  // ---------------------------------------------------------------------------
  // handleUpdate

  /** The body of `PUT /booking/details/{id}`. */
  datatype PaymentUpdate = PaymentUpdate(bookingId: string, totalPaid: int, duePayment: int, dailyAmount: int, searchDate: int)

  const BookingNotFound := "Booking not found"

  /** `[...regularInvoice, ...unPaidInvoice].find(b => b._id === id)`. */
  function FindBooking(bookings: seq<Booking>, id: string): (r: Option<Booking>)
    ensures r.None? <==> forall i :: 0 <= i < |bookings| ==> bookings[i].id != id
    ensures r.Some? ==> r.value in bookings && r.value.id == id
    decreases |bookings|
  {
    if bookings == [] then None
    else if bookings[0].id == id then Some(bookings[0])
    else FindBooking(bookings[1..], id)
  }

  /** The request `handleUpdate` sends for booking `id`: the form's amount is added to
      what the booking has paid, and the due payment is the bill minus the new total. */
  function PrepareUpdate(regular: seq<Booking>, unpaid: seq<Booking>, values: seq<Field>, id: string, date: int): (r: Result<PaymentUpdate>)
    ensures r.Err? <==> forall i :: 0 <= i < |regular + unpaid| ==> (regular + unpaid)[i].id != id
    ensures r.Err? ==> r.error == BookingNotFound
    ensures r.Ok? ==>
              var b := FindBooking(regular + unpaid, id).value;
              && r.value.bookingId == id
              && r.value.dailyAmount == AmountOf(values, id)
              && r.value.totalPaid == OrZero(b.totalPaid) + AmountOf(values, id)
              && r.value.totalPaid + r.value.duePayment == OrZero(b.totalBill)
              && r.value.searchDate == date
  {
    var amount := AmountOf(values, id);
    var booking := FindBooking(regular + unpaid, id);
    if booking.None? then Err(BookingNotFound)
    else
      var newTotalPaid := OrZero(booking.value.totalPaid) + amount;
      Ok(PaymentUpdate(id, newTotalPaid, OrZero(booking.value.totalBill) - newTotalPaid, amount, date))
  }

  // ---------------------------------------------------------------------------
  // The component

  /** `response.data.data` of `GET /bookings/check-in/{date}`. */
  datatype BookingLists = BookingLists(regularInvoice: seq<Booking>, unPaidInvoice: seq<Booking>)

  datatype FetchResponse =
    | Answer(status: int, data: Option<BookingLists>)  // a missing `data` means two empty lists
    | FetchFailed                                      // the request threw

  /** What a fetch shows: the two sections, the form values and the daily income. */
  datatype Fetched = Fetched(regular: seq<Booking>, unpaid: seq<Booking>, values: seq<Field>, income: int)

  /** The state a fetch for day d leaves, or `None` when it leaves the state alone. */
  function FetchOutcome(response: FetchResponse, d: int): (r: Option<Fetched>)
    ensures r.Some? <==> response.Answer? && response.status == 200
    ensures r.Some? ==> r.value.income == Income(r.value.values)
    ensures r.Some? ==> forall u, b :: u in r.value.unpaid && b in r.value.regular ==> u.id != b.id
  {
    if response.Answer? && response.status == 200 then
      var lists := if response.data.Some? then response.data.value else BookingLists([], []);
      var regular := lists.regularInvoice;
      var unpaid := DedupUnpaid(regular, lists.unPaidInvoice);
      var values := InitialValues(regular + unpaid, d);
      assert forall u :: u in unpaid ==> forall b :: b in regular ==> u.id != b.id by {
        forall u | u in unpaid
          ensures forall b :: b in regular ==> u.id != b.id
        {
          DedupKeeps(regular, lists.unPaidInvoice, u);
        }
      }
      Some(Fetched(regular, unpaid, values, Income(values)))
    else None
  }

  const PaymentUpdated := "Payment updated successfully"
  const PaymentFailed := "Failed to update payment"

  /** The statement's state: the two invoice lists, the form values, the daily income
      handed to the summary, the per-booking `submitting` flags and the selected day. */
  class StatementView {
    var regularInvoice: seq<Booking>
    var unPaidInvoice: seq<Booking>
    var values: seq<Field>
    var dailyIncome: int
    var submitting: map<string, bool>
    var selectedDate: int
    var loading: bool

    /** The shown income is the sum of the form's amounts. */
    predicate Valid()
      reads this
    {
      dailyIncome == Income(values)
    }

    constructor (date: int)
      ensures regularInvoice == [] && unPaidInvoice == [] && values == []
      ensures dailyIncome == 0 && submitting == map[] && selectedDate == date && !loading
    {
      regularInvoice, unPaidInvoice, values := [], [], [];
      dailyIncome := 0;
      submitting := map[];
      selectedDate := date;
      loading := false;
    }

    /** `fetchBookingsByDate(d)`: on a 200 answer the lists, the form values and the income
        are replaced; otherwise (another status, or a failure with its error message)
        nothing but `loading` changes. */
    method FetchBookingsByDate(d: int, response: FetchResponse)
      modifies this
      ensures FetchOutcome(response, d).Some? ==>
                var f := FetchOutcome(response, d).value;
                regularInvoice == f.regular && unPaidInvoice == f.unpaid &&
                values == f.values && dailyIncome == f.income
      ensures FetchOutcome(response, d).None? ==>
                regularInvoice == old(regularInvoice) && unPaidInvoice == old(unPaidInvoice) &&
                values == old(values) && dailyIncome == old(dailyIncome)
      ensures old(Valid()) ==> Valid()
      ensures submitting == old(submitting) && selectedDate == old(selectedDate) && !loading
    {
      loading := true;
      if response.Answer? && response.status == 200 {
        var lists := if response.data.Some? then response.data.value else BookingLists([], []);
        var unpaid := DedupUnpaid(lists.regularInvoice, lists.unPaidInvoice);
        regularInvoice, unPaidInvoice := lists.regularInvoice, unpaid;
        var initial := BuildInitialValues(lists.regularInvoice + unpaid, d);
        values := initial;
        dailyIncome := Income(initial);
      }
      loading := false;
    }

    /** `handleDateChange`, `handlePreviousDay` and `handleNextDay` set the day; the effect fetches. */
    method SelectDate(d: int, response: FetchResponse)
      modifies this
      ensures selectedDate == d
      ensures FetchOutcome(response, d).Some? ==>
                var f := FetchOutcome(response, d).value;
                regularInvoice == f.regular && unPaidInvoice == f.unpaid &&
                values == f.values && dailyIncome == f.income
      ensures FetchOutcome(response, d).None? ==>
                regularInvoice == old(regularInvoice) && unPaidInvoice == old(unPaidInvoice) &&
                values == old(values) && dailyIncome == old(dailyIncome)
      ensures submitting == old(submitting) && !loading
    {
      selectedDate := d;
      FetchBookingsByDate(d, response);
    }

    /** The daily-amount input of booking `id`: the form amount is set and the income is
        moved by the new amount minus the old one. */
    method OnDailyAmountChange(id: string, value: Option<int>)
      modifies this
      ensures values == SetAmount(old(values), id, value)
      ensures dailyIncome == old(dailyIncome) - AmountOf(old(values), id) + OrZero(value)
      ensures AmountOf(values, id) == OrZero(value)
      ensures old(Valid()) ==> Valid()
      ensures regularInvoice == old(regularInvoice) && unPaidInvoice == old(unPaidInvoice)
      ensures submitting == old(submitting) && selectedDate == old(selectedDate) && loading == old(loading)
    {
      var newIncome := dailyIncome - AmountOf(values, id) + OrZero(value);
      ghost var before := values;
      values := SetAmount(values, id, value);
      dailyIncome := newIncome;
      var prev := Lookup(before, id);
      IncomeAssign(before, id, FormValue(if prev.Some? then prev.value.totalPaid else None, value));
      LookupAssign(before, id, FormValue(if prev.Some? then prev.value.totalPaid else None, value), id);
    }

    /** `handleUpdate(id)`: the booking is looked up in both lists; when it is missing no
        request is sent and the failure message is shown. A sent request that is answered
        200 is followed by a fetch of the selected day; a request that threw shows the
        failure message. The `submitting` flag of the booking is cleared at the end and the
        other bookings' flags are untouched. */
    method HandleUpdate(id: string, status: Option<int>, refetch: FetchResponse) returns (sent: Option<PaymentUpdate>, notice: string)
      modifies this
      ensures var r := PrepareUpdate(old(regularInvoice), old(unPaidInvoice), old(values), id, old(selectedDate));
              sent == if r.Ok? then Some(r.value) else None
      ensures submitting == old(submitting)[id := false]
      ensures sent.None? || status.None? ==> notice == PaymentFailed
      ensures sent.Some? && status == Some(200) ==> notice == PaymentUpdated
      ensures sent.Some? && status == Some(200) && FetchOutcome(refetch, selectedDate).Some? ==>
                var f := FetchOutcome(refetch, selectedDate).value;
                regularInvoice == f.regular && unPaidInvoice == f.unpaid &&
                values == f.values && dailyIncome == f.income
      ensures !(sent.Some? && status == Some(200) && FetchOutcome(refetch, selectedDate).Some?) ==>
                regularInvoice == old(regularInvoice) && unPaidInvoice == old(unPaidInvoice) &&
                values == old(values) && dailyIncome == old(dailyIncome)
      ensures old(Valid()) ==> Valid()
      ensures selectedDate == old(selectedDate)
      ensures loading == (if sent.Some? && status == Some(200) then false else old(loading))
    {
      submitting := submitting[id := true];
      var r := PrepareUpdate(regularInvoice, unPaidInvoice, values, id, selectedDate);
      if r.Err? {
        sent, notice := None, PaymentFailed;
      } else {
        sent := Some(r.value);
        if status == Some(200) {
          notice := PaymentUpdated;
          FetchBookingsByDate(selectedDate, refetch);
        } else if status.None? {
          notice := PaymentFailed;
        } else {
          notice := "";
        }
      }
      submitting := submitting[id := false];
    }
  }
}
