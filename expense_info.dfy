/** The expense form and list (component/Expense/ExpenseInfo.js): total cost and cash in
    hand derived from the form, their recomputation after each field change, the saved
    expense, and the search on the creator's login. Amounts are integers. */
module ExpenseInfo {
  import opened JsSemantics

  /** The expense form's values. */
  datatype ExpenseValues = ExpenseValues(
    invoiceNo: string,
    grandTotal: int,
    flowerCost: int,
    deliveryCost: int,
    additionalCost: int,
    totalCost: int,
    cashInHand: int,
    createdBy: string,
    createdDate: string,
    invoiceId: Option<string>)

  /** `calculateTotalCost`. */
  function TotalCost(v: ExpenseValues): int {
    v.flowerCost + v.deliveryCost + v.additionalCost
  }

  /** `calculateCashInHand`. */
  function CashInHand(grandTotal: int, totalCost: int): int {
    grandTotal - totalCost
  }

  /** The two derived fields agree with the others. */
  predicate Consistent(v: ExpenseValues) {
    v.totalCost == TotalCost(v) && v.cashInHand == CashInHand(v.grandTotal, v.totalCost)
  }

  /** The derived fields recomputed from the others. */
  function Recomputed(v: ExpenseValues): (r: ExpenseValues)
    ensures Consistent(r)
    ensures r.cashInHand == v.grandTotal - v.flowerCost - v.deliveryCost - v.additionalCost
    ensures r.(totalCost := v.totalCost, cashInHand := v.cashInHand) == v
  {
    var total := TotalCost(v);
    v.(totalCost := total, cashInHand := CashInHand(v.grandTotal, total))
  }

  /** Recomputing twice changes nothing more. */
  lemma RecomputedIdempotent(v: ExpenseValues)
    ensures Recomputed(Recomputed(v)) == Recomputed(v)
    ensures Consistent(v) ==> Recomputed(v) == v
  {
  }

  /** The body of `POST expense` / `PUT expense/{id}`: the form values, with the derived
      fields recomputed and `invoiceId` taken from the looked-up invoice. */
  function SubmitPayload(v: ExpenseValues, invoiceInfoId: Option<string>): (r: ExpenseValues)
    ensures Consistent(r)
    ensures r.invoiceId == invoiceInfoId
    ensures r.(totalCost := v.totalCost, cashInHand := v.cashInHand, invoiceId := v.invoiceId) == v
    ensures r.createdDate == v.createdDate && r.createdBy == v.createdBy
  {
    Recomputed(v).(invoiceId := invoiceInfoId)
  }

  /** A form whose derived fields are already up to date is sent as it stands, apart from
      `invoiceId`. */
  lemma PayloadOfConsistentForm(v: ExpenseValues, invoiceInfoId: Option<string>)
    requires Consistent(v)
    ensures SubmitPayload(v, invoiceInfoId) == v.(invoiceId := invoiceInfoId)
    ensures SubmitPayload(v, invoiceInfoId).cashInHand == v.grandTotal - v.flowerCost - v.deliveryCost - v.additionalCost
  {
  }

  /** The values of an empty form: `resetForm` returns to these. `mountTime` is the
      formatted time at which the component first rendered; formik keeps the initial values
      of that render. */
  function InitialValues(loginId: string, mountTime: string): (r: ExpenseValues)
    ensures Consistent(r) && r.createdBy == loginId && r.createdDate == mountTime
  {
    ExpenseValues("", 0, 0, 0, 0, 0, 0, loginId, mountTime, Some(""))
  }

  // ---------------------------------------------------------------------------
  // handleFieldChange

  /** The answer to `GET /getOrderInfo/{invoiceNo}`. */
  datatype GrandTotalLookup =
    | Found(grandTotal: int, invoiceId: string)  // a 200 answer
    | LookupFailed                                // the request threw; `null` is returned

  /** One change of a form field that has a change handler. */
  datatype FieldEdit =
    | SetInvoiceNo(invoiceNo: string, lookup: GrandTotalLookup)
    | SetFlowerCost(flowerCost: int)
    | SetDeliveryCost(deliveryCost: int)
    | SetAdditionalCost(additionalCost: int)

  /** The edited field set to its new value (and, for an invoice number that was found,
      the grand total set from the invoice). */
  function Edited(v: ExpenseValues, edit: FieldEdit): ExpenseValues {
    match edit
    case SetInvoiceNo(no, lookup) =>
      if lookup.Found? then v.(invoiceNo := no, grandTotal := lookup.grandTotal) else v.(invoiceNo := no)
    case SetFlowerCost(x) => v.(flowerCost := x)
    case SetDeliveryCost(x) => v.(deliveryCost := x)
    case SetAdditionalCost(x) => v.(additionalCost := x)
  }

  /** A cost edit moves the total cost by the change of that cost and the cash in hand by
      its opposite. */
  lemma CostEditShiftsTotals(v: ExpenseValues, x: int)
    requires Consistent(v)
    ensures var r := Recomputed(Edited(v, SetFlowerCost(x)));
            r.totalCost == v.totalCost + (x - v.flowerCost) && r.cashInHand == v.cashInHand - (x - v.flowerCost)
    ensures var r := Recomputed(Edited(v, SetDeliveryCost(x)));
            r.totalCost == v.totalCost + (x - v.deliveryCost) && r.cashInHand == v.cashInHand - (x - v.deliveryCost)
    ensures var r := Recomputed(Edited(v, SetAdditionalCost(x)));
            r.totalCost == v.totalCost + (x - v.additionalCost) && r.cashInHand == v.cashInHand - (x - v.additionalCost)
  {
  }

  /** The form after a series of field changes, each one followed by the recomputation. */
  function AfterEdits(v: ExpenseValues, edits: seq<FieldEdit>): ExpenseValues
    decreases |edits|
  {
    if edits == [] then v else AfterEdits(Recomputed(Edited(v, edits[0])), edits[1..])
  }

  /** No field change touches the creator or the creation date. */
  lemma {:induction false} EditsKeepStamp(v: ExpenseValues, edits: seq<FieldEdit>)
    ensures AfterEdits(v, edits).createdDate == v.createdDate
    ensures AfterEdits(v, edits).createdBy == v.createdBy
    decreases |edits|
  {
    if edits != [] {
      EditsKeepStamp(Recomputed(Edited(v, edits[0])), edits[1..]);
    }
  }

  /** A new expense is sent with the time the page was first rendered as its creation
      date, however the form was filled in and however long that took. */
  lemma NewExpenseStampedAtMount(loginId: string, mountTime: string, edits: seq<FieldEdit>, invoiceInfoId: Option<string>)
    ensures SubmitPayload(AfterEdits(InitialValues(loginId, mountTime), edits), invoiceInfoId).createdDate == mountTime
    ensures SubmitPayload(AfterEdits(InitialValues(loginId, mountTime), edits), invoiceInfoId).createdBy == loginId
  {
    EditsKeepStamp(InitialValues(loginId, mountTime), edits);
  }

  /** A saved expense: its `_id` and its values. */
  datatype Expense = Expense(id: string, values: ExpenseValues)

  /** The request `onSubmit` sends. */
  datatype ExpenseRequest =
    | Post(body: ExpenseValues)                          // `POST expense`
    | Put(editingKey: Option<string>, body: ExpenseValues)  // `PUT expense/{editingKey}`

  /** The form: its values, the `_id` of the last invoice found by number (`invoiceInfo`),
      whether an existing expense is being edited, its key, and whether the dialog is open. */
  class ExpenseForm {
    const loginId: string
    const mountTime: string
    var values: ExpenseValues
    var invoiceInfoId: Option<string>
    var isEditing: bool
    var editingKey: Option<string>
    var visible: bool

    constructor (loginId: string, mountTime: string)
      ensures this.loginId == loginId && this.mountTime == mountTime
      ensures values == InitialValues(loginId, mountTime)
      ensures invoiceInfoId == None && !isEditing && editingKey == None && !visible
    {
      this.loginId, this.mountTime := loginId, mountTime;
      values := InitialValues(loginId, mountTime);
      invoiceInfoId := None;
      isEditing, editingKey, visible := false, None, false;
    }

    /** `handleFieldChange`: the field is set, an invoice number is looked up, and the
        total cost and cash in hand are recomputed from the latest values. */
    method HandleFieldChange(edit: FieldEdit)
      modifies this
      ensures values == Recomputed(Edited(old(values), edit))
      ensures Consistent(values)
      ensures edit.SetFlowerCost? ==> values.flowerCost == edit.flowerCost
      ensures edit.SetDeliveryCost? ==> values.deliveryCost == edit.deliveryCost
      ensures edit.SetAdditionalCost? ==> values.additionalCost == edit.additionalCost
      ensures edit.SetInvoiceNo? && edit.lookup.Found? ==>
                values.grandTotal == edit.lookup.grandTotal && invoiceInfoId == Some(edit.lookup.invoiceId)
      ensures !(edit.SetInvoiceNo? && edit.lookup.Found?) ==>
                values.grandTotal == old(values.grandTotal) && invoiceInfoId == old(invoiceInfoId)
      ensures values.createdBy == old(values.createdBy) && values.invoiceId == old(values.invoiceId)
      ensures values.createdDate == old(values.createdDate)
      ensures isEditing == old(isEditing) && editingKey == old(editingKey) && visible == old(visible)
    {
      var latest := values;
      match edit {
        case SetInvoiceNo(no, lookup) =>
          latest := latest.(invoiceNo := no);
          if lookup.Found? {
            invoiceInfoId := Some(lookup.invoiceId);
            latest := latest.(grandTotal := lookup.grandTotal);
          }
        case SetFlowerCost(x) => latest := latest.(flowerCost := x);
        case SetDeliveryCost(x) => latest := latest.(deliveryCost := x);
        case SetAdditionalCost(x) => latest := latest.(additionalCost := x);
      }
      var totalCost := TotalCost(latest);
      latest := latest.(totalCost := totalCost);
      latest := latest.(cashInHand := CashInHand(latest.grandTotal, totalCost));
      values := latest;
    }

    /** "Add New Expense": an empty form in create mode. */
    method OpenCreate()
      modifies this
      ensures values == InitialValues(loginId, mountTime) && visible && !isEditing
      ensures editingKey == old(editingKey) && invoiceInfoId == old(invoiceInfoId)
    {
      values := InitialValues(loginId, mountTime);
      visible, isEditing := true, false;
    }

    /** `handleEdit`: the record's values are loaded, with `invoiceId` set to the record's
        own `_id`, and the dialog opens in edit mode. */
    method HandleEdit(record: Expense)
      modifies this
      ensures values == record.values.(invoiceId := Some(record.id))
      ensures editingKey == Some(record.id) && isEditing && visible
      ensures invoiceInfoId == old(invoiceInfoId)
    {
      editingKey := Some(record.id);
      values := record.values.(invoiceId := Some(record.id));
      visible, isEditing := true, true;
    }

    /** `onSubmit`: the recomputed payload is put to the edited key or posted; a 200 answer
        resets and closes the form and leaves edit mode, any other outcome changes nothing. */
    method Submit(status: Option<int>) returns (request: ExpenseRequest, saved: bool)
      modifies this
      ensures request.body == SubmitPayload(old(values), old(invoiceInfoId))
      ensures request.body.createdDate == old(values.createdDate)
      ensures request.Put? <==> old(isEditing)
      ensures request.Put? ==> request.editingKey == old(editingKey)
      ensures saved <==> status == Some(200)
      ensures saved ==> values == InitialValues(loginId, mountTime) && !visible && !isEditing && editingKey == None
      ensures !saved ==> values == old(values) && visible == old(visible) &&
                         isEditing == old(isEditing) && editingKey == old(editingKey)
      ensures invoiceInfoId == old(invoiceInfoId)
    {
      var body := SubmitPayload(values, invoiceInfoId);
      if isEditing {
        request := Put(editingKey, body);
      } else {
        request := Post(body);
      }
      saved := status == Some(200);
      if saved {
        values := InitialValues(loginId, mountTime);
        visible, isEditing, editingKey := false, false, None;
      }
    }
  }

  // ---------------------------------------------------------------------------
  // handleSearch

  /** `item.createdBy.toLowerCase().includes(value.toLowerCase())`. */
  predicate CreatedByMatches(e: Expense, value: string) {
    Includes(ToLower(e.values.createdBy), ToLower(value))
  }

  function SearchByCreator(expenses: seq<Expense>, value: string): (r: seq<Expense>)
    ensures |r| <= |expenses|
  {
    Filter(expenses, e => CreatedByMatches(e, value))
  }

  /** The search keeps exactly the expenses whose creator contains the query, in any case. */
  lemma SearchKeeps(expenses: seq<Expense>, value: string, e: Expense)
    ensures e in SearchByCreator(expenses, value) <==>
              e in expenses && exists k :: OccursAt(ToLower(e.values.createdBy), ToLower(value), k)
    ensures Subsequence(SearchByCreator(expenses, value), expenses)
  {
    FilterMembership(expenses, e => CreatedByMatches(e, value), e);
    FilterSubsequence(expenses, e => CreatedByMatches(e, value));
    IncludesAt(ToLower(e.values.createdBy), ToLower(value));
  }

  /** An empty query keeps every expense. */
  lemma EmptySearchKeepsAll(expenses: seq<Expense>)
    ensures SearchByCreator(expenses, "") == expenses
  {
    forall i | 0 <= i < |expenses|
      ensures CreatedByMatches(expenses[i], "")
    {
      assert [] <= ToLower(expenses[i].values.createdBy);
    }
    FilterAll(expenses, e => CreatedByMatches(e, ""));
  }

  /** The list state: all expenses, the shown ones, the search text and the pagination. */
  class ExpenseList {
    var expenses: seq<Expense>
    var filteredExpenses: seq<Expense>
    var searchText: string
    var current: int
    var pageSize: int

    constructor ()
      ensures expenses == [] && filteredExpenses == [] && searchText == ""
      ensures current == 1 && pageSize == 10
    {
      expenses, filteredExpenses, searchText := [], [], "";
      current, pageSize := 1, 10;
    }

    /** `fetchExpense`: a 200 answer replaces both lists. */
    method FetchExpense(status: Option<int>, data: seq<Expense>)
      modifies this
      ensures status == Some(200) ==> expenses == data && filteredExpenses == data
      ensures status != Some(200) ==> expenses == old(expenses) && filteredExpenses == old(filteredExpenses)
      ensures searchText == old(searchText) && current == old(current) && pageSize == old(pageSize)
    {
      if status == Some(200) {
        expenses, filteredExpenses := data, data;
      }
    }

    /** `handleSearch`: the shown list is filtered from all expenses, and the pagination
        goes back to page 1 keeping its page size. */
    method HandleSearch(value: string)
      modifies this
      ensures searchText == value
      ensures filteredExpenses == SearchByCreator(expenses, value)
      ensures current == 1 && pageSize == old(pageSize)
      ensures expenses == old(expenses)
    {
      searchText := value;
      filteredExpenses := SearchByCreator(expenses, value);
      current := 1;
    }
  }
}
