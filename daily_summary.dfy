/** The daily cash summary under the daily statement (component/DailySummary.js): the
    opening balance is carried forward from the previous day's stored closing balance,
    total = opening + income, closing = total - expenses, and the six figures are saved
    as one record per day. Dates are day numbers; amounts are integers. */
module DailySummary {
  import opened JsSemantics

  /** One saved day: the body of `POST /daily-summary`. */
  datatype Record = Record(
    date: int,
    openingBalance: int,
    dailyIncome: int,
    totalBalance: int,
    dailyExpenses: int,
    closingBalance: int)

  /** The two balance identities every saved record satisfies. Closing may be negative. */
  predicate Reconciled(r: Record) {
    && r.totalBalance == r.openingBalance + r.dailyIncome
    && r.closingBalance == r.totalBalance - r.dailyExpenses
  }

  /** The answer to `GET /daily-summary/{previous day}`. */
  datatype SummaryResponse =
    | Response(status: int, closingBalance: Option<int>)  // `res.status`, `res.data?.closingBalance`
    | RequestFailed                                       // the request threw (axios raises 4xx/5xx)

  /** `fetchOpeningBalance`: the stored closing balance on a 200 answer, otherwise 0; a
      failure never escapes. (`prevClosing || 0` maps a missing or zero balance to 0.) */
  function OpeningFromResponse(r: SummaryResponse): int {
    match r
    case Response(status, closing) => if status == 200 then OrZero(closing) else 0
    case RequestFailed => 0
  }

  /** The answer of a daily-summary store holding `records`: 200 with the record, or a
      not-found status, which axios raises as an error. */
  function StoreAnswer(records: map<int, Record>, d: int): SummaryResponse {
    if d in records then Response(200, Some(records[d].closingBalance)) else RequestFailed
  }

  /** Loading day d against the store gives the closing balance of day d - 1, or 0. */
  lemma OpeningIsPreviousClosing(records: map<int, Record>, d: int)
    ensures d - 1 in records ==> OpeningFromResponse(StoreAnswer(records, d - 1)) == records[d - 1].closingBalance
    ensures d - 1 !in records ==> OpeningFromResponse(StoreAnswer(records, d - 1)) == 0
  {
  }

  /** Every answer other than a 200 carrying a balance yields 0. */
  lemma OpeningFallback(r: SummaryResponse)
    ensures !(r.Response? && r.status == 200 && r.closingBalance.Some?) ==> OpeningFromResponse(r) == 0
    ensures r.Response? && r.status == 200 && r.closingBalance.Some? ==> OpeningFromResponse(r) == r.closingBalance.value
  {
  }

  /** The save succeeds only on status 200 or 201; `None` is a request that threw. */
  predicate SaveSucceeded(status: Option<int>) {
    status == Some(200) || status == Some(201)
  }

  /** The server kept the posted record: it answered with a 2xx status (axios raises any
      other status, which is `None` here as well). */
  predicate ServerStored(status: Option<int>) {
    status.Some? && 200 <= status.value < 300
  }

  // ---------------------------------------------------------------------------
  // The chain of days, as a sequence of load-edit-save rounds against the store

  /** What the operator enters for one day: the day's income and expenses. */
  datatype DayEntry = DayEntry(income: int, expenses: int)

  /** The record the panel saves for day d after loading its opening balance from the store. */
  function DayRecord(records: map<int, Record>, d: int, e: DayEntry): (r: Record)
    ensures Reconciled(r) && r.date == d
  {
    var opening := OpeningFromResponse(StoreAnswer(records, d - 1));
    Record(d, opening, e.income, opening + e.income, e.expenses, opening + e.income - e.expenses)
  }

  /** Save days d, d + 1, ... in order, each loaded against the store as the previous save left it. */
  function SaveDays(records: map<int, Record>, d: int, days: seq<DayEntry>): map<int, Record>
    decreases |days|
  {
    if days == [] then records
    else
      var before := SaveDays(records, d, days[..|days| - 1]);
      var k := d + |days| - 1;
      before[k := DayRecord(before, k, days[|days| - 1])]
  }

  /** Day k of a run was saved with entry e: reconciled, dated k, carrying e's figures. */
  predicate SavedAs(store: map<int, Record>, k: int, e: DayEntry) {
    && k in store
    && Reconciled(store[k])
    && store[k].date == k
    && store[k].dailyIncome == e.income
    && store[k].dailyExpenses == e.expenses
  }

  /** Saving days from d on leaves the days before d alone. */
  lemma {:induction false} SaveDaysKeepsEarlier(records: map<int, Record>, d: int, days: seq<DayEntry>, k: int)
    requires k < d
    ensures k in SaveDays(records, d, days) <==> k in records
    ensures k in records ==> SaveDays(records, d, days)[k] == records[k]
    decreases |days|
  {
    if days != [] {
      SaveDaysKeepsEarlier(records, d, days[..|days| - 1], k);
    }
  }

  /** Day k opens with the closing balance of day k - 1. */
  predicate OpensWithPrevious(store: map<int, Record>, k: int) {
    k in store && k - 1 in store && store[k].openingBalance == store[k - 1].closingBalance
  }

  /** Consecutive days d .. d + |days| - 1 of `store` were saved from `days`, each one
      opening with the closing balance of the day before. */
  predicate ChainedRun(store: map<int, Record>, d: int, days: seq<DayEntry>) {
    && (forall i :: 0 <= i < |days| ==> SavedAs(store, d + i, days[i]))
    && (forall k :: d < k < d + |days| ==> OpensWithPrevious(store, k))
  }

  /** The chaining invariant: after saving consecutive days, every saved day is reconciled and
      carries the entered income and expenses, each day opens with the previous day's closing
      balance, and the first day opens with the stored balance of the day before it, or 0. */
  lemma {:induction false} SavedDaysChain(records: map<int, Record>, d: int, days: seq<DayEntry>)
    ensures ChainedRun(SaveDays(records, d, days), d, days)
    ensures |days| > 0 ==>
              d in SaveDays(records, d, days) &&
              SaveDays(records, d, days)[d].openingBalance == (if d - 1 in records then records[d - 1].closingBalance else 0)
    decreases |days|
  {
    if days != [] {
      var n := |days| - 1;
      var init := days[..n];
      var before := SaveDays(records, d, init);
      var k := d + n;
      var last := DayRecord(before, k, days[n]);
      var result := SaveDays(records, d, days);
      assert result == before[k := last];
      SavedDaysChain(records, d, init);
      SaveDaysKeepsEarlier(records, d, init, d - 1);
      forall i | 0 <= i < |days|
        ensures SavedAs(result, d + i, days[i])
      {
        if i < n {
          assert init[i] == days[i];
          assert SavedAs(before, d + i, init[i]);
        }
      }
      forall j | d < j < d + |days|
        ensures OpensWithPrevious(result, j)
      {
        if j < k {
          assert OpensWithPrevious(before, j);
        } else {
          assert SavedAs(before, d + (n - 1), init[n - 1]);
        }
      }
    }
  }

  /** Saving day d when day d + 1 has already been saved leaves day d + 1 with a stale
      opening balance: the chain holds only while days are saved in order. */
  lemma ResavingEarlierDayLeavesStaleSuccessor()
    ensures var first := DayRecord(map[], 1, DayEntry(500, 200));
            var second := DayRecord(map[1 := first], 2, DayEntry(400, 100));
            var store := map[1 := first, 2 := second];
            var resaved := store[1 := DayRecord(store, 1, DayEntry(500, 300))];
            resaved[2].openingBalance != resaved[1].closingBalance
  {
  }

  // ---------------------------------------------------------------------------
  // The component

  /** The daily-summary collection of the backend, keyed by day. */
  class SummaryStore {
    var records: map<int, Record>

    constructor (initial: map<int, Record>)
      ensures records == initial
    {
      records := initial;
    }

    /** `POST /daily-summary` on the server: create or fully replace the day's record. */
    method Upsert(r: Record)
      modifies this
      ensures records == old(records)[r.date := r]
    {
      records := records[r.date := r];
    }
  }

  /** The component's state: the `selectedDate` and `dailyIncome` props, and the
      `openingBalance`, `dailyExpenses`, `totalBalance`, `closingBalance`, `loading` state. */
  class DailySummaryPanel {
    var selectedDate: int
    var dailyIncome: int
    var openingBalance: int
    var dailyExpenses: int
    var totalBalance: int
    var closingBalance: int
    var loading: bool

    /** The figures shown, as the record a save would send. */
    function Current(): Record
      reads this
    {
      Record(selectedDate, openingBalance, dailyIncome, totalBalance, dailyExpenses, closingBalance)
    }

    /** The recompute effect has run: the shown totals follow from the inputs. */
    predicate Valid()
      reads this
    {
      && totalBalance == openingBalance + dailyIncome
      && closingBalance == totalBalance - dailyExpenses
    }

    /** Mounting: every state starts at 0 and the recompute effect runs. (The opening
        balance fetch that the date effect starts is the next `FetchOpeningBalance`.) */
    constructor (date: int, income: int)
      ensures selectedDate == date && dailyIncome == income
      ensures openingBalance == 0 && dailyExpenses == 0
      ensures totalBalance == income && closingBalance == income && !loading
    {
      selectedDate, dailyIncome := date, income;
      openingBalance, dailyExpenses := 0, 0;
      totalBalance := income;
      closingBalance := income;
      loading := false;
    }

    /** The effect on `[openingBalance, dailyIncome, dailyExpenses]`. */
    method Recompute()
      modifies this
      ensures Valid()
      ensures selectedDate == old(selectedDate) && dailyIncome == old(dailyIncome)
      ensures openingBalance == old(openingBalance) && dailyExpenses == old(dailyExpenses)
      ensures loading == old(loading)
    {
      var total := openingBalance + dailyIncome;
      var closing := total - dailyExpenses;
      totalBalance := total;
      closingBalance := closing;
    }

    /** `fetchOpeningBalance` with the answer for the previous day, then the recompute effect. */
    method FetchOpeningBalance(response: SummaryResponse)
      modifies this
      ensures Valid()
      ensures openingBalance == OpeningFromResponse(response)
      ensures selectedDate == old(selectedDate) && dailyIncome == old(dailyIncome)
      ensures dailyExpenses == old(dailyExpenses) && loading == old(loading)
    {
      openingBalance := OpeningFromResponse(response);
      Recompute();
    }

    /** The parent changes the date: the opening balance is fetched again. The entered
        expenses are kept; nothing resets them. */
    method SelectDate(date: int, response: SummaryResponse)
      modifies this
      ensures Valid()
      ensures selectedDate == date && openingBalance == OpeningFromResponse(response)
      ensures dailyIncome == old(dailyIncome) && dailyExpenses == old(dailyExpenses)
      ensures loading == old(loading)
    {
      selectedDate := date;
      FetchOpeningBalance(response);
    }

    /** The parent passes a new `dailyIncome`. */
    method SetDailyIncome(income: int)
      modifies this
      ensures Valid()
      ensures dailyIncome == income
      ensures selectedDate == old(selectedDate) && openingBalance == old(openingBalance)
      ensures dailyExpenses == old(dailyExpenses) && loading == old(loading)
    {
      dailyIncome := income;
      Recompute();
    }

    /** The expense input: `setDailyExpenses(value || 0)`; clearing it (`null`) gives 0. */
    method SetDailyExpenses(value: Option<int>)
      modifies this
      ensures Valid()
      ensures dailyExpenses == OrZero(value)
      ensures value.None? ==> dailyExpenses == 0
      ensures selectedDate == old(selectedDate) && openingBalance == old(openingBalance)
      ensures dailyIncome == old(dailyIncome) && loading == old(loading)
    {
      dailyExpenses := OrZero(value);
      Recompute();
    }

    /** `handleSave`: send the six current figures; the store takes them when it answers
        with a 2xx status. Only 200 and 201 are reported as a success, so another 2xx
        answer is reported as a failure although the record was stored. The panel's
        figures never change. */
    method Save(store: SummaryStore, status: Option<int>) returns (payload: Record, ok: bool)
      requires Valid()
      modifies this, store
      ensures payload == old(Current()) && Reconciled(payload)
      ensures ok <==> SaveSucceeded(status)
      ensures ok ==> ServerStored(status)
      ensures ServerStored(status) ==> store.records == old(store.records)[payload.date := payload]
      ensures !ServerStored(status) ==> store.records == old(store.records)
      ensures Current() == old(Current()) && Valid() && !loading
    {
      loading := true;
      payload := Current();
      if ServerStored(status) {
        store.Upsert(payload);
      }
      ok := SaveSucceeded(status);
      loading := false;
    }
  }

  /** Two days in a row: day 1 (no stored predecessor, income 500, expenses 200) totals
      500 and closes at 300; day 2, loaded against the stored 300, with income 400 and
      expenses 100 totals 700 and closes at 600. */
  method TwoDaysScenario()
  {
    var panel := new DailySummaryPanel(1, 500);
    panel.FetchOpeningBalance(RequestFailed);
    panel.SetDailyExpenses(Some(200));
    assert panel.Current() == Record(1, 0, 500, 500, 200, 300);
    panel.SetDailyIncome(400);
    panel.SelectDate(2, Response(200, Some(300)));
    panel.SetDailyExpenses(Some(100));
    assert panel.Current() == Record(2, 300, 400, 700, 100, 600);
  }

  /** Saving: a 201 answer stores the panel's record under its date; a failed save
      (status 500) keeps the store as it was. */
  method SaveScenario()
  {
    var store := new SummaryStore(map[]);
    var panel := new DailySummaryPanel(1, 500);
    panel.SetDailyExpenses(Some(200));
    var payload, ok := panel.Save(store, Some(500));
    assert !ok && store.records == map[];
    payload, ok := panel.Save(store, Some(201));
    assert ok && store.records == map[1 := Record(1, 0, 500, 500, 200, 300)];
  }

  /** Expenses above the day's means give a negative closing balance, which is kept. */
  method NegativeClosingScenario()
  {
    var panel := new DailySummaryPanel(3, 100);
    panel.FetchOpeningBalance(RequestFailed);
    panel.SetDailyExpenses(Some(150));
    assert panel.totalBalance == 100 && panel.closingBalance == -50;
  }
}
