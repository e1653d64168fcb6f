// The two 30-day chart series: daily spending and balance over time. Each series
// has one point per calendar day from `today - 29` to `today`, oldest first; the
// display label ('MMM dd') is left out and the key is the day number itself.

module Charts {
  import opened Ledger
  import opened TimeSort

  const WindowDays: nat := 30

  /** One bar of the daily spending chart. */
  datatype SpendingPoint = SpendingPoint(day: int, spending: int)

  /** One point of the balance line chart. */
  datatype BalancePoint = BalancePoint(day: int, balance: int)

  /** The day of the `k`-th point of a window ending at `today`. */
  function WindowDay(today: int, k: int): int
  {
    today - (WindowDays - 1) + k
  }

  /** The total of a spending series. */
  function TotalSpending(data: seq<SpendingPoint>): int
  {
    if data == [] then 0 else TotalSpending(data[..|data| - 1]) + data[|data| - 1].spending
  }

  /** Daily spending: for each day of the window, the expenses dated that day. */
  method DailySpendingData(ledger: seq<Transaction>, today: int) returns (data: seq<SpendingPoint>)
    ensures |data| == WindowDays
    ensures forall k :: 0 <= k < |data| ==> data[k].day == WindowDay(today, k)
    ensures forall k :: 0 <= k < |data| ==> data[k].spending == ExpensesOn(ledger, data[k].day)
  {
    data := [];
    var i: int := WindowDays - 1;
    while i >= 0
      invariant -1 <= i < WindowDays
      invariant |data| == WindowDays - 1 - i
      invariant forall k :: 0 <= k < |data| ==> data[k].day == WindowDay(today, k)
      invariant forall k :: 0 <= k < |data| ==> data[k].spending == ExpensesOn(ledger, data[k].day)
    {
      var date := today - i;
      var dayExpenses := ExpensesOn(ledger, date);
      data := data + [SpendingPoint(date, dayExpenses)];
      i := i - 1;
    }
  }

  /** Balance over time: for each day of the window, the signed sum of the whole history
      dated on or before that day, read from a chronologically sorted copy. */
  method BalanceOverTimeData(ledger: seq<Transaction>, today: int) returns (data: seq<BalancePoint>)
    ensures |data| == WindowDays
    ensures forall k :: 0 <= k < |data| ==> data[k].day == WindowDay(today, k)
    ensures forall k :: 0 <= k < |data| ==> data[k].balance == BalanceUpTo(ledger, data[k].day)
  {
    data := [];
    var runningBalance := 0;
    var sortedTransactions := SortByTime(ledger);
    var i: int := WindowDays - 1;
    while i >= 0
      invariant -1 <= i < WindowDays
      invariant |data| == WindowDays - 1 - i
      invariant forall k :: 0 <= k < |data| ==> data[k].day == WindowDay(today, k)
      invariant forall k :: 0 <= k < |data| ==> data[k].balance == BalanceUpTo(ledger, data[k].day)
    {
      var date := today - i;
      SortKeepsBalance(ledger, date);
      runningBalance := BalanceUpTo(sortedTransactions, date);
      data := data + [BalancePoint(date, runningBalance)];
      i := i - 1;
    }
  }

  /** The bars of a spending series over consecutive days add up to the expenses of that range. */
  lemma {:induction false} SpendingSeriesTotal(ledger: seq<Transaction>, data: seq<SpendingPoint>, first: int)
    requires forall k :: 0 <= k < |data| ==> data[k].day == first + k
    requires forall k :: 0 <= k < |data| ==> data[k].spending == ExpensesOn(ledger, data[k].day)
    ensures TotalSpending(data) == ExpensesIn(ledger, first, first + |data| - 1)
  {
    if data == [] {
      ExpensesInEmptyRange(ledger, first, first - 1);
    } else {
      var n := |data|;
      SpendingSeriesTotal(ledger, data[..n - 1], first);
      ExpensesInExtend(ledger, first, first + n - 1);
    }
  }

  /** The daily spending chart adds up to the expenses dated inside its 30-day window. */
  lemma DailySpendingTotal(ledger: seq<Transaction>, today: int, data: seq<SpendingPoint>)
    requires |data| == WindowDays
    requires forall k :: 0 <= k < |data| ==> data[k].day == WindowDay(today, k)
    requires forall k :: 0 <= k < |data| ==> data[k].spending == ExpensesOn(ledger, data[k].day)
    ensures TotalSpending(data) == ExpensesIn(ledger, WindowDay(today, 0), today)
  {
    SpendingSeriesTotal(ledger, data, WindowDay(today, 0));
  }

  /** Consecutive points of the balance chart differ by the signed sum of the later day,
      so a single forward accumulation yields the same series. */
  lemma BalanceSeriesStep(ledger: seq<Transaction>, today: int, data: seq<BalancePoint>, k: int)
    requires |data| == WindowDays
    requires forall j :: 0 <= j < |data| ==> data[j].day == WindowDay(today, j)
    requires forall j :: 0 <= j < |data| ==> data[j].balance == BalanceUpTo(ledger, data[j].day)
    requires 0 < k < |data|
    ensures data[k].balance == data[k - 1].balance + SignedOn(ledger, data[k].day)
  {
    BalanceStep(ledger, data[k].day);
  }

  /** The last point of the balance chart is the current balance when nothing postdates today. */
  lemma BalanceSeriesEndsAtBalance(ledger: seq<Transaction>, today: int, data: seq<BalancePoint>)
    requires |data| == WindowDays
    requires forall j :: 0 <= j < |data| ==> data[j].day == WindowDay(today, j)
    requires forall j :: 0 <= j < |data| ==> data[j].balance == BalanceUpTo(ledger, data[j].day)
    requires forall i :: 0 <= i < |ledger| ==> DayOf(ledger[i].at) <= today
    ensures data[WindowDays - 1].balance == SignedSum(ledger)
  {
    BalanceUpToAll(ledger, today);
  }
}
