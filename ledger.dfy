// The transaction ledger of the expense tracker: its entities and the folds
// over it that every other part of the model is specified against.

module Ledger {

  /** The `type` field of a transaction: only 'income' and 'expense' are ever recorded. */
  datatype Kind = Income | Expense

  /** The fixed list of categories offered by the expense form; 'Other' is the default. */
  datatype Category = Food | Transport | Entertainment | Shopping | Bills | Healthcare | Other

  /** One recorded event. `at` is the creation timestamp in milliseconds since the epoch;
      `id` is opaque (it is taken from the same clock and is not guaranteed unique). */
  datatype Transaction = Transaction(
    id: int,
    amount: int,
    description: string,
    kind: Kind,
    category: Category,
    at: int)

  const MsPerDay: int := 86400000

  /** The calendar day of a timestamp, in one fixed reference frame (days since the epoch). */
  function DayOf(at: int): (d: int)
    ensures d * MsPerDay <= at < (d + 1) * MsPerDay
  {
    at / MsPerDay
  }

  /** The contribution of one transaction to the balance. */
  function Signed(t: Transaction): int
  {
    if t.kind == Income then t.amount else -t.amount
  }

  /** The balance folded from scratch over a ledger. */
  function SignedSum(l: seq<Transaction>): int
  {
    if l == [] then 0 else Signed(l[0]) + SignedSum(l[1..])
  }

  /** Sum of the amounts of the income transactions. */
  function TotalIncome(l: seq<Transaction>): int
  {
    if l == [] then 0
    else (if l[0].kind == Income then l[0].amount else 0) + TotalIncome(l[1..])
  }

  /** Sum of the amounts of the expense transactions. */
  function TotalExpenses(l: seq<Transaction>): int
  {
    if l == [] then 0
    else (if l[0].kind == Expense then l[0].amount else 0) + TotalExpenses(l[1..])
  }

  /** Sum of the amounts of the expense transactions dated on `day`. */
  function ExpensesOn(l: seq<Transaction>, day: int): int
  {
    if l == [] then 0
    else (if l[0].kind == Expense && DayOf(l[0].at) == day then l[0].amount else 0)
         + ExpensesOn(l[1..], day)
  }

  /** Sum of the amounts of the expense transactions dated in `lo .. hi` (inclusive). */
  function ExpensesIn(l: seq<Transaction>, lo: int, hi: int): int
  {
    if l == [] then 0
    else (if l[0].kind == Expense && lo <= DayOf(l[0].at) <= hi then l[0].amount else 0)
         + ExpensesIn(l[1..], lo, hi)
  }

  /** Signed sum of the transactions dated on `day`. */
  function SignedOn(l: seq<Transaction>, day: int): int
  {
    if l == [] then 0
    else (if DayOf(l[0].at) == day then Signed(l[0]) else 0) + SignedOn(l[1..], day)
  }

  /** The running balance at the end of `day`: signed sum of the whole history dated on or before it. */
  function BalanceUpTo(l: seq<Transaction>, day: int): int
  {
    if l == [] then 0
    else (if DayOf(l[0].at) <= day then Signed(l[0]) else 0) + BalanceUpTo(l[1..], day)
  }

  ghost predicate AllPositive(l: seq<Transaction>)
  {
    forall i :: 0 <= i < |l| ==> l[i].amount > 0
  }

  const RecentCount: nat := 5

  /** The transactions shown in the "recent" list: the newest ones, in ledger order. */
  function Recent(l: seq<Transaction>): (r: seq<Transaction>)
    ensures |r| == if |l| < RecentCount then |l| else RecentCount
    ensures forall k :: 0 <= k < |r| ==> r[k] == l[k]
  {
    l[..if |l| < RecentCount then |l| else RecentCount]
  }

  /** Prepending a transaction makes it the first recent one and shifts the rest down by one. */
  lemma RecentAfterPrepend(t: Transaction, l: seq<Transaction>)
    ensures Recent([t] + l)[0] == t
    ensures Recent([t] + l)[1..] == Recent(l)[..|Recent([t] + l)| - 1]
  {
    var r := Recent([t] + l);
    var r0 := Recent(l);
    assert |r| - 1 <= |r0|;
    assert forall k :: 0 <= k < |r| - 1 ==> r[1..][k] == ([t] + l)[k + 1] == l[k] == r0[k];
  }

  /** The cached-balance invariant stated with the two displayed totals. */
  lemma {:induction false} SignedSumIsIncomeMinusExpenses(l: seq<Transaction>)
    ensures SignedSum(l) == TotalIncome(l) - TotalExpenses(l)
  {
    if l != [] {
      SignedSumIsIncomeMinusExpenses(l[1..]);
    }
  }

  /** A day without expenses (income is never counted) buckets to zero. */
  lemma {:induction false} ExpensesOnNone(l: seq<Transaction>, day: int)
    requires forall i :: 0 <= i < |l| && l[i].kind == Expense ==> DayOf(l[i].at) != day
    ensures ExpensesOn(l, day) == 0
  {
    if l != [] {
      assert forall i :: 0 <= i < |l[1..]| ==> l[1..][i] == l[i + 1];
      ExpensesOnNone(l[1..], day);
    }
  }

  /** An income transaction, wherever it sits in the ledger, never changes a daily expense bucket. */
  lemma {:induction false} ExpensesOnOnlyExpenses(a: seq<Transaction>, t: Transaction, b: seq<Transaction>, day: int)
    requires t.kind == Income
    ensures ExpensesOn(a + [t] + b, day) == ExpensesOn(a + b, day)
  {
    if a == [] {
      assert a + [t] + b == [t] + b;
      assert ([t] + b)[1..] == b;
      assert a + b == b;
    } else {
      assert (a + [t] + b)[0] == a[0] && (a + b)[0] == a[0];
      assert (a + [t] + b)[1..] == a[1..] + [t] + b;
      assert (a + b)[1..] == a[1..] + b;
      ExpensesOnOnlyExpenses(a[1..], t, b, day);
    }
  }

  /** A range with no days holds no expenses. */
  lemma {:induction false} ExpensesInEmptyRange(l: seq<Transaction>, lo: int, hi: int)
    requires hi < lo
    ensures ExpensesIn(l, lo, hi) == 0
  {
    if l != [] {
      ExpensesInEmptyRange(l[1..], lo, hi);
    }
  }

  /** Extending a day range by its next day adds exactly that day's expenses. */
  lemma {:induction false} ExpensesInExtend(l: seq<Transaction>, lo: int, hi: int)
    requires lo <= hi
    ensures ExpensesIn(l, lo, hi) == ExpensesIn(l, lo, hi - 1) + ExpensesOn(l, hi)
  {
    if l != [] {
      ExpensesInExtend(l[1..], lo, hi);
    }
  }

  /** Every expense inside a range is counted: the range total covers all expenses when
      every transaction is dated inside it. */
  lemma {:induction false} ExpensesInCoversAll(l: seq<Transaction>, lo: int, hi: int)
    requires forall i :: 0 <= i < |l| ==> lo <= DayOf(l[i].at) <= hi
    ensures ExpensesIn(l, lo, hi) == TotalExpenses(l)
  {
    if l != [] {
      assert forall i :: 0 <= i < |l[1..]| ==> l[1..][i] == l[i + 1];
      ExpensesInCoversAll(l[1..], lo, hi);
    }
  }

  /** Consecutive running balances differ by exactly the signed sum of the later day. */
  lemma {:induction false} BalanceStep(l: seq<Transaction>, day: int)
    ensures BalanceUpTo(l, day) == BalanceUpTo(l, day - 1) + SignedOn(l, day)
  {
    if l != [] {
      BalanceStep(l[1..], day);
    }
  }

  /** The running balance on a day no transaction postdates is the full balance. */
  lemma {:induction false} BalanceUpToAll(l: seq<Transaction>, day: int)
    requires forall i :: 0 <= i < |l| ==> DayOf(l[i].at) <= day
    ensures BalanceUpTo(l, day) == SignedSum(l)
  {
    if l != [] {
      assert forall i :: 0 <= i < |l[1..]| ==> l[1..][i] == l[i + 1];
      BalanceUpToAll(l[1..], day);
    }
  }

  /** Before the first transaction the running balance is zero. */
  lemma {:induction false} BalanceUpToNone(l: seq<Transaction>, day: int)
    requires forall i :: 0 <= i < |l| ==> day < DayOf(l[i].at)
    ensures BalanceUpTo(l, day) == 0
  {
    if l != [] {
      assert forall i :: 0 <= i < |l[1..]| ==> l[1..][i] == l[i + 1];
      BalanceUpToNone(l[1..], day);
    }
  }
}
