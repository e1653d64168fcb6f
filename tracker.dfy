// The expense tracker's component state and the operations that change it:
// recording a transaction and the three button handlers that call it.

module Tracker {
  import opened Ledger
  import opened Charts

  /** The amount input after parsing: None when the field is empty or not a number. */
  datatype Option<T> = None | Some(value: T)

  /** The amounts offered as one-click expense buttons. */
  const QuickAmounts: seq<int> := [5, 10, 20, 50, 100]

  /** An entered amount is accepted when it is present and positive. */
  predicate Accepted(amount: Option<int>)
  {
    amount.Some? && amount.value > 0
  }

  /** The entered description, or `default` when the field is empty. */
  function DescriptionOr(entered: string, default: string): (d: string)
    ensures entered != [] ==> d == entered
    ensures entered == [] ==> d == default
  {
    if entered == [] then default else entered
  }

  function Digit(n: nat): (c: char)
    requires n < 10
    ensures '0' <= c <= '9' && c as int - '0' as int == n
  {
    ('0' as int + n) as char
  }

  /** The number a string of decimal digits denotes. */
  function DigitsValue(s: string): nat
    requires forall i :: 0 <= i < |s| ==> '0' <= s[i] <= '9'
  {
    if s == [] then 0
    else DigitsValue(s[..|s| - 1]) * 10 + (s[|s| - 1] as int - '0' as int)
  }

  /** The decimal notation of a natural number: digits only, no leading zero, denoting `n`. */
  function Decimal(n: nat): (s: string)
    ensures |s| >= 1
    ensures forall i :: 0 <= i < |s| ==> '0' <= s[i] <= '9'
    ensures DigitsValue(s) == n
    ensures n == 0 || s[0] != '0'
  {
    if n < 10 then [Digit(n)]
    else
      var prefix := Decimal(n / 10);
      var s := prefix + [Digit(n % 10)];
      assert s[..|s| - 1] == prefix;
      s
  }

  class ExpenseTracker {
    var balance: int
    var transactions: seq<Transaction>
    var amount: Option<int>
    var description: string
    var category: Category

    /** The cached balance is the balance folded from scratch over the ledger. */
    ghost predicate Valid()
      reads this
    {
      balance == SignedSum(transactions)
    }

    constructor ()
      ensures Valid()
      ensures balance == 0 && transactions == []
      ensures amount == None && description == [] && category == Food
    {
      balance := 0;
      transactions := [];
      amount := None;
      description := [];
      category := Food;
    }

    /** Records one transaction stamped with the clock reading `now`: it becomes the newest
        entry of the ledger and the balance moves by its signed amount. */
    method AddTransaction(now: int, amt: int, desc: string, kind: Kind, cat: Category := Other)
      requires Valid()
      modifies this`transactions, this`balance
      ensures Valid()
      ensures transactions == [Transaction(now, amt, desc, kind, cat, now)] + old(transactions)
      ensures balance == old(balance) + (if kind == Income then amt else -amt)
      ensures balance == TotalIncome(transactions) - TotalExpenses(transactions)
    {
      var transaction := Transaction(now, amt, desc, kind, cat, now);
      var newTransactions := [transaction] + transactions;
      assert newTransactions[1..] == transactions;
      transactions := newTransactions;
      if kind == Income {
        balance := balance + amt;
      } else {
        balance := balance - amt;
      }
      SignedSumIsIncomeMinusExpenses(transactions);
    }

    /** The "Add Money" button: records the entered amount as income, then clears the inputs. */
    method HandleAddMoney(now: int)
      requires Valid()
      modifies this
      ensures Valid()
      ensures category == old(category)
      ensures AllPositive(old(transactions)) ==> AllPositive(transactions)
      ensures Accepted(old(amount)) ==>
        transactions == [Transaction(now, old(amount).value, DescriptionOr(old(description), "Money added"),
                                     Income, Other, now)] + old(transactions) &&
        balance == old(balance) + old(amount).value &&
        amount == None && description == []
      ensures !Accepted(old(amount)) ==>
        transactions == old(transactions) && balance == old(balance) &&
        amount == old(amount) && description == old(description)
    {
      if Accepted(amount) {
        AddTransaction(now, amount.value, DescriptionOr(description, "Money added"), Income);
        amount := None;
        description := [];
      }
    }

    /** The "Add Expense" button: records the entered amount as an expense in the selected
        category, then clears the inputs. */
    method HandleAddExpense(now: int)
      requires Valid()
      modifies this
      ensures Valid()
      ensures category == old(category)
      ensures AllPositive(old(transactions)) ==> AllPositive(transactions)
      ensures Accepted(old(amount)) ==>
        transactions == [Transaction(now, old(amount).value, DescriptionOr(old(description), "Expense"),
                                     Expense, old(category), now)] + old(transactions) &&
        balance == old(balance) - old(amount).value &&
        amount == None && description == []
      ensures !Accepted(old(amount)) ==>
        transactions == old(transactions) && balance == old(balance) &&
        amount == old(amount) && description == old(description)
    {
      if Accepted(amount) {
        AddTransaction(now, amount.value, DescriptionOr(description, "Expense"), Expense, category);
        amount := None;
        description := [];
      }
    }

    /** A quick-expense button: records a fixed amount as an expense in the selected category;
        the amount and description inputs are left as they are. */
    method HandleQuickExpense(now: int, quickAmount: int)
      requires Valid()
      requires quickAmount in QuickAmounts
      modifies this`transactions, this`balance
      ensures Valid()
      ensures AllPositive(old(transactions)) ==> AllPositive(transactions)
      ensures transactions == [Transaction(now, quickAmount, "Quick expense $" + Decimal(quickAmount),
                                           Expense, category, now)] + old(transactions)
      ensures balance == old(balance) - quickAmount
    {
      AddTransaction(now, quickAmount, "Quick expense $" + Decimal(quickAmount), Expense, category);
    }
  }

  /** A session from an empty tracker: a paycheck, then a coffee on the same day. */
  method PaycheckThenCoffee(now: int)
  {
    var tracker := new ExpenseTracker();
    tracker.amount, tracker.description := Some(100), "paycheck";
    tracker.HandleAddMoney(now);
    tracker.amount, tracker.description, tracker.category := Some(20), "coffee", Food;
    tracker.HandleAddExpense(now);
    var ledger := tracker.transactions;
    assert tracker.balance == 80;
    assert ledger[0].description == "coffee" && ledger[0].kind == Expense && ledger[0].category == Food;
    assert ledger[1].description == "paycheck" && ledger[1].kind == Income && ledger[1].category == Other;
    assert |ledger| == 2 && ledger[1..] == [ledger[1]] && [ledger[1]][1..] == [];
    assert ledger[0].amount == 20 && ledger[1].amount == 100;
    assert TotalIncome([ledger[1]]) == 100;
    SignedSumIsIncomeMinusExpenses(ledger);
    assert TotalIncome(ledger) == 100 && TotalExpenses(ledger) == 20;

    var today := DayOf(now);
    var spending := DailySpendingData(ledger, today);
    assert ExpensesOn([ledger[1]], today) == 0;
    assert spending[WindowDays - 1].spending == 20;
    forall k | 0 <= k < WindowDays - 1
      ensures spending[k].spending == 0
    {
      ExpensesOnNone(ledger, spending[k].day);
    }

    var balances := BalanceOverTimeData(ledger, today);
    BalanceSeriesEndsAtBalance(ledger, today, balances);
    assert balances[WindowDays - 1].balance == 80;
  }
}
