// The chronological copy of the ledger that the balance chart works on: the ledger
// sorted by timestamp, oldest first. The source calls the built-in stable array sort
// with a comparator on the timestamps; it is modelled here by a stable insertion sort.

module TimeSort {
  import opened Ledger

  /** Oldest first: each transaction is no later than the one after it. */
  ghost predicate Chronological(s: seq<Transaction>)
  {
    forall i :: 0 < i < |s| ==> s[i - 1].at <= s[i].at
  }

  /** Puts `t` in front of the first transaction that is not earlier than it. */
  function InsertByTime(t: Transaction, s: seq<Transaction>): (r: seq<Transaction>)
    ensures |r| == |s| + 1
    ensures multiset(r) == multiset(s) + multiset{t}
    ensures r[0] == t || (s != [] && r[0] == s[0])
    ensures Chronological(s) ==> Chronological(r)
  {
    if s == [] || t.at <= s[0].at then [t] + s
    else
      assert s == [s[0]] + s[1..];
      [s[0]] + InsertByTime(t, s[1..])
  }

  /** The sorted copy: a chronological permutation of the ledger. */
  function SortByTime(s: seq<Transaction>): (r: seq<Transaction>)
    ensures |r| == |s|
    ensures multiset(r) == multiset(s)
    ensures Chronological(r)
  {
    if s == [] then []
    else
      assert s == [s[0]] + s[1..];
      InsertByTime(s[0], SortByTime(s[1..]))
  }

  /** Inserting a transaction contributes to each running balance exactly what it would at the front. */
  lemma {:induction false} InsertKeepsBalance(t: Transaction, s: seq<Transaction>, day: int)
    ensures BalanceUpTo(InsertByTime(t, s), day) == BalanceUpTo([t] + s, day)
  {
    if s == [] || t.at <= s[0].at {
    } else {
      var r := InsertByTime(t, s[1..]);
      InsertKeepsBalance(t, s[1..], day);
      assert ([s[0]] + r)[1..] == r;
      assert ([t] + s[1..])[1..] == s[1..];
      assert ([t] + s)[1..] == s;
    }
  }

  /** Sorting the copy does not change any running balance. */
  lemma {:induction false} SortKeepsBalance(s: seq<Transaction>, day: int)
    ensures BalanceUpTo(SortByTime(s), day) == BalanceUpTo(s, day)
  {
    if s != [] {
      SortKeepsBalance(s[1..], day);
      InsertKeepsBalance(s[0], SortByTime(s[1..]), day);
      assert ([s[0]] + SortByTime(s[1..]))[1..] == SortByTime(s[1..]);
      assert ([s[0]] + s[1..]) == s;
    }
  }
}
