/**
 * The dashboard's statistics: how many transactions are still to be
 * executed, and the efficiency, the share of executed transactions in
 * percent rounded up.
 */
module TransactionStatistics {
  import opened JsValues
  import opened Transactions
  import opened TransactionProperties

  /** `total === 0 ? 100 : Math.ceil((executed / total) * 100)`, in exact
      arithmetic: the least whole percentage not below the executed share. */
  function Efficiency(executed: nat, total: nat): (e: int)
    ensures total == 0 ==> e == 100
    ensures total > 0 ==> e * total >= executed * 100 && (e - 1) * total < executed * 100
  {
    if total == 0 then 100
    else
      var e := (executed * 100 + total - 1) / total;
      CeilingDivision(executed * 100, total);
      e
  }

  /** `(a + b - 1) / b` is the ceiling of `a / b`. */
  lemma CeilingDivision(a: nat, b: nat)
    requires b > 0
    ensures var q := (a + b - 1) / b; q * b >= a && (q - 1) * b < a
  {
    var q, r := (a + b - 1) / b, (a + b - 1) % b;
    assert a + b - 1 == q * b + r && 0 <= r < b;
    assert (q - 1) * b == q * b - b;
  }

  /** With no more executed transactions than the total, the efficiency
      is a percentage. */
  lemma EfficiencyBounds(executed: nat, total: nat)
    requires executed <= total
    ensures 0 <= Efficiency(executed, total) <= 100
  {
    if total > 0 {
      var e := Efficiency(executed, total);
      if e < 0 {
        ScaleMonotone(e, -1, total);
        assert false;
      }
      if e > 100 {
        ScaleMonotone(100, e - 1, total);
        assert false;
      }
    }
  }

  lemma ScaleMonotone(a: int, b: int, c: nat)
    requires a <= b
    ensures a * c <= b * c
  {
    assert b * c - a * c == (b - a) * c;
  }

  /** The transactions `isTransactionExecuted` accepts, counted. */
  function CountExecuted(txs: seq<Transaction>, isExecuted: Transaction -> bool): (n: nat)
    ensures n <= |txs|
    ensures n == |txs| <==> forall i :: 0 <= i < |txs| ==> isExecuted(txs[i])
  {
    if txs == [] then 0
    else
      var rest := CountExecuted(txs[1..], isExecuted);
      assert forall i :: 1 <= i < |txs| ==> txs[1..][i - 1] == txs[i];
      (if isExecuted(txs[0]) then 1 else 0) + rest
  }

  /** The count is additive: counting a page is counting its parts, and a
      single transaction counts 1 exactly when it was executed. Together
      these fix the count as the length of the filtered page. */
  lemma {:induction false} CountExecutedAppend(a: seq<Transaction>, b: seq<Transaction>, isExecuted: Transaction -> bool)
    ensures CountExecuted(a + b, isExecuted) == CountExecuted(a, isExecuted) + CountExecuted(b, isExecuted)
    ensures |a| == 1 ==> CountExecuted(a, isExecuted) == if isExecuted(a[0]) then 1 else 0
  {
    if a == [] {
      assert a + b == b;
    } else {
      assert (a + b)[1..] == a[1..] + b;
      CountExecutedAppend(a[1..], b, isExecuted);
    }
  }

  /** The efficiency `_initialize` computes from the resolved transactions
      is a percentage whatever the chain holds. */
  lemma PastEfficiencyBounds(fetched: seq<Transaction>, isExecuted: Transaction -> bool)
    requires TransactionsFiltered(fetched, None, None, Bool(true)).Success?
    ensures var p := TransactionsFiltered(fetched, None, None, Bool(true)).value;
      0 <= Efficiency(CountExecuted(p.transactions, isExecuted), p.total) <= 100
  {
    var p := TransactionsFiltered(fetched, None, None, Bool(true)).value;
    QueryPage(fetched, 0, DefaultLimit, Bool(true));
    EfficiencyBounds(CountExecuted(p.transactions, isExecuted), p.total);
  }

  /** The upcoming count is the number of unresolved transactions, all of
      them and not only the first page. */
  lemma UpcomingCountsUnresolved(fetched: seq<Transaction>)
    requires TransactionsFiltered(fetched, None, None, Bool(false)).Success?
    ensures TransactionsFiltered(fetched, None, None, Bool(false)).value.total
      == |fetched| - |Matching(fetched, Bool(true))|
  {
    ResolvedPartition(fetched);
  }

  class Statistics {
    var efficiency: int
    var transactionsScheduledInNextHoursAmount: int
    var nextHours: int
    var pastHours: int

    /** The values shown before `_initialize` has run. */
    constructor()
      ensures efficiency == 100 && transactionsScheduledInNextHoursAmount == 10
      ensures nextHours == 24 && pastHours == 24
    {
      efficiency := 100;
      transactionsScheduledInNextHoursAmount := 10;
      nextHours := 24;
      pastHours := 24;
    }

    /** `_initialize`: the unresolved query's total becomes the upcoming
        count, then the resolved query's page gives the efficiency. A query
        that fails stops it, leaving what it had not yet assigned. */
    method Initialize(store: TransactionStore, upcomingFetched: seq<Transaction>, pastFetched: seq<Transaction>,
                      isExecuted: Transaction -> bool)
      modifies this`efficiency, this`transactionsScheduledInNextHoursAmount
      ensures var up := TransactionsFiltered(upcomingFetched, None, None, Bool(false));
        transactionsScheduledInNextHoursAmount
          == if up.Success? then up.value.total else old(transactionsScheduledInNextHoursAmount)
      ensures var up, past := TransactionsFiltered(upcomingFetched, None, None, Bool(false)),
                              TransactionsFiltered(pastFetched, None, None, Bool(true));
        efficiency == if up.Success? && past.Success?
                      then Efficiency(CountExecuted(past.value.transactions, isExecuted), past.value.total)
                      else old(efficiency)
    {
      var upcoming := store.GetTransactionsFiltered(upcomingFetched, None, None, Bool(false));
      if upcoming.FillFailed? {
        return;
      }
      transactionsScheduledInNextHoursAmount := upcoming.value.total;
      var past := store.GetTransactionsFiltered(pastFetched, None, None, Bool(true));
      if past.FillFailed? {
        return;
      }
      var executed := CountExecuted(past.value.transactions, isExecuted);
      var total := past.value.total;
      efficiency := Efficiency(executed, total);
    }
  }
}
