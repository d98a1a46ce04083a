/**
 * The transaction store of the scheduling dashboard: the status a scheduled
 * transaction is shown with, whether it has reached a final state, the
 * paginated queries over the transactions fetched from the request factory,
 * loading every transaction with its status, and the address filter.
 *
 * A transaction is modelled by what the chain says about it once its
 * `fillData` has resolved; `fillSucceeds` says whether that call resolves.
 */
module Transactions {
  import opened JsValues

  /** `TRANSACTION_STATUS`. */
  datatype TxStatus = Scheduled | Executed | Failed | Cancelled | Missed

  /** The text each status is shown with. */
  function StatusText(st: TxStatus): (text: string)
    ensures text == "Not executed" <==> st == Missed
    ensures text == "Scheduled" <==> st == Scheduled
  {
    match st
    case Scheduled => "Scheduled"
    case Executed => "Executed"
    case Failed => "Failed"
    case Cancelled => "Cancelled"
    case Missed => "Not executed"
  }

  /** `DEFAULT_LIMIT`: the page size when a query gives none. */
  const DefaultLimit: int := 10

  /** `TEMPORAL_UNIT`: how a transaction's execution window is measured. */
  const TemporalBlock: int := 1
  const TemporalTimestamp: int := 2

  /** A transaction request as the library hands it over: its address, its
      temporal unit, the chain's facts about it (`wasSuccessful` standing
      for `data.meta.wasSuccessful`, `afterExecutionWindow` for what
      `afterExecutionWindow()` resolves to), whether its `fillData` resolves,
      and the `status` the store writes into it. */
  datatype Transaction = Transaction(
    address: string,
    temporalUnit: int,
    wasCalled: bool,
    wasSuccessful: bool,
    isCancelled: bool,
    afterExecutionWindow: bool,
    fillSucceeds: bool,
    status: Option<TxStatus>)

  /** `isTransactionMissed`: the execution window has closed and nobody called it. */
  predicate IsMissed(tx: Transaction): (missed: bool)
    ensures missed ==> !tx.wasCalled
    ensures !tx.afterExecutionWindow ==> !missed
  {
    tx.afterExecutionWindow && !tx.wasCalled
  }

  /** `isTransactionResolved`: missed, called or cancelled. */
  predicate IsResolved(tx: Transaction): (resolved: bool)
    ensures IsMissed(tx) ==> resolved
    ensures !resolved <==> !tx.afterExecutionWindow && !tx.wasCalled && !tx.isCancelled
  {
    IsMissed(tx) || tx.wasCalled || tx.isCancelled
  }

  /** `getTxStatus`: Scheduled, overwritten by the call's outcome, then by
      cancellation, then by having been missed. */
  function TxStatusOf(tx: Transaction): (st: TxStatus)
    ensures st == Missed <==> IsMissed(tx)
    ensures !IsMissed(tx) && tx.isCancelled ==> st == Cancelled
    ensures !IsMissed(tx) && !tx.isCancelled && tx.wasCalled ==> st == (if tx.wasSuccessful then Executed else Failed)
    ensures st == Scheduled <==> !IsResolved(tx)
  {
    var initial := Scheduled;
    var called := if tx.wasCalled then (if tx.wasSuccessful then Executed else Failed) else initial;
    var cancelled := if tx.isCancelled then Cancelled else called;
    if IsMissed(tx) then Missed else cancelled
  }

  /** `isTxUnitTimestamp`: of the two temporal units, the one that is not
      the block. */
  predicate IsTxUnitTimestamp(tx: Transaction): (timestamp: bool)
    ensures tx.temporalUnit == TemporalBlock ==> !timestamp
    ensures tx.temporalUnit == TemporalBlock || tx.temporalUnit == TemporalTimestamp ==>
              (timestamp <==> tx.temporalUnit != TemporalBlock)
  {
    tx.temporalUnit == TemporalTimestamp
  }

  // ---------------------------------------------------------------------
  // Pagination

  /** How `Array.prototype.slice` reads a bound: a negative bound counts
      from the end; the result is clamped to `[0, len]`. */
  function SliceBound(x: int, len: nat): (b: nat)
    ensures b <= len
    ensures 0 <= x ==> b == if x < len then x else len
    ensures x < 0 ==> b == if len + x < 0 then 0 else len + x
  {
    if x < 0 then (if len + x < 0 then 0 else len + x)
    else if x < len then x else len
  }

  /** `s.slice(start, end)`. */
  function Slice<T>(s: seq<T>, start: int, end: int): (r: seq<T>)
    ensures |r| <= |s|
    ensures 0 <= start <= end ==> |r| <= end - start
    ensures |r| == if SliceBound(start, |s|) < SliceBound(end, |s|) then SliceBound(end, |s|) - SliceBound(start, |s|) else 0
    ensures forall i :: 0 <= i < |r| ==> SliceBound(start, |s|) + i < |s| && r[i] == s[SliceBound(start, |s|) + i]
  {
    var lo, hi := SliceBound(start, |s|), SliceBound(end, |s|);
    if lo < hi then s[lo..hi] else []
  }

  /** The transactions whose resolution is `=== resolved`, in their order
      (a `resolved` that is not a boolean matches none). */
  function Matching(txs: seq<Transaction>, resolved: Value): (r: seq<Transaction>)
    ensures |r| <= |txs|
    ensures forall i :: 0 <= i < |r| ==> r[i] in txs && resolved == Bool(IsResolved(r[i]))
  {
    if txs == [] then []
    else
      var init, last := Matching(txs[..|txs| - 1], resolved), txs[|txs| - 1];
      if resolved == Bool(IsResolved(last)) then init + [last] else init
  }

  /** Index of the first transaction whose `fillData` rejects, or `|txs|`. */
  function FirstUnfillable(txs: seq<Transaction>): (k: nat)
    ensures k <= |txs|
    ensures k < |txs| ==> !txs[k].fillSucceeds
    ensures forall j :: 0 <= j < k ==> txs[j].fillSucceeds
  {
    if txs == [] then 0
    else if !txs[0].fillSucceeds then 0
    else 1 + FirstUnfillable(txs[1..])
  }

  /** A page of a query: the transactions on it and the number of
      transactions the query matched before slicing. */
  datatype Page = Page(transactions: seq<Transaction>, total: nat)

  /** What a query resolves to, or the index of the transaction whose
      `fillData` rejected it. */
  datatype Result<T> = Success(value: T) | FillFailed(index: nat)

  /** `queryTransactions`: the transactions whose resolution is `resolved`,
      counted, then sliced to `[offset, offset + limit)`. */
  function Query(txs: seq<Transaction>, offset: int, limit: int, resolved: Value): (r: Result<Page>)
    ensures r.FillFailed? ==> r.index < |txs| && !txs[r.index].fillSucceeds
    ensures r.Success? ==> (forall i :: 0 <= i < |txs| ==> txs[i].fillSucceeds)
                           && r.value.total == |Matching(txs, resolved)|
                           && |r.value.transactions| <= r.value.total
  {
    var k := FirstUnfillable(txs);
    if k < |txs| then FillFailed(k)
    else
      var matching := Matching(txs, resolved);
      Success(Page(Slice(matching, offset, offset + limit), |matching|))
  }

  /** `getTransactionsFiltered`: `limit` defaults to `DEFAULT_LIMIT` and
      `offset` to 0; with `resolved` undefined every fetched transaction
      counts and none is filled. */
  function TransactionsFiltered(fetched: seq<Transaction>, offset: Option<int>, limit: Option<int>,
                                resolved: Value): (r: Result<Page>)
    ensures resolved == Undefined ==> r.Success? && r.value.total == |fetched|
    ensures resolved != Undefined ==> (r.Success? <==> forall i :: 0 <= i < |fetched| ==> fetched[i].fillSucceeds)
    ensures r.Success? ==> |r.value.transactions| <= r.value.total
    ensures var off := if offset.Some? then offset.value else 0;
            var lim := if limit.Some? then limit.value else DefaultLimit;
            (resolved != Undefined ==> r == Query(fetched, off, lim, resolved))
            && (resolved == Undefined ==> r.Success? && r.value.transactions == Slice(fetched, off, off + lim))
  {
    var off := if offset.Some? then offset.value else 0;
    var lim := if limit.Some? then limit.value else DefaultLimit;
    if resolved != Undefined then Query(fetched, off, lim, resolved)
    else Success(Page(Slice(fetched, off, off + lim), |fetched|))
  }

  // ---------------------------------------------------------------------
  // Loading every transaction

  /** A transaction with its status written in. */
  function Stamped(tx: Transaction): Transaction
  {
    tx.(status := Some(TxStatusOf(tx)))
  }

  function StampAll(txs: seq<Transaction>): (r: seq<Transaction>)
    ensures |r| == |txs|
    ensures forall i :: 0 <= i < |txs| ==> r[i] == Stamped(txs[i])
  {
    if txs == [] then [] else StampAll(txs[..|txs| - 1]) + [Stamped(txs[|txs| - 1])]
  }

  /** What `getAllTransactions` leaves in `allTransactions`: every
      transaction before the first whose `fillData` rejects carries its
      status; that one and the ones after it are left as fetched. */
  function LoadAll(fetched: seq<Transaction>): (r: seq<Transaction>)
    ensures |r| == |fetched|
    ensures forall i :: 0 <= i < |r| ==> r[i].address == fetched[i].address
    ensures forall i :: 0 <= i < FirstUnfillable(fetched) ==> r[i].status == Some(TxStatusOf(fetched[i]))
    ensures forall i :: FirstUnfillable(fetched) <= i < |r| ==> r[i] == fetched[i]
  {
    var k := FirstUnfillable(fetched);
    StampAll(fetched[..k]) + fetched[k..]
  }

  // ---------------------------------------------------------------------
  // The address filter

  function LowerChar(c: char): char
  {
    if 'A' <= c <= 'Z' then (c as int + 32) as char else c
  }

  /** ASCII lower case, the case folding of a case-insensitive match. */
  function Lower(s: string): (r: string)
    ensures |r| == |s|
    ensures forall i :: 0 <= i < |s| ==> r[i] == LowerChar(s[i])
  {
    if s == [] then [] else [LowerChar(s[0])] + Lower(s[1..])
  }

  /** The filter of `filteredTransactions`: an empty filter keeps every
      address, another keeps the addresses that contain it, ignoring case. */
  predicate MatchesFilter(filter: string, address: string): (keep: bool)
    ensures filter == "" ==> keep
    ensures Lower(filter) == Lower(address) ==> keep
  {
    filter == "" || HasSubstring(Lower(address), Lower(filter))
  }

  function FilterByAddress(txs: seq<Transaction>, filter: string): (r: seq<Transaction>)
    ensures |r| <= |txs|
    ensures forall tx :: tx in r <==> tx in txs && MatchesFilter(filter, tx.address)
  {
    if txs == [] then []
    else
      var rest := FilterByAddress(txs[1..], filter);
      assert txs == [txs[0]] + txs[1..];
      if MatchesFilter(filter, txs[0].address) then [txs[0]] + rest else rest
  }

  // ---------------------------------------------------------------------
  // The store

  class TransactionStore {
    /** The transactions of the last `getAllTransactions`; `None` until one ran. */
    var allTransactions: Option<seq<Transaction>>
    /** The address filter; the empty string also stands for "not set". */
    var filter: string

    constructor()
      ensures allTransactions == None && filter == ""
    {
      allTransactions := None;
      filter := "";
    }

    /** `filteredTransactions`: undefined until the transactions are
        loaded, then the loaded transactions whose address matches. */
    function FilteredTransactions(): (r: Option<seq<Transaction>>)
      reads this
      ensures r.Some? <==> allTransactions.Some?
      ensures r.Some? ==> forall tx :: tx in r.value <==> tx in allTransactions.value && MatchesFilter(filter, tx.address)
    {
      if allTransactions.Some? then Some(FilterByAddress(allTransactions.value, filter)) else None
    }

    /** `queryTransactions`: fills each transaction in turn, keeps those
        whose resolution is `resolved`, then counts and slices. */
    method QueryTransactions(transactions: seq<Transaction>, offset: int, limit: int, resolved: Value)
      returns (r: Result<Page>)
      ensures r == Query(transactions, offset, limit, resolved)
    {
      var processed: seq<Transaction> := [];
      var i := 0;
      while i < |transactions|
        invariant 0 <= i <= |transactions|
        invariant forall j :: 0 <= j < i ==> transactions[j].fillSucceeds
        invariant processed == Matching(transactions[..i], resolved)
      {
        if !transactions[i].fillSucceeds {
          return FillFailed(i);
        }
        assert transactions[..i + 1][..i] == transactions[..i];
        if Bool(IsResolved(transactions[i])) == resolved {
          processed := processed + [transactions[i]];
        }
        i := i + 1;
      }
      assert transactions[..i] == transactions;
      var total := |processed|;
      return Success(Page(Slice(processed, offset, offset + limit), total));
    }

    /** `getTransactionsFiltered` over the transactions `getTransactions` fetched. */
    method GetTransactionsFiltered(fetched: seq<Transaction>, offset: Option<int>, limit: Option<int>,
                                   resolved: Value)
      returns (r: Result<Page>)
      ensures r == TransactionsFiltered(fetched, offset, limit, resolved)
    {
      var off := if offset.Some? then offset.value else 0;
      var lim := if limit.Some? then limit.value else DefaultLimit;
      if resolved != Undefined {
        r := QueryTransactions(fetched, off, lim, resolved);
        return;
      }
      var total := |fetched|;
      r := Success(Page(Slice(fetched, off, off + lim), total));
    }

    /** `getAllTransactions`: publishes the fetched transactions, then fills
        each in turn and writes its status, stopping at the first whose
        `fillData` rejects (returned as `failedAt`). */
    method GetAllTransactions(fetched: seq<Transaction>) returns (failedAt: Option<nat>)
      modifies this`allTransactions
      ensures allTransactions == Some(LoadAll(fetched))
      ensures failedAt == if FirstUnfillable(fetched) < |fetched| then Some(FirstUnfillable(fetched)) else None
    {
      allTransactions := Some(fetched);
      var i := 0;
      assert StampAll(fetched[..0]) + fetched[0..] == fetched;
      while i < |fetched|
        invariant 0 <= i <= |fetched|
        invariant forall j :: 0 <= j < i ==> fetched[j].fillSucceeds
        invariant allTransactions == Some(StampAll(fetched[..i]) + fetched[i..])
      {
        if !fetched[i].fillSucceeds {
          FirstUnfillableAt(fetched, i);
          return Some(i);
        }
        StampStep(fetched, i);
        allTransactions := Some(allTransactions.value[i := Stamped(fetched[i])]);
        i := i + 1;
      }
      FirstUnfillableAt(fetched, i);
      assert fetched[..i] == fetched;
      return None;
    }
  }

  /** Writing the status of the next transaction extends the stamped prefix by one. */
  lemma StampStep(txs: seq<Transaction>, i: nat)
    requires i < |txs|
    ensures (StampAll(txs[..i]) + txs[i..])[i := Stamped(txs[i])] == StampAll(txs[..i + 1]) + txs[i + 1..]
  {
    assert txs[..i + 1][..i] == txs[..i];
  }

  /** The first failing index is the one a scan that found all earlier ones filling stops at. */
  lemma FirstUnfillableAt(txs: seq<Transaction>, i: nat)
    requires i <= |txs|
    requires forall j :: 0 <= j < i ==> txs[j].fillSucceeds
    requires i < |txs| ==> !txs[i].fillSucceeds
    ensures FirstUnfillable(txs) == i
  {
  }
}
