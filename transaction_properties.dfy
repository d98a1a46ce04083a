/**
 * What the transaction store's rules promise: resolution splits the fetched
 * transactions into the scheduled ones and the rest, the queries keep the
 * fetched order and report the count before slicing, and the address filter
 * ignores case.
 */
module TransactionProperties {
  import opened JsValues
  import opened Transactions

  /** A status other than Scheduled is exactly a resolved transaction; a
      missed one reads "Not executed" whatever else is true of it. */
  lemma StatusOfResolution(tx: Transaction)
    ensures IsResolved(tx) <==> TxStatusOf(tx) != Scheduled
    ensures IsMissed(tx) ==> StatusText(TxStatusOf(tx)) == "Not executed"
    ensures tx.isCancelled && !IsMissed(tx) ==> StatusText(TxStatusOf(tx)) == "Cancelled"
  {
  }

  /** Matching keeps the fetched order: matching a concatenation is
      matching each part. */
  lemma {:induction false} MatchingConcat(a: seq<Transaction>, b: seq<Transaction>, resolved: Value)
    ensures Matching(a + b, resolved) == Matching(a, resolved) + Matching(b, resolved)
    decreases |b|
  {
    if b == [] {
      assert a + b == a;
    } else {
      var b' := b[..|b| - 1];
      assert (a + b)[..|a + b| - 1] == a + b';
      assert (a + b)[|a + b| - 1] == b[|b| - 1];
      MatchingConcat(a, b', resolved);
    }
  }

  /** Every transaction whose resolution is `resolved` is matched. */
  lemma {:induction false} MatchingComplete(txs: seq<Transaction>, resolved: Value, tx: Transaction)
    requires tx in txs && resolved == Bool(IsResolved(tx))
    ensures tx in Matching(txs, resolved)
    decreases |txs|
  {
    var init, last := txs[..|txs| - 1], txs[|txs| - 1];
    assert txs == init + [last];
    if tx != last {
      assert tx in init;
      MatchingComplete(init, resolved, tx);
    }
  }

  /** A `resolved` that is not a boolean is `===` to no resolution. */
  lemma {:induction false} MatchingNonBoolean(txs: seq<Transaction>, resolved: Value)
    requires !resolved.Bool?
    ensures Matching(txs, resolved) == []
    decreases |txs|
  {
    if txs != [] {
      MatchingNonBoolean(txs[..|txs| - 1], resolved);
    }
  }

  /** The resolved and the unresolved transactions together are all of them. */
  lemma {:induction false} ResolvedPartition(txs: seq<Transaction>)
    ensures |Matching(txs, Bool(true))| + |Matching(txs, Bool(false))| == |txs|
    decreases |txs|
  {
    if txs != [] {
      ResolvedPartition(txs[..|txs| - 1]);
    }
  }

  /** The unresolved transactions are exactly the ones shown as Scheduled. */
  lemma UnresolvedAreScheduled(txs: seq<Transaction>, tx: Transaction)
    ensures tx in Matching(txs, Bool(false)) <==> tx in txs && TxStatusOf(tx) == Scheduled
  {
    if tx in txs && TxStatusOf(tx) == Scheduled {
      MatchingComplete(txs, Bool(false), tx);
    }
  }

  /** A page of `queryTransactions`: it is the slice `[offset, offset + limit)`
      of the matches, so with non-negative bounds it holds `limit`
      transactions, or what is left after `offset`; each was fetched and has
      the asked-for resolution, and the total counts every match before
      slicing. */
  lemma QueryPage(txs: seq<Transaction>, offset: int, limit: int, resolved: Value)
    requires Query(txs, offset, limit, resolved).Success?
    ensures var p := Query(txs, offset, limit, resolved).value;
      && p.total == |Matching(txs, resolved)|
      && p.transactions == Slice(Matching(txs, resolved), offset, offset + limit)
      && |p.transactions| <= p.total
      && (0 <= offset && 0 <= limit ==>
            |p.transactions| == if p.total <= offset then 0 else if offset + limit <= p.total then limit else p.total - offset)
      && (forall tx :: tx in p.transactions ==> tx in txs && resolved == Bool(IsResolved(tx)))
  {
    var m := Matching(txs, resolved);
    var p := Query(txs, offset, limit, resolved).value;
    assert p.transactions == Slice(m, offset, offset + limit);
    forall tx | tx in p.transactions
      ensures tx in txs && resolved == Bool(IsResolved(tx))
    {
      var i :| 0 <= i < |p.transactions| && p.transactions[i] == tx;
      assert tx == m[SliceBound(offset, |m|) + i];
    }
  }

  /** A query fails exactly when some fetched transaction cannot be filled. */
  lemma QueryFails(txs: seq<Transaction>, offset: int, limit: int, resolved: Value)
    ensures Query(txs, offset, limit, resolved).FillFailed? <==> exists i :: 0 <= i < |txs| && !txs[i].fillSucceeds
  {
    var k := FirstUnfillable(txs);
    if k == |txs| {
      assert forall i :: 0 <= i < |txs| ==> txs[i].fillSucceeds;
    }
  }

  /** Without `resolved`, `offset` or `limit`: the first ten fetched
      transactions, out of all of them, and nothing is filled. */
  lemma FilteredDefaults(fetched: seq<Transaction>)
    ensures TransactionsFiltered(fetched, None, None, Undefined)
      == Success(Page(fetched[..if |fetched| < 10 then |fetched| else 10], |fetched|))
  {
    var r := Slice(fetched, 0, 10);
    var n := if |fetched| < 10 then |fetched| else 10;
    assert r == fetched[..n];
  }

  // ---------------------------------------------------------------------
  // The address filter

  lemma {:induction false} LowerIdempotent(s: string)
    ensures Lower(Lower(s)) == Lower(s)
  {
    var l := Lower(s);
    forall i | 0 <= i < |s|
      ensures Lower(l)[i] == l[i]
    {
      assert l[i] == LowerChar(s[i]);
    }
  }

  /** The match ignores the case of the address and of the filter. */
  lemma FilterIgnoresCase(filter: string, address: string)
    requires filter != ""
    ensures MatchesFilter(filter, address) == MatchesFilter(filter, Lower(address))
    ensures MatchesFilter(filter, address) == MatchesFilter(Lower(filter), address)
  {
    LowerIdempotent(address);
    LowerIdempotent(filter);
  }

  /** An empty filter shows every loaded transaction, in order. */
  lemma {:induction false} EmptyFilterKeepsAll(txs: seq<Transaction>)
    ensures FilterByAddress(txs, "") == txs
  {
    if txs != [] {
      EmptyFilterKeepsAll(txs[1..]);
      assert txs == [txs[0]] + txs[1..];
    }
  }

  /** `getAllTransactions` when every transaction fills: every loaded
      transaction carries its status, and none of them is lost. */
  lemma LoadAllFilled(fetched: seq<Transaction>)
    requires forall i :: 0 <= i < |fetched| ==> fetched[i].fillSucceeds
    ensures forall i :: 0 <= i < |fetched| ==> LoadAll(fetched)[i] == Stamped(fetched[i])
  {
    FirstUnfillableAt(fetched, |fetched|);
    assert fetched[..|fetched|] == fetched;
  }
}
