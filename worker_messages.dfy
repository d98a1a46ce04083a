/**
 * The vocabulary of messages exchanged with the TimeNode worker
 * (`TIMENODE_WORKER_MESSAGE_TYPES`): twelve identifiers, each carried on the
 * wire as a fixed string.
 */
module WorkerMessages {
  import opened JsValues

  datatype MessageType =
    | Log
    | Start
    | Started
    | StartScanning
    | StopScanning
    | GetNetworkInfo
    | UpdateStats
    | ClearStats
    | GetClaimedNotExecutedTransactions
    | ReceivedClaimedNotExecutedTransactions
    | BountiesGraphData
    | ProcessedTxs

  /** The entries of the vocabulary object, in declaration order. */
  const Vocabulary: seq<MessageType> := [
    Log, Start, Started, StartScanning, StopScanning, GetNetworkInfo, UpdateStats,
    ClearStats, GetClaimedNotExecutedTransactions, ReceivedClaimedNotExecutedTransactions,
    BountiesGraphData, ProcessedTxs
  ]

  /** Where a type stands in the vocabulary object. */
  function Position(t: MessageType): (i: nat)
    ensures i < |Vocabulary| && Vocabulary[i] == t
  {
    match t
    case Log => 0
    case Start => 1
    case Started => 2
    case StartScanning => 3
    case StopScanning => 4
    case GetNetworkInfo => 5
    case UpdateStats => 6
    case ClearStats => 7
    case GetClaimedNotExecutedTransactions => 8
    case ReceivedClaimedNotExecutedTransactions => 9
    case BountiesGraphData => 10
    case ProcessedTxs => 11
  }

  /** The property name under which a type is declared. */
  function Key(t: MessageType): string
  {
    match t
    case Log => "LOG"
    case Start => "START"
    case Started => "STARTED"
    case StartScanning => "START_SCANNING"
    case StopScanning => "STOP_SCANNING"
    case GetNetworkInfo => "GET_NETWORK_INFO"
    case UpdateStats => "UPDATE_STATS"
    case ClearStats => "CLEAR_STATS"
    case GetClaimedNotExecutedTransactions => "GET_CLAIMED_NOT_EXECUTED_TRANSACTIONS"
    case ReceivedClaimedNotExecutedTransactions => "RECEIVED_CLAIMED_NOT_EXECUTED_TRANSACTIONS"
    case BountiesGraphData => "BOUNTIES_GRAPH_DATA"
    case ProcessedTxs => "PROCESSED_TXS"
  }

  /** The string a type travels as. */
  function ToWire(t: MessageType): string
  {
    match t
    case Log => "log"
    case Start => "start"
    case Started => "started"
    case StartScanning => "start-scanning"
    case StopScanning => "stop-scanning"
    case GetNetworkInfo => "get-network-info"
    case UpdateStats => "update-stats"
    case ClearStats => "clear-stats"
    case GetClaimedNotExecutedTransactions => "get-claimed-not-executed-transactions"
    case ReceivedClaimedNotExecutedTransactions => "received-claimed-not-executed-transactions"
    case BountiesGraphData => "bounties-graph-data"
    case ProcessedTxs => "processed-transactions"
  }

  /** The first of `entries` that travels as `s`. */
  function FindWire(s: string, entries: seq<MessageType>): (r: Option<MessageType>)
    ensures r.Some? ==> ToWire(r.value) == s && r.value in entries
    ensures r.None? ==> forall i :: 0 <= i < |entries| ==> ToWire(entries[i]) != s
  {
    if entries == [] then None
    else if ToWire(entries[0]) == s then Some(entries[0])
    else FindWire(s, entries[1..])
  }

  /** Decodes a wire string; strings outside the vocabulary decode to `None`. */
  function FromWire(s: string): (r: Option<MessageType>)
    ensures r.Some? ==> ToWire(r.value) == s
  {
    FindWire(s, Vocabulary)
  }

  /** The first of `entries` declared under the property name `key`. */
  function FindKey(key: string, entries: seq<MessageType>): (r: Option<MessageType>)
    ensures r.Some? ==> Key(r.value) == key && r.value in entries
    ensures r.None? ==> forall i :: 0 <= i < |entries| ==> Key(entries[i]) != key
  {
    if entries == [] then None
    else if Key(entries[0]) == key then Some(entries[0])
    else FindKey(key, entries[1..])
  }

  /** The type declared under a property name of the vocabulary object;
      `None` for a name it does not declare. */
  function Declared(key: string): (r: Option<MessageType>)
    ensures r.Some? ==> Key(r.value) == key
  {
    FindKey(key, Vocabulary)
  }

  /** The JavaScript value of `TIMENODE_WORKER_MESSAGE_TYPES.<key>`: the wire
      string of the declared type, `undefined` for an undeclared key. */
  function Lookup(key: string): Value
  {
    match Declared(key)
    case Some(t) => Str(ToWire(t))
    case None => Undefined
  }

  /** Every type is found under its own property name. */
  lemma DeclaredComplete(t: MessageType)
    ensures Declared(Key(t)) == Some(t)
  {
    var r := Declared(Key(t));
    var i := Position(t);
    assert r.Some?;
    KeyInjective(r.value, t);
  }

  /** A lookup is `undefined` exactly when no type is declared under the key,
      and otherwise the wire string of the type declared there. */
  lemma LookupUndefinedIff(key: string)
    ensures Lookup(key) == Undefined <==> forall t :: Key(t) != key
    ensures forall t :: Key(t) == key ==> Lookup(key) == Str(ToWire(t))
  {
    forall t | Key(t) == key
      ensures Lookup(key) == Str(ToWire(t))
    {
      DeclaredComplete(t);
    }
  }

  /** The value of a declared type, as the stores compare and post it:
      its wire string (`TypeValueIsLookup` shows this is the lookup). */
  function TypeValue(t: MessageType): Value
  {
    Str(ToWire(t))
  }

  /** The value of `TIMENODE_WORKER_MESSAGE_TYPES.UPDATE_BALANCES`, which the
      TimeNode store posts and compares against although the vocabulary does
      not declare it (`UpdateBalancesUndeclared` shows it is the lookup). */
  const UpdateBalancesValue: Value := Undefined

  /** Decoding an encoded type gives the type back. */
  lemma DecodeEncode(t: MessageType)
    ensures FromWire(ToWire(t)) == Some(t)
  {
    var r := FromWire(ToWire(t));
    var i := Position(t);
    assert r.Some?;
    WireInjective(r.value, t);
  }

  /** Distinct types are declared under distinct property names. */
  lemma KeyInjective(a: MessageType, b: MessageType)
    ensures Key(a) == Key(b) ==> a == b
  {
  }

  /** Distinct types travel as distinct strings. */
  lemma WireInjective(a: MessageType, b: MessageType)
    ensures ToWire(a) == ToWire(b) ==> a == b
  {
  }

  /** The value of a declared type is what looking up its key gives, so
      the values the stores compare against are pairwise distinct. */
  lemma TypeValueIsLookup(t: MessageType)
    ensures Lookup(Key(t)) == TypeValue(t)
    ensures forall u :: TypeValue(u) == TypeValue(t) ==> u == t
  {
    DeclaredComplete(t);
    forall u | TypeValue(u) == TypeValue(t) ensures u == t {
      WireInjective(u, t);
    }
  }

  /** The vocabulary has exactly twelve entries and lists every type. */
  lemma VocabularyComplete()
    ensures |Vocabulary| == 12
    ensures forall t :: t in Vocabulary
  {
    forall t ensures t in Vocabulary {
      var i := Position(t);
    }
  }

  /** No type is listed twice. */
  lemma VocabularyDistinct()
    ensures forall i, j :: 0 <= i < j < |Vocabulary| ==> Vocabulary[i] != Vocabulary[j]
  {
    forall i, j | 0 <= i < j < |Vocabulary| ensures Vocabulary[i] != Vocabulary[j] {
      assert Position(Vocabulary[i]) == i;
      assert Position(Vocabulary[j]) == j;
    }
  }

  /** The vocabulary declares no `UPDATE_BALANCES`, whose lookup is therefore
      `undefined`, and no type travels as the string such a type would use. */
  lemma UpdateBalancesUndeclared()
    ensures Lookup("UPDATE_BALANCES") == UpdateBalancesValue
    ensures FromWire("update-balances") == None
  {
    var d := Declared("UPDATE_BALANCES");
    if d.Some? {
      NotBalances(d.value);
    }
    var w := FromWire("update-balances");
    if w.Some? {
      NotBalances(w.value);
    }
  }

  /** No type is declared or travels under a balances name. */
  lemma NotBalances(t: MessageType)
    ensures Key(t) != "UPDATE_BALANCES"
    ensures ToWire(t) != "update-balances"
  {
    match t
    case Log =>
    case Start =>
    case Started =>
    case StartScanning =>
    case StopScanning =>
    case GetNetworkInfo =>
    case UpdateStats =>
    case ClearStats =>
    case GetClaimedNotExecutedTransactions =>
    case ReceivedClaimedNotExecutedTransactions =>
    case BountiesGraphData =>
    case ProcessedTxs =>
  }

  /** Pairs that are easy to confuse are nevertheless distinct. */
  lemma ConfusablePairsDistinct()
    ensures ToWire(Start) != ToWire(Started)
    ensures ToWire(GetClaimedNotExecutedTransactions) != ToWire(ReceivedClaimedNotExecutedTransactions)
    ensures TypeValue(UpdateStats) != UpdateBalancesValue
  {
  }
}
