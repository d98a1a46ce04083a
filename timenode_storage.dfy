/**
 * What the TimeNode store keeps in its key/value storage service: the
 * session keys, and one entry per economic-strategy parameter, read back
 * with a fallback to the library's default strategy.
 */
module TimeNodeStorage {
  import opened JsValues

  const AttachedDayAccountKey: string := "attachedDAYAccount"
  const TimeNodeKey: string := "tn"
  const ClaimingKey: string := "claiming"
  const ScanningKey: string := "isTimenodeScanning"
  const ProviderIdKey: string := "selectedProviderId"
  const ProviderEndpointKey: string := "selectedProviderEndpoint"

  /** The storage service's contents; a missing key loads as null. */
  type Storage = map<string, Value>

  function Load(storage: Storage, key: string): Value
  {
    if key in storage then storage[key] else Null
  }

  /** The parameters of the economic strategy. */
  datatype StrategyKey =
    | MaxDeposit
    | MinBalance
    | MinProfitability
    | MaxGasSubsidy
    | MinClaimWindow
    | MinClaimWindowBlock
    | MinExecutionWindow
    | MinExecutionWindowBlock

  /** The storage key (and property name) of a strategy parameter. */
  function StrategyName(k: StrategyKey): string
  {
    match k
    case MaxDeposit => "maxDeposit"
    case MinBalance => "minBalance"
    case MinProfitability => "minProfitability"
    case MaxGasSubsidy => "maxGasSubsidy"
    case MinClaimWindow => "minClaimWindow"
    case MinClaimWindowBlock => "minClaimWindowBlock"
    case MinExecutionWindow => "minExecutionWindow"
    case MinExecutionWindowBlock => "minExecutionWindowBlock"
  }

  const StrategyKeys: set<StrategyKey> := {
    MaxDeposit, MinBalance, MinProfitability, MaxGasSubsidy,
    MinClaimWindow, MinClaimWindowBlock, MinExecutionWindow, MinExecutionWindowBlock
  }

  /** The keys the store's session operations save and remove. */
  const SessionKeys: set<string> := {
    AttachedDayAccountKey, TimeNodeKey, ClaimingKey, ScanningKey, ProviderIdKey, ProviderEndpointKey
  }

  /** A strategy parameter as the `economicStrategy` getter reads it: the
      stored value when it is truthy, otherwise the library default
      (`defaults` gives the default's string form). */
  function LoadStrategy(storage: Storage, defaults: StrategyKey -> string, k: StrategyKey): (v: Value)
    ensures Truthy(Load(storage, StrategyName(k))) ==> v == Load(storage, StrategyName(k))
    ensures !Truthy(Load(storage, StrategyName(k))) ==> v == Str(defaults(k))
  {
    var loaded := Load(storage, StrategyName(k));
    if Truthy(loaded) then loaded else Str(defaults(k))
  }

  /** The `economicStrategy` getter: every parameter, loaded or defaulted. */
  function EconomicStrategy(storage: Storage, defaults: StrategyKey -> string): map<StrategyKey, Value>
  {
    map k | k in StrategyKeys :: LoadStrategy(storage, defaults, k)
  }

  /** The strategy has exactly the parameters, each as `LoadStrategy` gives it. */
  lemma EconomicStrategyComplete(storage: Storage, defaults: StrategyKey -> string)
    ensures EconomicStrategy(storage, defaults).Keys == StrategyKeys
    ensures forall k :: k in EconomicStrategy(storage, defaults) ==>
              EconomicStrategy(storage, defaults)[k] == LoadStrategy(storage, defaults, k)
  {
  }

  /** What `saveClaimingStrategy` stores for a truthy value: `maxGasSubsidy`
      as given, every other parameter converted by `toWei`. */
  function StoredForm(key: string, v: Value, toWei: Value -> Value): Value
  {
    if key == "maxGasSubsidy" then v else toWei(v)
  }

  /** One step of the `saveClaimingStrategy` loop: a truthy value is saved,
      a falsy one removes the key. */
  function SaveEntry(storage: Storage, key: string, v: Value, toWei: Value -> Value): Storage
  {
    if Truthy(v) then storage[key := StoredForm(key, v, toWei)] else storage - {key}
  }

  /** The loop over the strategy object's entries, in order. */
  function SaveEntries(storage: Storage, entries: seq<(string, Value)>, toWei: Value -> Value): Storage
  {
    if entries == [] then storage
    else
      var last := entries[|entries| - 1];
      SaveEntry(SaveEntries(storage, entries[..|entries| - 1], toWei), last.0, last.1, toWei)
  }

  /** The loop over one more entry saves that entry last. */
  lemma SaveEntriesStep(storage: Storage, entries: seq<(string, Value)>, i: nat, toWei: Value -> Value)
    requires i < |entries|
    ensures SaveEntries(storage, entries[..i + 1], toWei)
      == SaveEntry(SaveEntries(storage, entries[..i], toWei), entries[i].0, entries[i].1, toWei)
  {
    assert entries[..i + 1][..i] == entries[..i];
  }

  /** The claiming flag's part of `saveClaimingStrategy`. */
  function SaveClaimingFlag(storage: Storage, claiming: bool): Storage
  {
    if claiming then storage[ClaimingKey := Bool(true)] else storage - {ClaimingKey}
  }

  /** The keys of an object are distinct. */
  predicate DistinctKeys(entries: seq<(string, Value)>)
  {
    forall i, j :: 0 <= i < j < |entries| ==> entries[i].0 != entries[j].0
  }

  /** Saving a strategy object: every truthy entry is stored (in stored form),
      every falsy entry's key is absent, every other key is untouched. */
  lemma {:induction false} SaveEntriesEffect(storage: Storage, entries: seq<(string, Value)>, toWei: Value -> Value)
    requires DistinctKeys(entries)
    ensures var r := SaveEntries(storage, entries, toWei);
      forall i :: 0 <= i < |entries| ==>
        (Truthy(entries[i].1) ==> entries[i].0 in r && r[entries[i].0] == StoredForm(entries[i].0, entries[i].1, toWei)) &&
        (!Truthy(entries[i].1) ==> entries[i].0 !in r)
    ensures var r := SaveEntries(storage, entries, toWei);
      forall key :: (forall i :: 0 <= i < |entries| ==> entries[i].0 != key) ==> Load(r, key) == Load(storage, key)
  {
    if entries != [] {
      var n := |entries| - 1;
      var prefix := entries[..n];
      assert DistinctKeys(prefix) by {
        forall i, j | 0 <= i < j < |prefix| ensures prefix[i].0 != prefix[j].0 {
          assert prefix[i] == entries[i] && prefix[j] == entries[j];
        }
      }
      SaveEntriesEffect(storage, prefix, toWei);
      var before := SaveEntries(storage, prefix, toWei);
      var r := SaveEntries(storage, entries, toWei);
      assert r == SaveEntry(before, entries[n].0, entries[n].1, toWei);
      forall i | 0 <= i < n
        ensures Truthy(entries[i].1) ==> entries[i].0 in r && r[entries[i].0] == StoredForm(entries[i].0, entries[i].1, toWei)
        ensures !Truthy(entries[i].1) ==> entries[i].0 !in r
      {
        assert prefix[i] == entries[i];
        assert entries[i].0 != entries[n].0;
      }
      forall key | forall i :: 0 <= i < |entries| ==> entries[i].0 != key
        ensures Load(r, key) == Load(storage, key)
      {
        assert entries[n].0 != key;
        assert forall i :: 0 <= i < |prefix| ==> prefix[i].0 != key by {
          forall i | 0 <= i < |prefix| ensures prefix[i].0 != key {
            assert prefix[i] == entries[i];
          }
        }
      }
    }
  }

  /** The names of the strategy parameters and of the session keys are all
      distinct, so saving a strategy never touches the session keys and
      removing a session key never touches the strategy. */
  lemma StrategyNamesApart(a: StrategyKey, b: StrategyKey)
    ensures StrategyName(a) == StrategyName(b) ==> a == b
    ensures StrategyName(a) !in SessionKeys
  {
  }

  /** Removing a session key leaves the economic strategy as it was. */
  lemma SessionKeyRemovalKeepsStrategy(storage: Storage, key: string, defaults: StrategyKey -> string)
    requires key in SessionKeys
    ensures EconomicStrategy(storage - {key}, defaults) == EconomicStrategy(storage, defaults)
  {
    forall k | k in StrategyKeys
      ensures LoadStrategy(storage - {key}, defaults, k) == LoadStrategy(storage, defaults, k)
    {
      StrategyNamesApart(k, k);
      assert Load(storage - {key}, StrategyName(k)) == Load(storage, StrategyName(k));
    }
  }

  /** Read back after saving: a falsy value for a parameter makes the getter
      fall back to the default; a truthy `maxGasSubsidy` reads back as given;
      another truthy parameter reads back converted, whenever the conversion is truthy. */
  lemma {:induction false} SavedStrategyReadsBack(storage: Storage, entries: seq<(string, Value)>,
                                                 toWei: Value -> Value, defaults: StrategyKey -> string,
                                                 i: nat, k: StrategyKey)
    requires DistinctKeys(entries)
    requires i < |entries| && entries[i].0 == StrategyName(k)
    ensures var after := SaveEntries(storage, entries, toWei);
      && (!Truthy(entries[i].1) ==> LoadStrategy(after, defaults, k) == Str(defaults(k)))
      && (Truthy(entries[i].1) && k == MaxGasSubsidy ==> LoadStrategy(after, defaults, k) == entries[i].1)
      && (Truthy(entries[i].1) && k != MaxGasSubsidy && Truthy(toWei(entries[i].1)) ==>
            LoadStrategy(after, defaults, k) == toWei(entries[i].1))
  {
    SaveEntriesEffect(storage, entries, toWei);
  }
}
