/**
 * What the TimeNode store's calls and the worker's replies do to the store,
 * one operation at a time: the scanning switches, detaching the wallet,
 * restarting and unlocking, saving the claiming strategy, attaching a DAY
 * account, the reply handler's arms and the resolver slot of
 * `getClaimedNotExecutedTransactions`.
 */
module TimeNodeBehaviour {
  import opened JsValues
  import M = WorkerMessages
  import opened NodeTiers
  import opened TimeNodeLogs
  import opened TimeNodeStorage
  import opened TimeNodeSession
  import opened TimeNodeProperties

  /** A request of the given type posted without parameters. */
  function Request(t: M.MessageType): Posted
  {
    Posted(M.TypeValue(t), NoParams)
  }

  // ---------------------------------------------------------------------
  // Scanning

  /** Only a Disabled node is refused: a node still loading its balance
      passes the guard and starts scanning. */
  lemma {:induction false} StartScanningGuard(s: Session)
    ensures Status(s) == Disabled ==> StartScanning(s) == s
    ensures Status(s) != Disabled ==> StartScanning(s).scanningStarted
    ensures Observed(s, BalanceDAY) == Null ==> StartScanning(s).scanningStarted
  {
    assert Observed(s, BalanceDAY) == Null ==> Status(s) == Loading;
  }

  /** `startScanning` on an enabled (or loading) node: the flag is set, a
      status-check timer is started, START_SCANNING then UPDATE_STATS are
      posted when a worker exists, and the scanning key is saved as true;
      nothing else changes. */
  lemma {:induction false} StartScanningEffect(s: Session)
    requires Status(s) != Disabled
    ensures StartScanning(s) == s.(
      scanningStarted := true,
      timers := StartStatusCheck(s.timers),
      outbox := s.outbox + Posts(s.hasWorker, [Request(M.StartScanning), Request(M.UpdateStats)]),
      storage := s.storage[ScanningKey := Bool(true)])
  {
    if s.hasWorker {
      assert s.outbox + [Request(M.StartScanning)] + [Request(M.UpdateStats)]
        == s.outbox + [Request(M.StartScanning), Request(M.UpdateStats)];
    }
  }

  /** Two status checks started and one stopped: the first one stays live. */
  lemma {:induction false} StatusChecksLeft(t: Timers)
    requires HandlesIssued(t)
    ensures var n := t.nextHandle;
      Of(StopStatusCheck(StartStatusCheck(StartStatusCheck(t))).live, StatusCheck) == Of(t.live, StatusCheck) + {n}
  {
    var n := t.nextHandle;
    var u := StopStatusCheck(StartStatusCheck(StartStatusCheck(t)));
    assert u.live == t.live[n := StatusCheck][n + 1 := StatusCheck] - {n + 1};
    forall h ensures h in Of(u.live, StatusCheck) <==> h in Of(t.live, StatusCheck) + {n} {
    }
  }

  /** `startScanning` stores its timer over the previous handle without
      clearing it: scanning started twice and stopped once leaves one status
      check running. */
  lemma {:induction false} StatusCheckLeak(s: Session)
    requires WellFormed(s) && Status(s) != Disabled
    ensures var r := StopScanning(StartScanning(StartScanning(s)));
      && LiveOf(r, StatusCheck) == LiveOf(s, StatusCheck) + {s.timers.nextHandle}
      && |LiveOf(r, StatusCheck)| == |LiveOf(s, StatusCheck)| + 1
  {
    var a := StartScanning(s);
    ScanningTimers(s);
    var b := StartScanning(a);
    ScanningTimers(a);
    ScanningTimers(b);
    StatusChecksLeft(s.timers);
    assert s.timers.nextHandle !in LiveOf(s, StatusCheck);
  }

  /** The timer parts of the scanning switches; starting keeps the tier. */
  lemma ScanningTimers(s: Session)
    ensures Status(s) != Disabled ==> StartScanning(s).timers == StartStatusCheck(s.timers)
    ensures Status(StartScanning(s)) == Status(s)
    ensures StopScanning(s).timers == StopStatusCheck(s.timers)
  {
  }

  /** `stopScanning`: the flag is cleared, the status check the field holds
      is cleared, STOP_SCANNING is posted when a worker exists, and the
      scanning key is removed; nothing else changes. */
  lemma StopScanningEffect(s: Session)
    ensures StopScanning(s) == s.(
      scanningStarted := false,
      timers := StopStatusCheck(s.timers),
      outbox := s.outbox + Posts(s.hasWorker, [Request(M.StopScanning)]),
      storage := s.storage - {ScanningKey})
    ensures !StopScanning(s).scanningStarted && ScanningKey !in StopScanning(s).storage
  {
  }

  /** Without a worker, stopping twice is stopping once. */
  lemma {:induction false} StopScanningIdempotent(s: Session)
    requires !s.hasWorker
    ensures StopScanning(StopScanning(s)) == StopScanning(s)
  {
    var a := StopScanning(s);
    StopScanningEffect(s);
    StopScanningEffect(a);
    assert a.storage - {ScanningKey} == a.storage;
    assert StopStatusCheck(a.timers) == a.timers by {
      if s.timers.statusCheck.Some? {
        assert a.timers.live - {s.timers.statusCheck.value} == a.timers.live;
      }
    }
  }

  // ---------------------------------------------------------------------
  // Detach, restart, unlock

  /** `detachWallet`: the keystore, attached-account, claiming and scanning
      keys are removed and their fields reset, the worker is dropped (after
      STOP_SCANNING when there was one), only the status check is cleared, and
      every other storage key (the provider and the strategy) is untouched. */
  lemma {:induction false} DetachEffect(s: Session)
    ensures var r := DetachWallet(s);
      && TimeNodeKey !in r.storage && AttachedDayAccountKey !in r.storage
      && ClaimingKey !in r.storage && ScanningKey !in r.storage
      && r.walletKeystore == Null && r.attachedDAYAccount == Null
      && !r.claiming && !r.scanningStarted && !r.hasWorker
      && r.outbox == s.outbox + Posts(s.hasWorker, [Request(M.StopScanning)])
      && r.timers == StopStatusCheck(s.timers)
    ensures forall key :: key != TimeNodeKey && key != AttachedDayAccountKey && key != ClaimingKey && key != ScanningKey ==>
      Load(DetachWallet(s).storage, key) == Load(s.storage, key)
  {
    var d := s.(storage := s.storage - {TimeNodeKey} - {AttachedDayAccountKey} - {ClaimingKey} - {ScanningKey},
                walletKeystore := Null, attachedDAYAccount := Null, claiming := false);
    StopScanningEffect(d);
    assert DetachWallet(s) == StopScanning(d).(hasWorker := false);
  }

  /** Detaching leaves the economic strategy as it was. */
  lemma {:induction false} DetachKeepsStrategy(s: Session, defaults: StrategyKey -> string)
    ensures EconomicStrategy(DetachWallet(s).storage, defaults) == EconomicStrategy(s.storage, defaults)
  {
    var s1 := s.storage - {TimeNodeKey};
    var s2 := s1 - {AttachedDayAccountKey};
    var s3 := s2 - {ClaimingKey};
    var s4 := s3 - {ScanningKey};
    SessionKeyRemovalKeepsStrategy(s.storage, TimeNodeKey, defaults);
    SessionKeyRemovalKeepsStrategy(s1, AttachedDayAccountKey, defaults);
    SessionKeyRemovalKeepsStrategy(s2, ClaimingKey, defaults);
    SessionKeyRemovalKeepsStrategy(s3, ScanningKey, defaults);
    SessionKeyRemovalKeepsStrategy(s4, ScanningKey, defaults);
    assert ForgetWallet(s).storage == s4;
    assert DetachWallet(s).storage == s4 - {ScanningKey};
  }

  /** `restart` up to its wait: scanning and the polls are stopped, and a
      new worker is sent START with the keystore to decrypt, the password,
      the attached address, the claiming flag and the economic strategy;
      scanning starts again on its STARTED reply. Without a keystore the
      START options throw: no worker is left and nothing but STOP_SCANNING
      is posted. */
  lemma {:induction false} RestartEffect(s: Session, password: string, defaults: StrategyKey -> string)
    ensures var r := Restart(s, password, defaults);
      && !r.scanningStarted && ScanningKey !in r.storage
      && r.timers == StopPolls(StopStatusCheck(s.timers))
      && r.mirror == s.mirror
      && (DecryptThrows(s.walletKeystore) ==>
            && !r.hasWorker && r.pending == s.pending
            && r.outbox == s.outbox + Posts(s.hasWorker, [Request(M.StopScanning)]))
      && (!DecryptThrows(s.walletKeystore) ==>
            var options := StartOptions(s.walletKeystore, r.claiming, r.storage, password, defaults);
            && r.hasWorker && r.pending == AwaitRestart
            && r.outbox == s.outbox + Posts(s.hasWorker, [Request(M.StopScanning)])
                 + [Posted(M.TypeValue(M.Start), StartParams(options))]
            && options.keystore == [Decrypted(s.walletKeystore)]
            && options.keystorePassword == password
            && options.dayAccountAddress == DayAccountText(s.storage)
            && options.claiming == s.claiming
            && options.economicStrategy == EconomicStrategy(s.storage, defaults))
  {
    var a := StopScanning(s);
    StopScanningEffect(s);
    var b := StopIntervals(a).(hasWorker := false);
    assert Restart(s, password, defaults) == StartClient(b, password, defaults, AwaitRestart);
    assert b.storage == s.storage - {ScanningKey};
    assert Load(b.storage, AttachedDayAccountKey) == Load(s.storage, AttachedDayAccountKey);
    SessionKeyRemovalKeepsStrategy(s.storage, ScanningKey, defaults);
  }

  /** After `detachWallet`, `restart` leaves no worker: the new client
      throws in `decrypt`, so nothing is posted and scanning is not resumed. */
  lemma {:induction false} RestartAfterDetach(s: Session, password: string, defaults: StrategyKey -> string)
    ensures var d := DetachWallet(s);
      var r := Restart(d, password, defaults);
      !r.hasWorker && r.pending == s.pending && !r.scanningStarted && r.outbox == d.outbox
  {
    var d := DetachWallet(s);
    DetachEffect(s);
    RestartEffect(d, password, defaults);
  }

  /** `unlockTimeNode`: with a keystore and a non-empty password it marks the
      store unlocked and sends START to a new worker, to resume scanning on
      STARTED; otherwise it only marks the store locked. */
  lemma {:induction false} UnlockEffect(s: Session, password: string, defaults: StrategyKey -> string)
    ensures var r := UnlockTimeNode(s, password, defaults);
      if Truthy(s.walletKeystore) && password != "" then
        var options := StartOptions(s.walletKeystore, s.claiming, s.storage, password, defaults);
        && r.unlocked && r.hasWorker && r.pending == AwaitUnlock
        && r.outbox == s.outbox + [Posted(M.TypeValue(M.Start), StartParams(options))]
        && options.keystore == [Decrypted(s.walletKeystore)] && options.keystorePassword == password
        && r.timers == s.timers && r.storage == s.storage && r.mirror == s.mirror
      else
        r == s.(unlocked := false)
  {
    assert Truthy(s.walletKeystore) ==> !DecryptThrows(s.walletKeystore);
  }

  /** The START options name the attached account as `getAttachedDAYAddress`
      gives it, whatever the decryption. */
  lemma StartOptionsAddress(keystore: Value, claiming: bool, storage: Storage, password: string,
                            defaults: StrategyKey -> string, decrypt: Value -> string)
    ensures Reveal(StartOptions(keystore, claiming, storage, password, defaults).dayAccountAddress, decrypt)
      == AttachedDAYAddress(storage, decrypt)
    ensures Reveal(StartOptions(keystore, claiming, storage, password, defaults).keystore[0], decrypt)
      == decrypt(keystore)
  {
  }

  // ---------------------------------------------------------------------
  // Replies

  /** The value a property holds in a mirror; never written means null. */
  function MirrorValue(m: map<Observable, Value>, f: Observable): Value
  {
    if f in m then m[f] else Null
  }

  /** `getValuesIfInMessage`: a listed property takes the reply's field of
      its name unless that field is null; every other property keeps its
      value. */
  lemma {:induction false} CopyFieldsEffect(mirror: map<Observable, Value>, data: map<string, Value>, names: seq<Observable>, f: Observable)
    ensures var v := Field(data, PropertyName(f));
      MirrorValue(CopyFields(mirror, data, names), f) == if f in names && v != Null then v else MirrorValue(mirror, f)
  {
    if names != [] {
      var prefix := names[..|names| - 1];
      CopyFieldsEffect(mirror, data, prefix, f);
      assert names == prefix + [names[|names| - 1]];
    }
  }

  /** A reply of a declared type selects that type's arm. */
  lemma Dispatch(s: Session, reply: Reply, t: M.MessageType)
    requires reply.msgType == M.TypeValue(t)
    ensures OnMessage(s, reply) == Handle(s, TypeCase(t), reply)
  {
    CaseOfAgrees(reply.msgType, t);
  }

  /** The two copying arms of the reply switch, taken with their type already decoded. */
  lemma CopyArmShapes(s: Session, reply: Reply)
    ensures Handle(s, TypeCase(M.UpdateStats), reply) == s.(mirror := CopyFields(s.mirror, reply.data, StatsFields))
    ensures Handle(s, TypeCase(M.GetNetworkInfo), reply) == s.(mirror := CopyFields(s.mirror, reply.data, NetworkFields))
  {
  }

  /** An UPDATE_STATS reply refreshes the statistics and nothing else. */
  lemma {:induction false} StatsReply(s: Session, reply: Reply, f: Observable)
    requires reply.msgType == M.TypeValue(M.UpdateStats)
    ensures var r, v := OnMessage(s, reply), Field(reply.data, PropertyName(f));
      && Observed(r, f) == (if f in StatsFields && v != Null then v else Observed(s, f))
      && r == s.(mirror := r.mirror)
  {
    Dispatch(s, reply, M.UpdateStats);
    CopyArmShapes(s, reply);
    CopyFieldsEffect(s.mirror, reply.data, StatsFields, f);
  }

  /** The balances arm is the `case undefined` of the switch: it is taken by
      a reply whose type is undefined, and by no reply of a declared type. */
  lemma {:induction false} BalancesReply(s: Session, reply: Reply, f: Observable)
    requires reply.msgType == Undefined
    ensures var r, v := OnMessage(s, reply), Field(reply.data, PropertyName(f));
      && Observed(r, f) == (if f in BalanceFields && v != Null then v else Observed(s, f))
      && r == s.(mirror := r.mirror)
  {
    CaseOfAgrees(reply.msgType, M.Log);
    assert OnMessage(s, reply) == Handle(s, BalancesCase, reply);
    CopyFieldsEffect(s.mirror, reply.data, BalanceFields, f);
  }

  /** The request for balances posts a message whose type is undefined (the
      value of the undeclared `UPDATE_BALANCES` key), which is what selects
      the balances arm when the worker echoes it. */
  lemma {:induction false} BalancesRequest(s: Session)
    ensures UpdateBalances(s).outbox == s.outbox + Posts(s.hasWorker, [Posted(M.Lookup("UPDATE_BALANCES"), NoParams)])
    ensures forall t :: M.TypeValue(t) != M.Lookup("UPDATE_BALANCES")
  {
    M.UpdateBalancesUndeclared();
  }

  /** A network-information reply refreshes the block number and network id. */
  lemma {:induction false} NetworkReply(s: Session, reply: Reply, f: Observable)
    requires reply.msgType == M.TypeValue(M.GetNetworkInfo)
    ensures var r, v := OnMessage(s, reply), Field(reply.data, PropertyName(f));
      && Observed(r, f) == (if f in NetworkFields && v != Null then v else Observed(s, f))
      && r == s.(mirror := r.mirror)
  {
    Dispatch(s, reply, M.GetNetworkInfo);
    CopyArmShapes(s, reply);
    CopyFieldsEffect(s.mirror, reply.data, NetworkFields, f);
  }

  /** Requesting a graph sets its in-progress flag and asks the worker. */
  lemma GraphRequests(s: Session)
    ensures UpdateBountiesGraph(s).bountiesGraphInProgress
    ensures UpdateBountiesGraph(s).outbox == s.outbox + Posts(s.hasWorker, [Request(M.BountiesGraphData)])
    ensures UpdateProcessedTxsGraph(s).processedTxsGraphInProgress
    ensures UpdateProcessedTxsGraph(s).outbox == s.outbox + Posts(s.hasWorker, [Request(M.ProcessedTxs)])
  {
  }

  /** The two graph arms of the reply switch, taken with their type already decoded. */
  lemma GraphArmShapes(s: Session, reply: Reply)
    ensures Handle(s, TypeCase(M.BountiesGraphData), reply)
      == s.(bountiesGraphInProgress := false, mirror := CopyFields(s.mirror, reply.data, [BountiesGraph]))
    ensures Handle(s, TypeCase(M.ProcessedTxs), reply)
      == s.(mirror := CopyFields(s.mirror, reply.data, [ProcessedTransactions]), processedTxsGraphInProgress := false)
  {
  }

  /** The bounties-graph reply clears the flag its request set and stores
      the graph data unless it is null. */
  lemma {:induction false} BountiesGraphReply(s: Session, reply: Reply)
    requires reply.msgType == M.TypeValue(M.BountiesGraphData)
    ensures var r, v := OnMessage(s, reply), Field(reply.data, PropertyName(BountiesGraph));
      && !r.bountiesGraphInProgress
      && Observed(r, BountiesGraph) == (if v != Null then v else Observed(s, BountiesGraph))
      && r == s.(mirror := r.mirror, bountiesGraphInProgress := false)
  {
    Dispatch(s, reply, M.BountiesGraphData);
    GraphArmShapes(s, reply);
    var m := CopyFields(s.mirror, reply.data, [BountiesGraph]);
    var r := OnMessage(s, reply);
    CopyFieldsEffect(s.mirror, reply.data, [BountiesGraph], BountiesGraph);
    assert Observed(r, BountiesGraph) == MirrorValue(m, BountiesGraph);
    assert Observed(s, BountiesGraph) == MirrorValue(s.mirror, BountiesGraph);
  }

  /** The processed-transactions reply clears the flag its request set and
      stores the data unless it is null. */
  lemma {:induction false} ProcessedTxsReply(s: Session, reply: Reply)
    requires reply.msgType == M.TypeValue(M.ProcessedTxs)
    ensures var r, v := OnMessage(s, reply), Field(reply.data, PropertyName(ProcessedTransactions));
      && !r.processedTxsGraphInProgress
      && Observed(r, ProcessedTransactions) == (if v != Null then v else Observed(s, ProcessedTransactions))
      && r == s.(mirror := r.mirror, processedTxsGraphInProgress := false)
  {
    Dispatch(s, reply, M.ProcessedTxs);
    GraphArmShapes(s, reply);
    var m := CopyFields(s.mirror, reply.data, [ProcessedTransactions]);
    var r := OnMessage(s, reply);
    CopyFieldsEffect(s.mirror, reply.data, [ProcessedTransactions], ProcessedTransactions);
    assert Observed(r, ProcessedTransactions) == MirrorValue(m, ProcessedTransactions);
    assert Observed(s, ProcessedTransactions) == MirrorValue(s.mirror, ProcessedTransactions);
  }

  /** A LOG reply goes through `handleLogMessage`; one without a value
      changes nothing. */
  lemma {:induction false} LogReply(s: Session, reply: Reply)
    requires reply.msgType == M.TypeValue(M.Log)
    ensures var r := OnMessage(s, reply);
      && (reply.value.None? ==> r == s)
      && (reply.value.Some? ==> r == s.(allLogs := PushLog(s.allLogs, reply.value.value)))
  {
    Dispatch(s, reply, M.Log);
  }

  /** CLEAR_STATS from the store empties the log buffer and tells the worker;
      the worker's CLEAR_STATS reply asks for fresh statistics. */
  lemma {:induction false} ClearStatsRoundTrip(s: Session, reply: Reply)
    requires reply.msgType == M.TypeValue(M.ClearStats)
    ensures ClearStats(s).allLogs == []
    ensures ClearStats(s).outbox == s.outbox + Posts(s.hasWorker, [Request(M.ClearStats)])
    ensures OnMessage(s, reply) == s.(outbox := s.outbox + Posts(s.hasWorker, [Request(M.UpdateStats)]))
  {
    Dispatch(s, reply, M.ClearStats);
  }

  // ---------------------------------------------------------------------
  // The claimed-transactions resolver slot

  /** Two callers ask before the reply arrives: the second replaces the
      first in the single resolver slot, so the reply answers only the
      second, and the first caller's promise is never resolved. */
  lemma {:induction false} ClaimedSlotOverwritten(s: Session, first: nat, second: nat, reply: Reply)
    requires reply.msgType == M.TypeValue(M.ReceivedClaimedNotExecutedTransactions)
    requires first != second && first !in s.claimedAnswers && second !in s.claimedAnswers
    ensures var r := OnMessage(GetClaimedNotExecutedTransactions(GetClaimedNotExecutedTransactions(s, first), second), reply);
      && second in r.claimedAnswers && r.claimedAnswers[second] == Field(reply.data, "transactions")
      && first !in r.claimedAnswers
  {
    var b := GetClaimedNotExecutedTransactions(GetClaimedNotExecutedTransactions(s, first), second);
    assert b.claimedResolver == Some(second) && b.claimedAnswers == s.claimedAnswers;
    Dispatch(b, reply, M.ReceivedClaimedNotExecutedTransactions);
    var v := Field(reply.data, "transactions");
    assert OnMessage(b, reply) == b.(claimedAnswers := s.claimedAnswers[second := v]);
  }

  /** A promise resolves once: a later reply does not change the answer,
      and a reply with no caller waiting changes nothing. */
  lemma {:induction false} ClaimedAnswerFinal(s: Session, reply: Reply)
    requires reply.msgType == M.TypeValue(M.ReceivedClaimedNotExecutedTransactions)
    requires s.claimedResolver.None? || s.claimedResolver.value in s.claimedAnswers
    ensures OnMessage(s, reply) == s
  {
    Dispatch(s, reply, M.ReceivedClaimedNotExecutedTransactions);
  }

  // ---------------------------------------------------------------------
  // Attaching a DAY account, saving the strategy, the address

  /** `attachDayAccount`: a failed check or lookup changes nothing; otherwise
      the fetched balance and TimeMint flag are stored, and the account is
      attached (saved encrypted) exactly when they give an enabled tier. */
  lemma {:induction false} AttachDayOutcomes(s: Session, validSig: bool, fetched: Option<(Value, bool)>, encrypted: Value)
    ensures var (r, notice) := AttachDayAccount(s, validSig, fetched, encrypted);
      && (!validSig || fetched.None? ==> r == s && notice == AttachFailed)
      && (validSig && fetched.Some? ==>
            && Observed(r, BalanceDAY) == fetched.value.0
            && Observed(r, IsTimeMint) == Bool(fetched.value.1)
            && (notice == Attached <==> NodeStatus(fetched.value.0, Bool(fetched.value.1)) != Disabled)
            && (notice == Attached ==> Load(r.storage, AttachedDayAccountKey) == encrypted && r.attachedDAYAccount == encrypted)
            && (notice != Attached ==> notice == NotEnoughTokens && r.storage == s.storage && r.attachedDAYAccount == s.attachedDAYAccount))
  {
    if validSig && fetched.Some? {
      var (balance, timeMint) := fetched.value;
      var a := s.(mirror := s.mirror[BalanceDAY := balance][IsTimeMint := Bool(timeMint)]);
      assert Observed(a, BalanceDAY) == balance;
      assert Observed(a, IsTimeMint) == Bool(timeMint);
      assert Status(a) == NodeStatus(balance, Bool(timeMint));
    }
  }

  /** `getAttachedDAYAddress` is empty once the wallet is detached, and is
      the decrypted saved address after an attach that succeeded. */
  lemma {:induction false} AttachedAddressLifecycle(s: Session, validSig: bool, fetched: Option<(Value, bool)>,
                                                    encrypted: Value, decrypt: Value -> string)
    ensures AttachedDAYAddress(DetachWallet(s).storage, decrypt) == ""
    ensures var (r, notice) := AttachDayAccount(s, validSig, fetched, encrypted);
      notice == Attached && Truthy(encrypted) ==> AttachedDAYAddress(r.storage, decrypt) == decrypt(encrypted)
  {
    DetachEffect(s);
    AttachDayOutcomes(s, validSig, fetched, encrypted);
  }

  /** `saveClaimingStrategy`: the claiming key holds true when claiming is
      on and is absent otherwise, each truthy parameter is stored in stored form, and
      each falsy one removed, so the getter falls back to its default. */
  lemma {:induction false} SaveStrategyEffect(s: Session, entries: seq<(string, Value)>, toWei: Value -> Value,
                                              defaults: StrategyKey -> string, i: nat, k: StrategyKey)
    requires DistinctKeys(entries) && forall j :: 0 <= j < |entries| ==> entries[j].0 != ClaimingKey
    requires i < |entries| && entries[i].0 == StrategyName(k)
    ensures var r := SaveClaimingStrategy(s, entries, toWei);
      && Load(r.storage, ClaimingKey) == (if s.claiming then Bool(true) else Null)
      && (!Truthy(entries[i].1) ==> LoadStrategy(r.storage, defaults, k) == Str(defaults(k)))
      && (Truthy(entries[i].1) ==> Load(r.storage, StrategyName(k)) == StoredForm(StrategyName(k), entries[i].1, toWei))
  {
    var flagged := SaveClaimingFlag(s.storage, s.claiming);
    SaveEntriesEffect(flagged, entries, toWei);
    SavedStrategyReadsBack(flagged, entries, toWei, defaults, i, k);
    assert Load(SaveEntries(flagged, entries, toWei), ClaimingKey) == Load(flagged, ClaimingKey);
  }

  /** `getMyAddress`: empty without a keystore; otherwise the keystore's
      address, with `0x` put in front when it does not contain `0x`. */
  lemma {:induction false} MyAddressPrefix(walletKeystore: Value, a: string)
    ensures !Truthy(walletKeystore) ==> MyAddress(walletKeystore, Some(a)) == Str("")
    ensures Truthy(walletKeystore) && a != "" ==>
      MyAddress(walletKeystore, Some(a)).Str? && HasSubstring(MyAddress(walletKeystore, Some(a)).s, "0x")
    ensures Truthy(walletKeystore) && HasSubstring(a, "0x") ==> MyAddress(walletKeystore, Some(a)) == Str(a)
    ensures Truthy(walletKeystore) && a != "" && !HasSubstring(a, "0x") ==> MyAddress(walletKeystore, Some(a)) == Str("0x" + a)
  {
  }
}
