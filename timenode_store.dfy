/**
 * The TimeNode store as an object: its fields are updated in place by its
 * methods, step by step in the order the store performs them, and every
 * public method is proved to take the store from a state to the state the
 * matching function of module TimeNodeSession gives, and to keep the store's
 * invariant.
 *
 * The named properties the worker's replies write (`this[name] = ...`) are
 * kept in one map from property to value; the runtime's table of live
 * interval timers and its next handle are fields too.
 */
module TimeNode {
  import opened JsValues
  import M = WorkerMessages
  import opened NodeTiers
  import opened TimeNodeLogs
  import opened TimeNodeStorage
  import opened S = TimeNodeSession
  import opened TimeNodeProperties

  class TimeNodeStore {
    var walletKeystore: Value
    var attachedDAYAccount: Value
    var scanningStarted: bool
    var claiming: bool
    var unlocked: bool
    var logType: LogView
    var allLogs: seq<LogEntry>
    var mirror: map<Observable, Value>
    var updatingBountiesGraphInProgress: bool
    var updatingProcessedTxsGraphInProgress: bool
    var hasWorker: bool
    var outbox: seq<Posted>
    var storage: Storage

    /** The interval-handle fields, with the runtime's table of live timers. */
    var timers: Timers

    var pending: Pending
    var claimedResolver: Option<nat>
    var claimedAnswers: map<nat, Value>

    /** The library's default strategy, as strings, and `web3.utils.toWei`. */
    const defaults: StrategyKey -> string
    const toWei: Value -> Value

    /** The store's fields as one session value. */
    function Snapshot(): Session
      reads this
    {
      Session(
        walletKeystore, attachedDAYAccount, scanningStarted, claiming, unlocked, logType, allLogs, mirror,
        updatingBountiesGraphInProgress, updatingProcessedTxsGraphInProgress, hasWorker, outbox, storage,
        timers, pending, claimedResolver, claimedAnswers)
    }

    /** The constructor restores the keystore, the attached account and the
        claiming and scanning flags from storage. */
    constructor(storageService: Storage, defaults: StrategyKey -> string, toWei: Value -> Value)
      ensures Snapshot() == Initial(storageService)
      ensures this.defaults == defaults && this.toWei == toWei
    {
      this.defaults := defaults;
      this.toWei := toWei;
      storage := storageService;
      attachedDAYAccount := Load(storageService, AttachedDayAccountKey);
      walletKeystore := Load(storageService, TimeNodeKey);
      claiming := Truthy(Load(storageService, ClaimingKey));
      scanningStarted := Truthy(Load(storageService, ScanningKey));
      unlocked := false;
      logType := Basic;
      allLogs := [];
      mirror := map[];
      updatingBountiesGraphInProgress := false;
      updatingProcessedTxsGraphInProgress := false;
      hasWorker := false;
      outbox := [];
      timers := Timers(map[], 1, None, None, None, None, None, None, None);
      pending := NothingPending;
      claimedResolver := None;
      claimedAnswers := map[];
    }

    /** The `nodeStatus` getter. */
    function NodeStatus(): (t: Tier)
      reads this
      ensures t == Status(Snapshot())
    {
      var balance := if BalanceDAY in mirror then mirror[BalanceDAY] else Null;
      var timeMint := if IsTimeMint in mirror then mirror[IsTimeMint] else Null;
      NodeTiers.NodeStatus(balance, timeMint)
    }

    // -------------------------------------------------------------------
    // The runtime's timers and the worker

    /** `sendMessageWorker`: posts only when there is a worker. */
    method SendMessageWorker(msgType: Value, params: Params)
      modifies this`outbox
      ensures outbox == old(outbox) + Posts(hasWorker, [Posted(msgType, params)])
    {
      if hasWorker {
        outbox := outbox + [Posted(msgType, params)];
      }
    }

    method UpdateStats()
      modifies this`outbox
      ensures Snapshot() == S.UpdateStats(old(Snapshot()))
    {
      SendMessageWorker(M.TypeValue(M.UpdateStats), NoParams);
    }

    method UpdateBalances()
      modifies this`outbox
      ensures Snapshot() == S.UpdateBalances(old(Snapshot()))
    {
      SendMessageWorker(M.UpdateBalancesValue, NoParams);
    }

    method UpdateBountiesGraph()
      modifies this`outbox, this`updatingBountiesGraphInProgress
      ensures Snapshot() == S.UpdateBountiesGraph(old(Snapshot()))
    {
      updatingBountiesGraphInProgress := true;
      SendMessageWorker(M.TypeValue(M.BountiesGraphData), NoParams);
    }

    method UpdateProcessedTxsGraph()
      modifies this`outbox, this`updatingProcessedTxsGraphInProgress
      ensures Snapshot() == S.UpdateProcessedTxsGraph(old(Snapshot()))
    {
      updatingProcessedTxsGraphInProgress := true;
      SendMessageWorker(M.TypeValue(M.ProcessedTxs), NoParams);
    }

    method GetNetworkInfo()
      modifies this`outbox
      ensures Snapshot() == S.GetNetworkInfo(old(Snapshot()))
    {
      SendMessageWorker(M.TypeValue(M.GetNetworkInfo), NoParams);
    }

    method ClearStats()
      modifies this`outbox, this`allLogs
      ensures Snapshot() == S.ClearStats(old(Snapshot()))
    {
      SendMessageWorker(M.TypeValue(M.ClearStats), NoParams);
      allLogs := [];
    }

    /** Clears four of the five polling timers. */
    method StopIntervals()
      modifies this`timers
      ensures Snapshot() == S.StopIntervals(old(Snapshot()))
    {
      timers := ClearTimer(timers, timers.stats);
      timers := ClearTimer(timers, timers.balances);
      timers := ClearTimer(timers, timers.bountiesGraph);
      timers := ClearTimer(timers, timers.networkInfo);
    }

    /** Each poll runs once and then gets its timer; the processed-transactions
        handle goes to `updateProcessedTxsGraphInterval`. */
    method StartIntervals()
      modifies this`outbox, this`updatingBountiesGraphInProgress, this`updatingProcessedTxsGraphInProgress, this`timers
      ensures Snapshot() == S.StartIntervals(old(Snapshot()))
    {
      StartPoll(StatsPoll);
      StartPoll(BalancesPoll);
      StartPoll(BountiesGraphPoll);
      StartPoll(ProcessedTxsPoll);
      StartPoll(NetworkInfoPoll);
      StartIntervalsPolls(old(Snapshot()));
    }

    /** One poll of `startIntervals`: its callback, then `setInterval`. */
    method StartPoll(k: TimerKind)
      modifies this`outbox, this`updatingBountiesGraphInProgress, this`updatingProcessedTxsGraphInProgress, this`timers
      ensures Snapshot() == Poll(old(Snapshot()), k)
    {
      RunCallback(k);
      timers := AddPoll(timers, k);
    }

    /** The callback a timer of kind `k` runs; the status check only reports
        to the analytics service. */
    method RunCallback(k: TimerKind)
      modifies this`outbox, this`updatingBountiesGraphInProgress, this`updatingProcessedTxsGraphInProgress
      ensures Snapshot() == Tick(old(Snapshot()), k)
    {
      match k
      case StatsPoll => UpdateStats();
      case BalancesPoll => UpdateBalances();
      case BountiesGraphPoll => UpdateBountiesGraph();
      case ProcessedTxsPoll => UpdateProcessedTxsGraph();
      case NetworkInfoPoll => GetNetworkInfo();
      case StatusCheck =>
    }

    // -------------------------------------------------------------------
    // Scanning

    method StartScanning()
      modifies this`scanningStarted, this`timers, this`outbox, this`storage
      ensures Snapshot() == S.StartScanning(old(Snapshot()))
    {
      if NodeStatus() != Disabled {
        scanningStarted := true;
        timers := StartStatusCheck(timers);
        // sendMessageWorker(START_SCANNING), then updateStats()
        outbox := outbox + Posts(hasWorker, [Posted(M.TypeValue(M.StartScanning), NoParams)])
                         + Posts(hasWorker, [Posted(M.TypeValue(M.UpdateStats), NoParams)]);
        storage := storage[ScanningKey := Bool(true)];
      }
    }

    method StopScanning()
      modifies this`scanningStarted, this`timers, this`outbox, this`storage
      ensures Snapshot() == S.StopScanning(old(Snapshot()))
    {
      scanningStarted := false;
      timers := StopStatusCheck(timers);
      if hasWorker {
        SendMessageWorker(M.TypeValue(M.StopScanning), NoParams);
      }
      storage := storage - {ScanningKey};
    }

    // -------------------------------------------------------------------
    // Client start, unlock, restart and detach

    /** `startClient` up to its wait: a new worker, sent START with the
        store's options; `awaiting` runs when it replies STARTED. Without a
        keystore `decrypt` throws first and nothing changes. */
    method StartClient(password: string, awaiting: Pending)
      modifies this`hasWorker, this`pending, this`outbox
      ensures Snapshot() == S.StartClient(old(Snapshot()), password, defaults, awaiting)
    {
      if !DecryptThrows(walletKeystore) {
        var options := StartOptions(walletKeystore, claiming, storage, password, defaults);
        hasWorker := true;
        pending := awaiting;
        // sendMessageWorker(START, options), now that a worker exists
        outbox := outbox + [Posted(M.TypeValue(M.Start), StartParams(options))];
      }
    }

    method UnlockTimeNode(password: string)
      modifies this`unlocked, this`hasWorker, this`pending, this`outbox
      ensures Snapshot() == S.UnlockTimeNode(old(Snapshot()), password, defaults)
    {
      if Truthy(walletKeystore) && password != "" {
        unlocked := true;
        StartClient(password, AwaitUnlock);
      } else {
        unlocked := false;
      }
    }

    method Restart(password: string)
      modifies this`scanningStarted, this`timers, this`outbox, this`storage, this`hasWorker, this`pending
      ensures Snapshot() == S.Restart(old(Snapshot()), password, defaults)
    {
      StopScanning();
      StopIntervals();
      hasWorker := false;
      StartClient(password, AwaitRestart);
    }

    method DetachWallet()
      modifies this`storage, this`walletKeystore, this`attachedDAYAccount, this`claiming, this`scanningStarted,
              this`timers, this`outbox, this`hasWorker
      ensures Snapshot() == S.DetachWallet(old(Snapshot()))
    {
      ForgetWallet();
      StopScanning();
      hasWorker := false;
    }

    /** The removals `detachWallet` makes before it stops scanning. */
    method ForgetWallet()
      modifies this`storage, this`walletKeystore, this`attachedDAYAccount, this`claiming
      ensures Snapshot() == S.ForgetWallet(old(Snapshot()))
    {
      var remaining := storage - {TimeNodeKey};
      walletKeystore := Null;
      remaining := remaining - {AttachedDayAccountKey};
      attachedDAYAccount := Null;
      remaining := remaining - {ClaimingKey};
      claiming := false;
      storage := remaining - {ScanningKey};
    }

    method SetKeyStore(keystore: Value)
      modifies this`walletKeystore, this`storage
      ensures Snapshot() == S.SetKeyStore(old(Snapshot()), keystore)
    {
      walletKeystore := keystore;
      storage := storage[TimeNodeKey := keystore];
    }

    // -------------------------------------------------------------------
    // Storage

    /** Saves the claiming flag, then each entry of the strategy object in
        order: a truthy value is stored (converted by `toWei` unless it is
        `maxGasSubsidy`), a falsy one removes its key. */
    method SaveClaimingStrategy(entries: seq<(string, Value)>)
      modifies this`storage
      ensures Snapshot() == S.SaveClaimingStrategy(old(Snapshot()), entries, toWei)
    {
      if claiming {
        storage := storage[ClaimingKey := Bool(true)];
      } else {
        storage := storage - {ClaimingKey};
      }
      SaveEntriesInOrder(entries);
    }

    /** The loop of `saveClaimingStrategy` over the strategy object's entries. */
    method SaveEntriesInOrder(entries: seq<(string, Value)>)
      modifies this`storage
      ensures storage == SaveEntries(old(storage), entries, toWei)
    {
      var i := 0;
      while i < |entries|
        invariant 0 <= i <= |entries|
        invariant storage == SaveEntries(old(storage), entries[..i], toWei)
      {
        var (key, v) := entries[i];
        SaveEntriesStep(old(storage), entries, i, toWei);
        if Truthy(v) {
          var value := if key == "maxGasSubsidy" then v else toWei(v);
          storage := storage[key := value];
        } else {
          storage := storage - {key};
        }
        i := i + 1;
      }
      assert entries[..i] == entries;
    }

    /** Whether every listed key loads a truthy value; stops at the first
        that does not. */
    method HasStorageItems(items: seq<string>) returns (r: bool)
      ensures r <==> forall i :: 0 <= i < |items| ==> Truthy(Load(storage, items[i]))
    {
      for i := 0 to |items|
        invariant forall j :: 0 <= j < i ==> Truthy(Load(storage, items[j]))
      {
        if !Truthy(Load(storage, items[i])) {
          return false;
        }
      }
      return true;
    }

    // -------------------------------------------------------------------
    // Requests with a reply, and the attached DAY account

    /** Asks the worker, and makes `caller` the one whose promise the next
        reply resolves. */
    method GetClaimedNotExecutedTransactions(caller: nat)
      modifies this`outbox, this`claimedResolver
      ensures Snapshot() == S.GetClaimedNotExecutedTransactions(old(Snapshot()), caller)
    {
      SendMessageWorker(M.TypeValue(M.GetClaimedNotExecutedTransactions), NoParams);
      claimedResolver := Some(caller);
    }

    /** `attachDayAccount` after the signature check (`validSig`), the balance
        lookup (`fetched`, `None` when it failed) and the encryption of the
        account's address (`encrypted`). */
    method AttachDayAccount(validSig: bool, fetched: Option<(Value, bool)>, encrypted: Value) returns (notice: Notice)
      modifies this`mirror, this`storage, this`attachedDAYAccount
      ensures Snapshot() == S.AttachDayAccount(old(Snapshot()), validSig, fetched, encrypted).0
      ensures notice == S.AttachDayAccount(old(Snapshot()), validSig, fetched, encrypted).1
    {
      if !validSig || fetched.None? {
        notice := AttachFailed;
      } else {
        mirror := mirror[BalanceDAY := fetched.value.0][IsTimeMint := Bool(fetched.value.1)];
        if NodeStatus() != Disabled {
          storage := storage[AttachedDayAccountKey := encrypted];
          attachedDAYAccount := encrypted;
          notice := Attached;
        } else {
          notice := NotEnoughTokens;
        }
      }
    }

    // -------------------------------------------------------------------
    // Worker replies

    /** `handleLogMessage`: drops cache entries, shifts out the oldest entry
        when the buffer is full, and appends. */
    method HandleLogMessage(entry: LogEntry)
      modifies this`allLogs
      ensures allLogs == PushLog(old(allLogs), entry)
    {
      if entry.kind == Cache {
        return;
      }
      if |allLogs| == LogCap {
        allLogs := allLogs[1..];
      }
      allLogs := allLogs + [entry];
    }

    /** `getValuesIfInMessage`: each listed property takes the reply's field of
        that name unless the field is null. */
    method GetValuesIfInMessage(data: map<string, Value>, names: seq<Observable>)
      modifies this`mirror
      ensures mirror == CopyFields(old(mirror), data, names)
    {
      var i := 0;
      while i < |names|
        invariant 0 <= i <= |names|
        invariant mirror == CopyFields(old(mirror), data, names[..i])
      {
        var v := Field(data, PropertyName(names[i]));
        CopyFieldsStep(old(mirror), data, names, i);
        if v != Null {
          mirror := mirror[names[i] := v];
        }
        i := i + 1;
      }
      assert names[..i] == names;
    }

    /** The STARTED reply lets the awaiting caller go on. */
    method Resume()
      modifies this`pending, this`scanningStarted, this`timers, this`outbox, this`storage
      ensures Snapshot() == S.Resume(old(Snapshot()))
    {
      var awaiting := pending;
      pending := NothingPending;
      match awaiting
      case AwaitUnlock =>
        if Truthy(Load(storage, ScanningKey)) {
          StartScanning();
        }
      case AwaitRestart =>
        StartScanning();
      case _ =>
    }

    /** The worker's `onmessage` handler. */
    method OnMessage(reply: Reply)
      modifies this
      ensures Snapshot() == S.OnMessage(old(Snapshot()), reply)
    {
      var c := CaseOf(reply.msgType);
      match c
      case NoCase =>
      case BalancesCase =>
        GetValuesIfInMessage(reply.data, BalanceFields);
      case TypeCase(t) =>
        OnTypedMessage(t, reply);
    }

    /** The arms of the switch for a reply of a declared type. */
    method OnTypedMessage(t: M.MessageType, reply: Reply)
      modifies this
      ensures Snapshot() == Handle(old(Snapshot()), TypeCase(t), reply)
    {
      if t.Started? {
        StopIntervals();
        StartIntervals();
        Resume();
      } else if t.Log? {
        if reply.value.Some? {
          HandleLogMessage(reply.value.value);
        }
      } else if t.UpdateStats? {
        GetValuesIfInMessage(reply.data, StatsFields);
      } else if t.ClearStats? {
        UpdateStats();
      } else {
        OnDataMessage(t, reply);
      }
    }

    /** The arms that store what a reply carries. */
    method OnDataMessage(t: M.MessageType, reply: Reply)
      requires !t.Started? && !t.Log? && !t.UpdateStats? && !t.ClearStats?
      modifies this`mirror, this`claimedAnswers,
               this`updatingBountiesGraphInProgress, this`updatingProcessedTxsGraphInProgress
      ensures Snapshot() == Handle(old(Snapshot()), TypeCase(t), reply)
    {
      if t.GetNetworkInfo? {
        GetValuesIfInMessage(reply.data, NetworkFields);
      } else if t.ReceivedClaimedNotExecutedTransactions? {
        OnClaimedReply(reply);
      } else if t.BountiesGraphData? {
        OnBountiesGraphReply(reply);
      } else if t.ProcessedTxs? {
        OnProcessedTxsReply(reply);
      }
    }

    method OnClaimedReply(reply: Reply)
      modifies this`claimedAnswers
      ensures Snapshot() == Handle(old(Snapshot()), TypeCase(M.ReceivedClaimedNotExecutedTransactions), reply)
    {
      var transactions := Field(reply.data, "transactions");
      if claimedResolver.Some? && claimedResolver.value !in claimedAnswers {
        claimedAnswers := claimedAnswers[claimedResolver.value := transactions];
      }
    }

    method OnBountiesGraphReply(reply: Reply)
      modifies this`mirror, this`updatingBountiesGraphInProgress
      ensures Snapshot() == Handle(old(Snapshot()), TypeCase(M.BountiesGraphData), reply)
    {
      updatingBountiesGraphInProgress := false;
      GetValuesIfInMessage(reply.data, [BountiesGraph]);
    }

    method OnProcessedTxsReply(reply: Reply)
      modifies this`mirror, this`updatingProcessedTxsGraphInProgress
      ensures Snapshot() == Handle(old(Snapshot()), TypeCase(M.ProcessedTxs), reply)
    {
      GetValuesIfInMessage(reply.data, [ProcessedTransactions]);
      updatingProcessedTxsGraphInProgress := false;
    }

    /** A live timer fires and runs its callback. */
    method TimerFired(h: nat)
      modifies this`outbox, this`updatingBountiesGraphInProgress, this`updatingProcessedTxsGraphInProgress
      ensures Snapshot() == Apply(old(Snapshot()), Fire(h), defaults, toWei)
    {
      if h in timers.live {
        RunCallback(timers.live[h]);
      }
    }
  }
}
