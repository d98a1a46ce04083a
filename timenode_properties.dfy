/**
 * What the TimeNode store's operations promise, stated over the session
 * model: the invariants every event keeps, the effect of starting and
 * stopping scanning, detaching the wallet and the worker's replies, and two
 * behaviours of the store that a reader would not expect (a polling timer
 * that is never cleared, and a balances message whose type is undefined).
 */
module TimeNodeProperties {
  import opened JsValues
  import M = WorkerMessages
  import opened NodeTiers
  import opened TimeNodeLogs
  import opened TimeNodeStorage
  import opened TimeNodeSession

  // ---------------------------------------------------------------------
  // Timer sets

  lemma OfAddSame(live: map<nat, TimerKind>, h: nat, k: TimerKind)
    requires h !in live
    ensures Of(live[h := k], k) == Of(live, k) + {h}
  {
  }

  lemma OfAddOther(live: map<nat, TimerKind>, h: nat, k: TimerKind, k': TimerKind)
    requires h !in live && k != k'
    ensures Of(live[h := k], k') == Of(live, k')
  {
  }

  lemma OfRemove(live: map<nat, TimerKind>, gone: set<nat>, k: TimerKind)
    ensures Of(live - gone, k) == Of(live, k) - gone
  {
  }

  /** `stopIntervals` touches only the four handles it clears. */
  lemma StopPollsLive(t: Timers)
    ensures StopPolls(t).live ==
      t.live - RefSet(t.stats) - RefSet(t.balances) - RefSet(t.bountiesGraph) - RefSet(t.networkInfo)
    ensures StopPolls(t) == t.(live := StopPolls(t).live)
  {
  }

  /** Starting a timer keeps the handles issued and tidy (as long as none of
      the four cleared kinds is started without its field), and adds its
      handle to its kind alone. */
  lemma {:induction false} AddTimerEffect(t: Timers, k: TimerKind)
    requires HandlesIssued(t)
    ensures HandlesIssued(AddTimer(t, k))
    ensures AddTimer(t, k).nextHandle == t.nextHandle + 1
    ensures forall k' :: Of(AddTimer(t, k).live, k') == if k == k' then Of(t.live, k') + {t.nextHandle} else Of(t.live, k')
    ensures forall ref, k' :: Issued(ref, t.nextHandle) && Typed(t.live, ref, k') ==> Typed(AddTimer(t, k).live, ref, k')
  {
    assert t.nextHandle !in t.live;
    forall k' ensures Of(AddTimer(t, k).live, k') == if k == k' then Of(t.live, k') + {t.nextHandle} else Of(t.live, k') {
      if k == k' {
        OfAddSame(t.live, t.nextHandle, k);
      } else {
        OfAddOther(t.live, t.nextHandle, k, k');
      }
    }
  }

  /** Clearing a handle held by a field of kind `k` leaves every other kind's
      live timers as they were, and removes every live timer of kind `k` when
      the field held the only one. */
  lemma {:induction false} ClearTimerEffect(t: Timers, ref: Option<nat>, k: TimerKind)
    requires Typed(t.live, ref, k)
    ensures forall k' :: k' != k ==> Of(ClearTimer(t, ref).live, k') == Of(t.live, k')
    ensures Of(ClearTimer(t, ref).live, k) == Of(t.live, k) - RefSet(ref)
    ensures forall ref', k' :: Typed(t.live, ref', k') ==> Typed(ClearTimer(t, ref).live, ref', k')
    ensures ClearTimer(t, ref) == t.(live := ClearTimer(t, ref).live)
  {
    if ref.Some? {
      forall k' ensures Of(ClearTimer(t, ref).live, k') == Of(t.live, k') - RefSet(ref) {
        OfRemove(t.live, {ref.value}, k');
      }
    }
  }

  /** After `stopIntervals`, no stats, balances, bounties-graph or
      network-info timer is live; every other timer still is. */
  lemma {:induction false} StopPollsEffect(t: Timers)
    requires HandlesIssued(t) && TidyTimers(t)
    ensures var r := StopPolls(t);
      && HandlesIssued(r) && TidyTimers(r)
      && Of(r.live, StatsPoll) == {} && Of(r.live, BalancesPoll) == {}
      && Of(r.live, BountiesGraphPoll) == {} && Of(r.live, NetworkInfoPoll) == {}
      && Of(r.live, ProcessedTxsPoll) == Of(t.live, ProcessedTxsPoll)
      && Of(r.live, StatusCheck) == Of(t.live, StatusCheck)
      && r == t.(live := r.live)
  {
    var a := ClearTimer(t, t.stats);
    ClearTimerEffect(t, t.stats, StatsPoll);
    var b := ClearTimer(a, t.balances);
    ClearTimerEffect(a, t.balances, BalancesPoll);
    var c := ClearTimer(b, t.bountiesGraph);
    ClearTimerEffect(b, t.bountiesGraph, BountiesGraphPoll);
    var d := ClearTimer(c, t.networkInfo);
    ClearTimerEffect(c, t.networkInfo, NetworkInfoPoll);
    assert StopPolls(t) == d;
  }

  /** The five handles `startIntervals` stores, and the timers behind them. */
  lemma {:induction false} StartPollsShape(t: Timers)
    requires HandlesIssued(t)
    ensures var r, n := StartPolls(t), t.nextHandle;
      && r.nextHandle == n + 5
      && r.live == t.live[n := StatsPoll][n + 1 := BalancesPoll][n + 2 := BountiesGraphPoll][n + 3 := ProcessedTxsPoll][n + 4 := NetworkInfoPoll]
      && r.stats == Some(n) && r.balances == Some(n + 1) && r.bountiesGraph == Some(n + 2)
      && r.processedTxsGraph == Some(n + 3) && r.networkInfo == Some(n + 4)
      && r.processedTxs == t.processedTxs && r.statusCheck == t.statusCheck
  {
  }

  /** The handle `startIntervals` gives a kind's timer, counted from the
      first handle it hands out; the status check gets none. */
  function PollOffset(k: TimerKind): Option<nat>
  {
    match k
    case StatsPoll => Some(0)
    case BalancesPoll => Some(1)
    case BountiesGraphPoll => Some(2)
    case ProcessedTxsPoll => Some(3)
    case NetworkInfoPoll => Some(4)
    case StatusCheck => None
  }

  /** The handles `startIntervals` gives a kind's timer, when the first one
      it hands out is `n`. */
  function Polls(n: nat, k: TimerKind): set<nat>
  {
    if PollOffset(k).Some? then {n + PollOffset(k).value} else {}
  }

  /** The five timers `startIntervals` adds, on handles not yet live, each
      add to their own kind only. */
  lemma {:induction false} FivePolls(l0: map<nat, TimerKind>, n: nat, k: TimerKind)
    requires forall h :: h in l0 ==> h < n
    ensures var l5 := l0[n := StatsPoll][n + 1 := BalancesPoll][n + 2 := BountiesGraphPoll][n + 3 := ProcessedTxsPoll][n + 4 := NetworkInfoPoll];
      Of(l5, k) == Of(l0, k) + Polls(n, k)
  {
    var l5 := l0[n := StatsPoll][n + 1 := BalancesPoll][n + 2 := BountiesGraphPoll][n + 3 := ProcessedTxsPoll][n + 4 := NetworkInfoPoll];
    forall h ensures h in Of(l5, k) <==> h in Of(l0, k) + Polls(n, k) {
    }
  }

  lemma {:induction false} StartPollsIssued(t: Timers)
    requires HandlesIssued(t)
    ensures HandlesIssued(StartPolls(t)) && StartPolls(t).nextHandle == t.nextHandle + 5
  {
    StartPollsShape(t);
  }

  /** Each kind gains the one timer `startIntervals` starts for it. */
  lemma {:induction false} StartPollsKind(t: Timers, k: TimerKind)
    requires HandlesIssued(t)
    ensures Of(StartPolls(t).live, k) == Of(t.live, k) + Polls(t.nextHandle, k)
  {
    var n := t.nextHandle;
    StartPollsShape(t);
    assert StartPolls(t).live ==
      t.live[n := StatsPoll][n + 1 := BalancesPoll][n + 2 := BountiesGraphPoll][n + 3 := ProcessedTxsPoll][n + 4 := NetworkInfoPoll];
    FivePolls(t.live, n, k);
  }

  lemma {:induction false} StartPollsTidy(t: Timers)
    requires HandlesIssued(t) && TidyTimers(t)
    requires Of(t.live, StatsPoll) == {} && Of(t.live, BalancesPoll) == {}
    requires Of(t.live, BountiesGraphPoll) == {} && Of(t.live, NetworkInfoPoll) == {}
    ensures TidyTimers(StartPolls(t))
  {
    StartPollsShape(t);
    StartPollsKind(t, StatsPoll);
    StartPollsKind(t, BalancesPoll);
    StartPollsKind(t, BountiesGraphPoll);
    StartPollsKind(t, NetworkInfoPoll);
  }

  /** After `startIntervals` on stopped polls, each of the five kinds has
      exactly the timer just started, except the processed-transactions
      kind, which keeps its earlier timers besides the new one. */
  lemma {:induction false} StartPollsEffect(t: Timers)
    requires HandlesIssued(t) && TidyTimers(t)
    requires Of(t.live, StatsPoll) == {} && Of(t.live, BalancesPoll) == {}
    requires Of(t.live, BountiesGraphPoll) == {} && Of(t.live, NetworkInfoPoll) == {}
    ensures var r, n := StartPolls(t), t.nextHandle;
      && HandlesIssued(r) && TidyTimers(r)
      && r.nextHandle == n + 5
      && Of(r.live, StatsPoll) == {n} && Of(r.live, BalancesPoll) == {n + 1}
      && Of(r.live, BountiesGraphPoll) == {n + 2} && Of(r.live, NetworkInfoPoll) == {n + 4}
      && Of(r.live, ProcessedTxsPoll) == Of(t.live, ProcessedTxsPoll) + {n + 3}
      && Of(r.live, StatusCheck) == Of(t.live, StatusCheck)
  {
    StartPollsIssued(t);
    StartPollsTidy(t);
    StartPollsKind(t, StatsPoll);
    StartPollsKind(t, BalancesPoll);
    StartPollsKind(t, BountiesGraphPoll);
    StartPollsKind(t, ProcessedTxsPoll);
    StartPollsKind(t, NetworkInfoPoll);
    StartPollsKind(t, StatusCheck);
  }

  /** `startScanning`'s timer: one more status check, the field pointing at
      it, every other kind as it was. */
  lemma {:induction false} StartStatusCheckEffect(t: Timers)
    requires HandlesIssued(t) && TidyTimers(t)
    ensures var r, n := StartStatusCheck(t), t.nextHandle;
      && HandlesIssued(r) && TidyTimers(r)
      && r.statusCheck == Some(n) && r.live == t.live[n := StatusCheck]
      && Of(r.live, StatusCheck) == Of(t.live, StatusCheck) + {n}
      && (forall k :: k != StatusCheck ==> Of(r.live, k) == Of(t.live, k))
  {
    var n := t.nextHandle;
    AddTimerEffect(t, StatusCheck);
    assert Of(StartStatusCheck(t).live, StatusCheck) == Of(t.live, StatusCheck) + {n};
  }

  /** `stopScanning`'s timer: the status check the field holds is no longer
      live, and every other kind is as it was. */
  lemma {:induction false} StopStatusCheckEffect(t: Timers)
    requires HandlesIssued(t) && TidyTimers(t)
    ensures var r := StopStatusCheck(t);
      && HandlesIssued(r) && TidyTimers(r)
      && (t.statusCheck.Some? ==> t.statusCheck.value !in r.live)
      && Of(r.live, StatusCheck) == Of(t.live, StatusCheck) - RefSet(t.statusCheck)
      && (forall k :: k != StatusCheck ==> Of(r.live, k) == Of(t.live, k))
  {
    ClearTimerEffect(t, t.statusCheck, StatusCheck);
  }

  // ---------------------------------------------------------------------
  // The store's invariant

  lemma InitialWellFormed(storage: Storage)
    ensures WellFormed(Initial(storage))
    ensures Initial(storage).scanningStarted <==> Truthy(Load(storage, ScanningKey))
    ensures Initial(storage).walletKeystore == Load(storage, TimeNodeKey)
    ensures Status(Initial(storage)) == Loading
  {
  }

  lemma {:induction false} StartScanningKeeps(s: Session, k: TimerKind)
    requires WellFormed(s)
    ensures WellFormed(StartScanning(s))
    ensures k != StatusCheck ==> LiveOf(StartScanning(s), k) == LiveOf(s, k)
  {
    if Status(s) != Disabled {
      StartStatusCheckEffect(s.timers);
      assert StartScanning(s).timers == StartStatusCheck(s.timers);
    }
  }

  lemma {:induction false} StopScanningKeeps(s: Session, k: TimerKind)
    requires WellFormed(s)
    ensures WellFormed(StopScanning(s))
    ensures k != StatusCheck ==> LiveOf(StopScanning(s), k) == LiveOf(s, k)
  {
    StopStatusCheckEffect(s.timers);
    assert StopScanning(s).timers == StopStatusCheck(s.timers);
  }

  lemma {:induction false} ResumeKeeps(s: Session, k: TimerKind)
    requires WellFormed(s)
    ensures WellFormed(Resume(s))
    ensures Resume(s).pending == NothingPending
    ensures k != StatusCheck ==> LiveOf(Resume(s), k) == LiveOf(s, k)
  {
    var a := s.(pending := NothingPending);
    StartScanningKeeps(a, k);
  }

  /** `startIntervals` is its five polls, one after the other. */
  lemma {:induction false} StartIntervalsPolls(s: Session)
    ensures StartIntervals(s)
      == Poll(Poll(Poll(Poll(Poll(s, StatsPoll), BalancesPoll), BountiesGraphPoll), ProcessedTxsPoll), NetworkInfoPoll)
  {
    var p1 := Poll(s, StatsPoll);
    var p2 := Poll(p1, BalancesPoll);
    var p3 := Poll(p2, BountiesGraphPoll);
    var p4 := Poll(p3, ProcessedTxsPoll);
    var p5 := Poll(p4, NetworkInfoPoll);
    var a := GetNetworkInfo(UpdateProcessedTxsGraph(UpdateBountiesGraph(UpdateBalances(UpdateStats(s)))));
    assert p5.timers == StartPolls(s.timers);
    assert p5.outbox == a.outbox;
  }

  lemma StartIntervalsParts(x: Session)
    ensures StartIntervals(x).timers == StartPolls(x.timers)
    ensures StartIntervals(x).allLogs == x.allLogs
  {
  }

  lemma {:induction false} StopIntervalsKeeps(s: Session)
    requires WellFormed(s)
    ensures WellFormed(StopIntervals(s))
  {
    StopPollsEffect(s.timers);
  }

  /** The handler's decoding agrees with the vocabulary: a reply selects the
      arm of a type exactly when its type is that type's value, and the
      balances arm exactly when its type is undefined. */
  lemma {:induction false} CaseOfAgrees(v: Value, t: M.MessageType)
    ensures CaseOf(v) == TypeCase(t) <==> v == M.TypeValue(t)
    ensures CaseOf(v) == BalancesCase <==> v == Undefined
  {
    if v == M.TypeValue(t) {
      M.DecodeEncode(t);
    }
  }

  lemma {:induction false} OnStarted(s: Session, reply: Reply)
    requires reply.msgType == M.TypeValue(M.Started)
    ensures OnMessage(s, reply) == Resume(StartIntervals(StopIntervals(s)))
  {
    CaseOfAgrees(reply.msgType, M.Started);
  }

  /** `startScanning` starts at most a status check. */
  lemma StartScanningParts(a: Session)
    ensures StartScanning(a).timers == a.timers || StartScanning(a).timers == StartStatusCheck(a.timers)
    ensures StartScanning(a).allLogs == a.allLogs
    ensures StartScanning(a).pending == a.pending
  {
  }

  /** Resuming the awaited call starts at most a status check. */
  lemma {:induction false} ResumeParts(y: Session)
    ensures Resume(y).timers == y.timers || Resume(y).timers == StartStatusCheck(y.timers)
    ensures Resume(y).allLogs == y.allLogs
    ensures Resume(y).pending == NothingPending
  {
    StartScanningParts(y.(pending := NothingPending));
  }

  /** The timers after the STARTED handler: the polls restarted, and a
      status check started when the awaited call goes on to scan. */
  lemma {:induction false} OnStartedParts(s: Session, reply: Reply)
    requires reply.msgType == M.TypeValue(M.Started)
    ensures var r, u := OnMessage(s, reply), StartPolls(StopPolls(s.timers));
      && (r.timers == u || r.timers == StartStatusCheck(u))
      && r.allLogs == s.allLogs
      && r.pending == NothingPending
  {
    OnStarted(s, reply);
    var x := StopIntervals(s);
    StartIntervalsParts(x);
    ResumeParts(StartIntervals(x));
  }

  /** Stopping and restarting the polls: one timer per cleared kind, one more
      processed-transactions timer. */
  lemma {:induction false} PollsRestarted(t: Timers)
    requires HandlesIssued(t) && TidyTimers(t)
    ensures var u, n := StartPolls(StopPolls(t)), t.nextHandle;
      && HandlesIssued(u) && TidyTimers(u)
      && u.nextHandle == n + 5
      && Of(u.live, StatsPoll) == {n} && Of(u.live, BalancesPoll) == {n + 1}
      && Of(u.live, BountiesGraphPoll) == {n + 2} && Of(u.live, NetworkInfoPoll) == {n + 4}
      && Of(u.live, ProcessedTxsPoll) == Of(t.live, ProcessedTxsPoll) + {n + 3}
  {
    var m := StopPolls(t);
    StopPollsEffect(t);
    assert m.nextHandle == t.nextHandle;
    StartPollsEffect(m);
  }

  /** The worker's STARTED reply restarts polling: afterwards exactly one
      stats, one balances, one bounties-graph and one network-info timer is
      live. The processed-transactions timer is never cleared, so each
      STARTED reply leaves one more of them live. */
  lemma {:induction false} StartedResetsPolling(s: Session, reply: Reply)
    requires WellFormed(s) && reply.msgType == M.TypeValue(M.Started)
    ensures var r, n := OnMessage(s, reply), s.timers.nextHandle;
      && WellFormed(r)
      && r.pending == NothingPending
      && LiveOf(r, StatsPoll) == {n} && LiveOf(r, BalancesPoll) == {n + 1}
      && LiveOf(r, BountiesGraphPoll) == {n + 2} && LiveOf(r, NetworkInfoPoll) == {n + 4}
      && LiveOf(r, ProcessedTxsPoll) == LiveOf(s, ProcessedTxsPoll) + {n + 3}
      && |LiveOf(r, ProcessedTxsPoll)| == |LiveOf(s, ProcessedTxsPoll)| + 1
  {
    var u := StartPolls(StopPolls(s.timers));
    OnStartedParts(s, reply);
    PollsRestarted(s.timers);
    StartStatusCheckEffect(u);
    assert s.timers.nextHandle + 3 !in LiveOf(s, ProcessedTxsPoll);
  }

  // ---------------------------------------------------------------------
  // Every event keeps the invariant

  /** The arms that copy reply fields into the mirror: the statistics, the
      balances and the network information. */
  lemma CopyArms(s: Session, c: Case, reply: Reply)
    requires c == BalancesCase || c == TypeCase(M.UpdateStats) || c == TypeCase(M.GetNetworkInfo)
    ensures Handle(s, c, reply).timers == s.timers
    ensures Handle(s, c, reply).allLogs == s.allLogs
  {
  }

  /** The graph arms copy the graph data and clear the in-progress flag. */
  lemma GraphArms(s: Session, c: Case, reply: Reply)
    requires c == TypeCase(M.BountiesGraphData) || c == TypeCase(M.ProcessedTxs)
    ensures Handle(s, c, reply).timers == s.timers
    ensures Handle(s, c, reply).allLogs == s.allLogs
  {
  }

  /** Types the handler has no arm for, and values that are no type at all,
      change nothing. */
  lemma IgnoredArms(s: Session, c: Case, reply: Reply)
    requires c == NoCase || c == TypeCase(M.Start) || c == TypeCase(M.StartScanning)
      || c == TypeCase(M.StopScanning) || c == TypeCase(M.GetClaimedNotExecutedTransactions)
    ensures Handle(s, c, reply) == s
  {
  }

  /** LOG appends the entry it carries, if any. */
  lemma LogArm(s: Session, reply: Reply)
    ensures Handle(s, TypeCase(M.Log), reply).timers == s.timers
    ensures Handle(s, TypeCase(M.Log), reply).allLogs
      == if reply.value.Some? then PushLog(s.allLogs, reply.value.value) else s.allLogs
  {
  }

  /** CLEAR_STATS only asks for the statistics again. */
  lemma ClearStatsArm(s: Session, reply: Reply)
    ensures Handle(s, TypeCase(M.ClearStats), reply).timers == s.timers
    ensures Handle(s, TypeCase(M.ClearStats), reply).allLogs == s.allLogs
  {
  }

  /** The claimed transactions resolve the waiting caller, if any. */
  lemma ClaimedArm(s: Session, reply: Reply)
    ensures Handle(s, TypeCase(M.ReceivedClaimedNotExecutedTransactions), reply).timers == s.timers
    ensures Handle(s, TypeCase(M.ReceivedClaimedNotExecutedTransactions), reply).allLogs == s.allLogs
  {
  }

  /** Every reply but STARTED leaves the timers alone and at most appends to
      the log buffer. */
  lemma {:induction false} OtherReplyParts(s: Session, c: Case, reply: Reply)
    requires !(c.TypeCase? && c.t.Started?)
    ensures var r := Handle(s, c, reply);
      && r.timers == s.timers
      && (r.allLogs == s.allLogs || (reply.value.Some? && r.allLogs == PushLog(s.allLogs, reply.value.value)))
  {
    if c == TypeCase(M.Log) {
      LogArm(s, reply);
    } else if c == TypeCase(M.ClearStats) {
      ClearStatsArm(s, reply);
    } else if c == TypeCase(M.ReceivedClaimedNotExecutedTransactions) {
      ClaimedArm(s, reply);
    } else if c == BalancesCase || c == TypeCase(M.UpdateStats) || c == TypeCase(M.GetNetworkInfo) {
      CopyArms(s, c, reply);
    } else if c == TypeCase(M.BountiesGraphData) || c == TypeCase(M.ProcessedTxs) {
      GraphArms(s, c, reply);
    } else {
      IgnoredArms(s, c, reply);
    }
  }

  /** Unlocking sends START (or merely waits for the worker) and leaves the
      timers and the log buffer alone. */
  lemma UnlockParts(s: Session, password: string, defaults: StrategyKey -> string)
    ensures UnlockTimeNode(s, password, defaults).timers == s.timers
    ensures UnlockTimeNode(s, password, defaults).allLogs == s.allLogs
  {
    if Truthy(s.walletKeystore) && password != "" {
      var u := s.(unlocked := true);
      assert UnlockTimeNode(s, password, defaults) == StartClient(u, password, defaults, AwaitUnlock);
    }
  }

  /** A timer's callback only posts a request to the worker. */
  lemma TickParts(s: Session, k: TimerKind)
    ensures Tick(s, k).timers == s.timers
    ensures Tick(s, k).allLogs == s.allLogs
  {
    match k
    case StatsPoll =>
    case BalancesPoll =>
    case BountiesGraphPoll =>
    case ProcessedTxsPoll =>
    case NetworkInfoPoll =>
    case StatusCheck =>
  }

  /** Attaching a DAY account touches the mirror, the storage and the
      attached account only. */
  lemma AttachDayParts(s: Session, validSig: bool, fetched: Option<(Value, bool)>, encrypted: Value)
    ensures AttachDayAccount(s, validSig, fetched, encrypted).0.timers == s.timers
    ensures AttachDayAccount(s, validSig, fetched, encrypted).0.allLogs == s.allLogs
  {
  }

  /** The calls that write the storage or ask for the claimed transactions
      leave the timers and the log buffer alone. */
  lemma StorageCallParts(s: Session, keystore: Value, entries: seq<(string, Value)>, toWei: Value -> Value, caller: nat)
    ensures SetKeyStore(s, keystore).timers == s.timers && SetKeyStore(s, keystore).allLogs == s.allLogs
    ensures SaveClaimingStrategy(s, entries, toWei).timers == s.timers
    ensures SaveClaimingStrategy(s, entries, toWei).allLogs == s.allLogs
    ensures GetClaimedNotExecutedTransactions(s, caller).timers == s.timers
    ensures GetClaimedNotExecutedTransactions(s, caller).allLogs == s.allLogs
  {
  }

  /** The calls into the store other than scanning, restart and detach, and
      the timers' callbacks, leave the timers alone; only CLEAR_STATS touches
      the log buffer, which it empties. */
  lemma {:induction false} OtherCallParts(s: Session, e: Event, defaults: StrategyKey -> string, toWei: Value -> Value)
    requires !e.BeginScanning? && !e.EndScanning? && !e.RestartWith? && !e.Detach? && !e.Receive?
    ensures var r := Apply(s, e, defaults, toWei);
      r.timers == s.timers && (r.allLogs == s.allLogs || r.allLogs == [])
  {
    match e
    case Unlock(password) =>
      UnlockParts(s, password, defaults);
    case Clear =>
    case Fire(h) =>
      if h in s.timers.live {
        TickParts(s, s.timers.live[h]);
      }
    case AttachDay(validSig, fetched, encrypted) =>
      AttachDayParts(s, validSig, fetched, encrypted);
    case StoreKeystore(keystore) =>
      StorageCallParts(s, keystore, [], toWei, 0);
    case SaveStrategy(entries) =>
      StorageCallParts(s, Undefined, entries, toWei, 0);
    case AskClaimed(caller) =>
      StorageCallParts(s, Undefined, [], toWei, caller);
  }


  lemma {:induction false} RestartKeeps(s: Session, password: string, defaults: StrategyKey -> string)
    requires WellFormed(s)
    ensures WellFormed(Restart(s, password, defaults))
  {
    StopScanningKeeps(s, StatusCheck);
    StopIntervalsKeeps(StopScanning(s));
  }

  lemma {:induction false} DetachKeeps(s: Session)
    requires WellFormed(s)
    ensures WellFormed(DetachWallet(s))
    ensures forall k :: k != StatusCheck ==> LiveOf(DetachWallet(s), k) == LiveOf(s, k)
  {
    StopStatusCheckEffect(s.timers);
    assert DetachWallet(s).timers == StopStatusCheck(s.timers);
  }

  /** Every event keeps the store's invariant. */
  lemma {:induction false} EventKeepsWellFormed(s: Session, e: Event, defaults: StrategyKey -> string, toWei: Value -> Value)
    requires WellFormed(s)
    ensures WellFormed(Apply(s, e, defaults, toWei))
  {
    match e
    case BeginScanning => StartScanningKeeps(s, StatusCheck);
    case EndScanning => StopScanningKeeps(s, StatusCheck);
    case RestartWith(password) => RestartKeeps(s, password, defaults);
    case Detach => DetachKeeps(s);
    case Receive(reply) =>
      var c := CaseOf(reply.msgType);
      if c.TypeCase? && c.t.Started? {
        CaseOfAgrees(reply.msgType, M.Started);
        StartedResetsPolling(s, reply);
      } else {
        OtherReplyParts(s, c, reply);
      }
    case _ => OtherCallParts(s, e, defaults, toWei);
  }

  /** Whatever happens, in whatever order, from a store just constructed:
      its timers stay issued and tidy, and its log buffer within its cap. */
  lemma {:induction false} RunKeepsWellFormed(s: Session, events: seq<Event>, defaults: StrategyKey -> string, toWei: Value -> Value)
    requires WellFormed(s)
    ensures WellFormed(Run(s, events, defaults, toWei))
    decreases |events|
  {
    if events != [] {
      EventKeepsWellFormed(s, events[0], defaults, toWei);
      RunKeepsWellFormed(Apply(s, events[0], defaults, toWei), events[1..], defaults, toWei);
    }
  }

  /** So every state the store reaches has at most one live timer of each
      kind `stopIntervals` clears, and at most 1000 log entries. */
  lemma {:induction false} ReachableStates(storage: Storage, events: seq<Event>, defaults: StrategyKey -> string, toWei: Value -> Value)
    ensures var r := Run(Initial(storage), events, defaults, toWei);
      && |r.allLogs| <= LogCap
      && |LiveOf(r, StatsPoll)| <= 1 && |LiveOf(r, BalancesPoll)| <= 1
      && |LiveOf(r, BountiesGraphPoll)| <= 1 && |LiveOf(r, NetworkInfoPoll)| <= 1
  {
    InitialWellFormed(storage);
    RunKeepsWellFormed(Initial(storage), events, defaults, toWei);
    var r := Run(Initial(storage), events, defaults, toWei);
    SubsetOfRef(LiveOf(r, StatsPoll), r.timers.stats);
    SubsetOfRef(LiveOf(r, BalancesPoll), r.timers.balances);
    SubsetOfRef(LiveOf(r, BountiesGraphPoll), r.timers.bountiesGraph);
    SubsetOfRef(LiveOf(r, NetworkInfoPoll), r.timers.networkInfo);
  }

  lemma SubsetOfRef(a: set<nat>, ref: Option<nat>)
    requires a <= RefSet(ref)
    ensures |a| <= 1
  {
    if ref.Some? {
      if a != {} {
        var x :| x in a;
        assert a == {ref.value};
      }
    }
  }
}
