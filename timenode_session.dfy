/**
 * The state of the TimeNode store as one value, and every operation of the
 * store as a function from the state before to the state after. The class in
 * module TimeNode performs these operations step by step on its fields and is
 * proved to agree with these functions; the lemmas at the end of this module
 * state what the operations promise.
 *
 * The worker is a flag (is there one?) and the list of messages posted to it;
 * timers are live interval handles, each tagged with what it polls; the
 * storage service is a key/value map.
 */
module TimeNodeSession {
  import opened JsValues
  import M = WorkerMessages
  import opened NodeTiers
  import opened TimeNodeLogs
  import opened TimeNodeStorage

  /** The store properties a worker reply can overwrite by name. */
  datatype Observable =
    | Bounties
    | Costs
    | Profit
    | SuccessfulClaims
    | FailedClaims
    | SuccessfulExecutions
    | FailedExecutions
    | Discovered
    | BalanceETH
    | BalanceDAY
    | IsTimeMint
    | ProviderBlockNumber
    | NetId
    | BountiesGraph
    | ProcessedTransactions

  /** The property's name, both on the store and in the reply. */
  function PropertyName(f: Observable): string
  {
    match f
    case Bounties => "bounties"
    case Costs => "costs"
    case Profit => "profit"
    case SuccessfulClaims => "successfulClaims"
    case FailedClaims => "failedClaims"
    case SuccessfulExecutions => "successfulExecutions"
    case FailedExecutions => "failedExecutions"
    case Discovered => "discovered"
    case BalanceETH => "balanceETH"
    case BalanceDAY => "balanceDAY"
    case IsTimeMint => "isTimeMint"
    case ProviderBlockNumber => "providerBlockNumber"
    case NetId => "netId"
    case BountiesGraph => "bountiesGraphData"
    case ProcessedTransactions => "processedTxs"
  }

  const StatsFields: seq<Observable> :=
    [Bounties, Costs, Profit, SuccessfulClaims, FailedClaims, SuccessfulExecutions, FailedExecutions, Discovered]
  const BalanceFields: seq<Observable> := [BalanceETH, BalanceDAY, IsTimeMint]
  const NetworkFields: seq<Observable> := [ProviderBlockNumber, NetId]

  /** What an interval timer polls. */
  datatype TimerKind = StatsPoll | BalancesPoll | BountiesGraphPoll | ProcessedTxsPoll | NetworkInfoPoll | StatusCheck

  /** A text the worker receives: a plain string, or the plaintext that
      `decrypt` gives for a stored cipher (the decryption is a library call,
      so the model keeps the cipher it is applied to). */
  datatype Text = Plain(text: string) | Decrypted(cipher: Value)

  /** The START configuration built by `getWorkerOptions`, less the network
      and provider settings. */
  datatype WorkerOptions = WorkerOptions(
    keystore: seq<Text>,
    keystorePassword: string,
    dayAccountAddress: Text,
    logfile: string,
    logLevel: int,
    milliseconds: int,
    autostart: bool,
    scan: int,
    repl: bool,
    browserDB: bool,
    economicStrategy: map<StrategyKey, Value>,
    claiming: bool)

  datatype Params = NoParams | StartParams(options: WorkerOptions)

  /** A message posted to the worker: `{type, params}`. */
  datatype Posted = Posted(msgType: Value, params: Params)

  /** Who awaits the worker's STARTED reply: nobody, a bare `startClient`,
      `unlockTimeNode` (which then resumes scanning if the flag is saved), or
      `restart` (which then starts scanning). */
  datatype Pending = NothingPending | AwaitUnlock | AwaitRestart

  /** A reply from the worker: its `type`, its `value` (a log entry, read by
      LOG replies only; `None` when absent) and its other named fields. */
  datatype Reply = Reply(msgType: Value, value: Option<LogEntry>, data: map<string, Value>)

  /** The outcome `attachDayAccount` reports. */
  datatype Notice = Attached | NotEnoughTokens | AttachFailed

  /** The store's timers: the live interval handles with what each polls,
      the next handle `setInterval` hands out, and the handle each interval
      field holds (`updateStatsInterval`, `updateBalancesInterval`,
      `updateBountiesGraphInterval`, the declared but never assigned
      `updateProcessedTxsInterval`, `updateProcessedTxsGraphInterval`,
      `getNetworkInfoInterval`, `_timeNodeStatusCheckIntervalRef`). */
  datatype Timers = Timers(
    live: map<nat, TimerKind>,
    nextHandle: nat,
    stats: Option<nat>,
    balances: Option<nat>,
    bountiesGraph: Option<nat>,
    processedTxs: Option<nat>,
    processedTxsGraph: Option<nat>,
    networkInfo: Option<nat>,
    statusCheck: Option<nat>)

  datatype Session = Session(
    walletKeystore: Value,
    attachedDAYAccount: Value,
    scanningStarted: bool,
    claiming: bool,
    unlocked: bool,
    logType: LogView,
    allLogs: seq<LogEntry>,
    mirror: map<Observable, Value>,
    bountiesGraphInProgress: bool,
    processedTxsGraphInProgress: bool,
    hasWorker: bool,
    outbox: seq<Posted>,
    storage: Storage,
    timers: Timers,
    pending: Pending,
    claimedResolver: Option<nat>,
    claimedAnswers: map<nat, Value>)

  /** A field of a reply; a missing field reads as undefined. */
  function Field(data: map<string, Value>, name: string): Value
  {
    if name in data then data[name] else Undefined
  }

  /** An observable property of the store; never written means null. */
  function Observed(s: Session, f: Observable): Value
  {
    if f in s.mirror then s.mirror[f] else Null
  }

  /** The `nodeStatus` getter. */
  function Status(s: Session): Tier
  {
    NodeStatus(Observed(s, BalanceDAY), Observed(s, IsTimeMint))
  }

  /** The handles of the live timers of one kind. */
  function Of(live: map<nat, TimerKind>, k: TimerKind): set<nat>
  {
    set h | h in live && live[h] == k
  }

  function LiveOf(s: Session, k: TimerKind): set<nat>
  {
    Of(s.timers.live, k)
  }

  function RefSet(ref: Option<nat>): set<nat>
  {
    if ref.Some? then {ref.value} else {}
  }

  /** A stored handle is one already handed out. */
  predicate Issued(ref: Option<nat>, next: nat)
  {
    ref.Some? ==> 1 <= ref.value < next
  }

  /** Handles are positive (so a stored handle is truthy), and every live or
      stored handle was handed out before the next one. */
  ghost predicate HandlesIssued(t: Timers)
  {
    && t.nextHandle >= 1
    && (forall h :: h in t.live ==> 1 <= h < t.nextHandle)
    && Issued(t.stats, t.nextHandle)
    && Issued(t.balances, t.nextHandle)
    && Issued(t.bountiesGraph, t.nextHandle)
    && Issued(t.processedTxs, t.nextHandle)
    && Issued(t.processedTxsGraph, t.nextHandle)
    && Issued(t.networkInfo, t.nextHandle)
    && Issued(t.statusCheck, t.nextHandle)
  }

  /** The handle a field holds, when still live, is a timer of its kind. */
  predicate Typed(live: map<nat, TimerKind>, ref: Option<nat>, k: TimerKind)
  {
    ref.Some? && ref.value in live ==> live[ref.value] == k
  }

  /** Every live stats, balances, bounties-graph and network-info timer is
      the one its field refers to, so clearing the fields clears them all;
      and every field refers to a timer of its own kind. */
  ghost predicate TidyTimers(t: Timers)
  {
    && Of(t.live, StatsPoll) <= RefSet(t.stats)
    && Of(t.live, BalancesPoll) <= RefSet(t.balances)
    && Of(t.live, BountiesGraphPoll) <= RefSet(t.bountiesGraph)
    && Of(t.live, NetworkInfoPoll) <= RefSet(t.networkInfo)
    && Typed(t.live, t.stats, StatsPoll)
    && Typed(t.live, t.balances, BalancesPoll)
    && Typed(t.live, t.bountiesGraph, BountiesGraphPoll)
    && Typed(t.live, t.processedTxsGraph, ProcessedTxsPoll)
    && Typed(t.live, t.networkInfo, NetworkInfoPoll)
    && Typed(t.live, t.statusCheck, StatusCheck)
  }

  /** The invariant of the store: its timers are issued and tidy, and the
      log buffer is within its cap. */
  ghost predicate WellFormed(s: Session)
  {
    && HandlesIssued(s.timers)
    && TidyTimers(s.timers)
    && |s.allLogs| <= LogCap
  }

  /** The constructor: the session fields are restored from storage. */
  function Initial(storage: Storage): Session
  {
    Session(
      walletKeystore := Load(storage, TimeNodeKey),
      attachedDAYAccount := Load(storage, AttachedDayAccountKey),
      scanningStarted := Truthy(Load(storage, ScanningKey)),
      claiming := Truthy(Load(storage, ClaimingKey)),
      unlocked := false,
      logType := Basic,
      allLogs := [],
      mirror := map[],
      bountiesGraphInProgress := false,
      processedTxsGraphInProgress := false,
      hasWorker := false,
      outbox := [],
      storage := storage,
      timers := Timers(map[], 1, None, None, None, None, None, None, None),
      pending := NothingPending,
      claimedResolver := None,
      claimedAnswers := map[])
  }

  // ---------------------------------------------------------------------
  // Timers

  /** `setInterval`: a new live timer under the next handle. */
  function AddTimer(t: Timers, k: TimerKind): Timers
  {
    t.(live := t.live[t.nextHandle := k], nextHandle := t.nextHandle + 1)
  }

  /** `clearInterval` of a stored handle; clearing null does nothing. */
  function ClearTimer(t: Timers, ref: Option<nat>): Timers
  {
    if ref.Some? then t.(live := t.live - {ref.value}) else t
  }

  /** The timer part of `stopIntervals`. */
  function StopPolls(t: Timers): Timers
  {
    ClearTimer(ClearTimer(ClearTimer(ClearTimer(t, t.stats), t.balances), t.bountiesGraph), t.networkInfo)
  }

  /** The timer part of `startIntervals`. The processed-transactions handle
      goes to `updateProcessedTxsGraphInterval`, not to the declared
      `updateProcessedTxsInterval`. */
  function StartPolls(t: Timers): Timers
  {
    var a := AddTimer(t, StatsPoll).(stats := Some(t.nextHandle));
    var b := AddTimer(a, BalancesPoll).(balances := Some(a.nextHandle));
    var c := AddTimer(b, BountiesGraphPoll).(bountiesGraph := Some(b.nextHandle));
    var d := AddTimer(c, ProcessedTxsPoll).(processedTxsGraph := Some(c.nextHandle));
    AddTimer(d, NetworkInfoPoll).(networkInfo := Some(d.nextHandle))
  }

  /** `setInterval` for one poll, its handle stored in that poll's field. */
  function AddPoll(t: Timers, k: TimerKind): Timers
  {
    var u := AddTimer(t, k);
    var h := Some(t.nextHandle);
    match k
    case StatsPoll => u.(stats := h)
    case BalancesPoll => u.(balances := h)
    case BountiesGraphPoll => u.(bountiesGraph := h)
    case ProcessedTxsPoll => u.(processedTxsGraph := h)
    case NetworkInfoPoll => u.(networkInfo := h)
    case StatusCheck => u.(statusCheck := h)
  }

  /** The timer part of `startScanning`. */
  function StartStatusCheck(t: Timers): Timers
  {
    AddTimer(t, StatusCheck).(statusCheck := Some(t.nextHandle))
  }

  /** The timer part of `stopScanning`: the handle is cleared when it is set. */
  function StopStatusCheck(t: Timers): Timers
  {
    ClearTimer(t, t.statusCheck)
  }

  // ---------------------------------------------------------------------
  // Worker messages

  /** What `sendMessageWorker` appends: the message when a worker exists,
      nothing otherwise. */
  function Posts(hasWorker: bool, msgs: seq<Posted>): seq<Posted>
  {
    if hasWorker then msgs else []
  }

  /** `sendMessageWorker`: posted only when a worker exists. */
  function Send(s: Session, msgType: Value): Session
  {
    s.(outbox := s.outbox + Posts(s.hasWorker, [Posted(msgType, NoParams)]))
  }

  function UpdateStats(s: Session): Session
  {
    Send(s, M.TypeValue(M.UpdateStats))
  }

  /** Posts `TIMENODE_WORKER_MESSAGE_TYPES.UPDATE_BALANCES`, a key the
      vocabulary lacks: the message's type is undefined. */
  function UpdateBalances(s: Session): Session
  {
    Send(s, M.UpdateBalancesValue)
  }

  function UpdateBountiesGraph(s: Session): Session
  {
    Send(s.(bountiesGraphInProgress := true), M.TypeValue(M.BountiesGraphData))
  }

  function UpdateProcessedTxsGraph(s: Session): Session
  {
    Send(s.(processedTxsGraphInProgress := true), M.TypeValue(M.ProcessedTxs))
  }

  function GetNetworkInfo(s: Session): Session
  {
    Send(s, M.TypeValue(M.GetNetworkInfo))
  }

  function ClearStats(s: Session): Session
  {
    Send(s, M.TypeValue(M.ClearStats)).(allLogs := [])
  }

  /** `stopIntervals`: clears four of the five polling timers; the
      processed-transactions timer is not among them. */
  function StopIntervals(s: Session): Session
  {
    s.(timers := StopPolls(s.timers))
  }

  /** `startIntervals`: each poll runs once, then gets its timer. The
      messages and the timers do not interact, so the model posts the five
      messages and then starts the five timers. */
  function StartIntervals(s: Session): Session
  {
    var a := GetNetworkInfo(UpdateProcessedTxsGraph(UpdateBountiesGraph(UpdateBalances(UpdateStats(s)))));
    a.(timers := StartPolls(a.timers))
  }

  /** One poll as `startIntervals` runs it: the callback runs once, then it
      gets its timer. */
  function Poll(s: Session, k: TimerKind): Session
  {
    var a := Tick(s, k);
    a.(timers := AddPoll(a.timers, k))
  }

  // ---------------------------------------------------------------------
  // Scanning, client start, restart and detach

  /** `startScanning`: returns early for a Disabled node, otherwise marks
      scanning, starts the status-check timer, asks the worker to scan and for
      fresh stats, and saves the scanning flag. */
  function StartScanning(s: Session): Session
  {
    if Status(s) == Disabled then s
    else
      s.(scanningStarted := true,
         timers := StartStatusCheck(s.timers),
         outbox := s.outbox + Posts(s.hasWorker, [Posted(M.TypeValue(M.StartScanning), NoParams)])
                            + Posts(s.hasWorker, [Posted(M.TypeValue(M.UpdateStats), NoParams)]),
         storage := s.storage[ScanningKey := Bool(true)])
  }

  /** `stopScanning`: clears the flag and the status-check timer, tells the
      worker (if any) to stop, and removes the saved flag. */
  function StopScanning(s: Session): Session
  {
    s.(scanningStarted := false,
       timers := StopStatusCheck(s.timers),
       outbox := s.outbox + Posts(s.hasWorker, [Posted(M.TypeValue(M.StopScanning), NoParams)]),
       storage := s.storage - {ScanningKey})
  }

  /** `getWorkerOptions`, with its fixed tuning values. */
  function StartOptions(keystore: Value, claiming: bool, storage: Storage, password: string,
                        defaults: StrategyKey -> string): WorkerOptions
  {
    WorkerOptions(
      keystore := [Decrypted(keystore)],
      keystorePassword := password,
      dayAccountAddress := DayAccountText(storage),
      logfile := "console",
      logLevel := 1,
      milliseconds := 15000,
      autostart := false,
      scan := 950,
      repl := false,
      browserDB := true,
      economicStrategy := EconomicStrategy(storage, defaults),
      claiming := claiming)
  }

  /** `decrypt` converts a non-string with `toString()`, which throws on
      null and undefined; any other value decrypts to some text. */
  predicate DecryptThrows(v: Value)
  {
    v.Null? || v.Undefined?
  }

  /** `startClient` up to its wait: a new worker is created and sent START;
      `awaiting` is what runs once it replies STARTED. Without a keystore
      `getWorkerOptions` throws in `decrypt` before the worker exists, and
      the call changes nothing. */
  function StartClient(s: Session, password: string, defaults: StrategyKey -> string, awaiting: Pending): Session
  {
    if DecryptThrows(s.walletKeystore) then s
    else
      var options := StartOptions(s.walletKeystore, s.claiming, s.storage, password, defaults);
      s.(hasWorker := true,
         pending := awaiting,
         outbox := s.outbox + [Posted(M.TypeValue(M.Start), StartParams(options))])
  }

  /** `unlockTimeNode`: needs a keystore and a non-empty password. */
  function UnlockTimeNode(s: Session, password: string, defaults: StrategyKey -> string): Session
  {
    if Truthy(s.walletKeystore) && password != "" then
      StartClient(s.(unlocked := true), password, defaults, AwaitUnlock)
    else
      s.(unlocked := false)
  }

  /** `restart`: stop scanning, stop the polls, drop the worker, start a new
      client; scanning starts again once it replies STARTED. When the new
      client throws (no keystore) the rejection skips `startScanning`. */
  function Restart(s: Session, password: string, defaults: StrategyKey -> string): Session
  {
    var a := StopIntervals(StopScanning(s));
    StartClient(a.(hasWorker := false), password, defaults, AwaitRestart)
  }

  /** `detachWallet`: removes the keystore, the attached account, the
      claiming and scanning flags, stops scanning and drops the worker. */
  function DetachWallet(s: Session): Session
  {
    StopScanning(ForgetWallet(s)).(hasWorker := false)
  }

  /** The removals `detachWallet` makes before it stops scanning. */
  function ForgetWallet(s: Session): Session
  {
    s.(storage := s.storage - {TimeNodeKey} - {AttachedDayAccountKey} - {ClaimingKey} - {ScanningKey},
       walletKeystore := Null, attachedDAYAccount := Null, claiming := false)
  }

  function SetKeyStore(s: Session, keystore: Value): Session
  {
    s.(walletKeystore := keystore, storage := s.storage[TimeNodeKey := keystore])
  }

  function SaveClaimingStrategy(s: Session, entries: seq<(string, Value)>, toWei: Value -> Value): Session
  {
    s.(storage := SaveEntries(SaveClaimingFlag(s.storage, s.claiming), entries, toWei))
  }

  /** `getClaimedNotExecutedTransactions`: asks the worker and makes the
      caller the one whose promise the next reply resolves, replacing any
      earlier caller. */
  function GetClaimedNotExecutedTransactions(s: Session, caller: nat): Session
  {
    Send(s, M.TypeValue(M.GetClaimedNotExecutedTransactions)).(claimedResolver := Some(caller))
  }

  /** `attachDayAccount` after its external checks: `validSig` is the
      signature check, `fetched` the parsed DAY balance and whether the minting
      power is positive (`None` when the lookup failed), `encrypted` the
      encrypted address. */
  function AttachDayAccount(s: Session, validSig: bool, fetched: Option<(Value, bool)>, encrypted: Value): (Session, Notice)
  {
    if !validSig || fetched.None? then (s, AttachFailed)
    else
      var a := s.(mirror := s.mirror[BalanceDAY := fetched.value.0][IsTimeMint := Bool(fetched.value.1)]);
      if Status(a) != Disabled then
        (a.(storage := a.storage[AttachedDayAccountKey := encrypted], attachedDAYAccount := encrypted), Attached)
      else
        (a, NotEnoughTokens)
  }

  // ---------------------------------------------------------------------
  // Worker replies

  /** `getValuesIfInMessage`: each listed property is overwritten by the
      reply's field of that name unless the field is null (a missing field is
      undefined, which does overwrite). */
  function CopyFields(mirror: map<Observable, Value>, data: map<string, Value>, names: seq<Observable>): map<Observable, Value>
  {
    if names == [] then mirror
    else
      var m := CopyFields(mirror, data, names[..|names| - 1]);
      var f := names[|names| - 1];
      var v := Field(data, PropertyName(f));
      if v != Null then m[f := v] else m
  }

  /** Copying one more field copies that field last. */
  lemma CopyFieldsStep(mirror: map<Observable, Value>, data: map<string, Value>, names: seq<Observable>, i: nat)
    requires i < |names|
    ensures var m, v := CopyFields(mirror, data, names[..i]), Field(data, PropertyName(names[i]));
      CopyFields(mirror, data, names[..i + 1]) == if v != Null then m[names[i] := v] else m
  {
    assert names[..i + 1][..i] == names[..i];
  }

  /** The STARTED reply resolves the awaited start and lets its caller go on. */
  function Resume(s: Session): Session
  {
    var a := s.(pending := NothingPending);
    match s.pending
    case AwaitUnlock => if Truthy(Load(a.storage, ScanningKey)) then StartScanning(a) else a
    case AwaitRestart => StartScanning(a)
    case _ => a
  }

  /** The RECEIVED_CLAIMED_NOT_EXECUTED_TRANSACTIONS reply resolves the last
      caller's promise once; with no caller the handler fails and nothing
      changes. */
  function ResolveClaimed(s: Session, transactions: Value): Session
  {
    match s.claimedResolver
    case None => s
    case Some(c) =>
      if c in s.claimedAnswers then s else s.(claimedAnswers := s.claimedAnswers[c := transactions])
  }

  /** The case of the reply handler's switch that a reply's type selects:
      the declared type whose value it strictly equals, the UPDATE_BALANCES
      case (whose value is undefined), or no case. */
  datatype Case = TypeCase(t: M.MessageType) | BalancesCase | NoCase

  function CaseOf(v: Value): (c: Case)
    ensures c.TypeCase? ==> v == M.TypeValue(c.t)
    ensures c == BalancesCase <==> v == M.UpdateBalancesValue
  {
    if v == M.UpdateBalancesValue then BalancesCase
    else if v.Str? && M.FromWire(v.s).Some? then TypeCase(M.FromWire(v.s).value)
    else NoCase
  }

  /** The worker's `onmessage` handler: a switch on the reply's type. */
  function OnMessage(s: Session, r: Reply): Session
  {
    Handle(s, CaseOf(r.msgType), r)
  }

  /** The arms of the switch, selected by the decoded type. */
  function Handle(s: Session, c: Case, r: Reply): Session
  {
    match c
    case NoCase => s
    case BalancesCase => s.(mirror := CopyFields(s.mirror, r.data, BalanceFields))
    case TypeCase(t) =>
      if t.Started? then
        Resume(StartIntervals(StopIntervals(s)))
      else if t.Log? then
        if r.value.Some? then s.(allLogs := PushLog(s.allLogs, r.value.value)) else s
      else if t.UpdateStats? then
        s.(mirror := CopyFields(s.mirror, r.data, StatsFields))
      else if t.ClearStats? then
        UpdateStats(s)
      else if t.GetNetworkInfo? then
        s.(mirror := CopyFields(s.mirror, r.data, NetworkFields))
      else if t.ReceivedClaimedNotExecutedTransactions? then
        ResolveClaimed(s, Field(r.data, "transactions"))
      else if t.BountiesGraphData? then
        s.(bountiesGraphInProgress := false, mirror := CopyFields(s.mirror, r.data, [BountiesGraph]))
      else if t.ProcessedTxs? then
        s.(mirror := CopyFields(s.mirror, r.data, [ProcessedTransactions]), processedTxsGraphInProgress := false)
      else
        s
  }

  // ---------------------------------------------------------------------
  // Getters

  /** `getMyAddress`: with a keystore, the address parsed from it (`None`
      when the keystore has none), given a `0x` prefix when it lacks one. */
  function MyAddress(walletKeystore: Value, address: Option<string>): Value
  {
    if !Truthy(walletKeystore) then Str("")
    else match address
      case None => Undefined
      case Some(a) => Str(WithHexPrefix(a))
  }

  function WithHexPrefix(a: string): (r: string)
    ensures a != "" ==> HasSubstring(r, "0x")
  {
    if a != "" && !HasSubstring(a, "0x") then "0x" + a else a
  }

  /** The `dayAccountAddress` of the START options: the stored cipher to be
      decrypted, or "" when none is stored. */
  function DayAccountText(storage: Storage): Text
  {
    var encrypted := Load(storage, AttachedDayAccountKey);
    if Truthy(encrypted) then Decrypted(encrypted) else Plain("")
  }

  /** The string a `Text` stands for, given the decryption. */
  function Reveal(t: Text, decrypt: Value -> string): string
  {
    match t
    case Plain(text) => text
    case Decrypted(cipher) => decrypt(cipher)
  }

  /** `getAttachedDAYAddress`: the decrypted stored address, or "". */
  function AttachedDAYAddress(storage: Storage, decrypt: Value -> string): string
  {
    var encrypted := Load(storage, AttachedDayAccountKey);
    if Truthy(encrypted) then decrypt(encrypted) else ""
  }

  // ---------------------------------------------------------------------
  // Everything that can happen to the store

  /** A call into the store, a timer firing, or a reply from the worker. */
  datatype Event =
    | Unlock(password: string)
    | BeginScanning
    | EndScanning
    | RestartWith(password: string)
    | Detach
    | Receive(reply: Reply)
    | Clear
    | Fire(handle: nat)
    | AttachDay(validSig: bool, fetched: Option<(Value, bool)>, encrypted: Value)
    | StoreKeystore(keystore: Value)
    | SaveStrategy(entries: seq<(string, Value)>)
    | AskClaimed(caller: nat)  // `caller` names the new promise this call returns: one name per call

  /** The callback a live timer runs; the status check only reports to the
      analytics service, which is outside this model. */
  function Tick(s: Session, k: TimerKind): Session
  {
    match k
    case StatsPoll => UpdateStats(s)
    case BalancesPoll => UpdateBalances(s)
    case BountiesGraphPoll => UpdateBountiesGraph(s)
    case ProcessedTxsPoll => UpdateProcessedTxsGraph(s)
    case NetworkInfoPoll => GetNetworkInfo(s)
    case StatusCheck => s
  }

  function Apply(s: Session, e: Event, defaults: StrategyKey -> string, toWei: Value -> Value): Session
  {
    match e
    case Unlock(password) => UnlockTimeNode(s, password, defaults)
    case BeginScanning => StartScanning(s)
    case EndScanning => StopScanning(s)
    case RestartWith(password) => Restart(s, password, defaults)
    case Detach => DetachWallet(s)
    case Receive(reply) => OnMessage(s, reply)
    case Clear => ClearStats(s)
    case Fire(h) => if h in s.timers.live then Tick(s, s.timers.live[h]) else s
    case AttachDay(validSig, fetched, encrypted) => AttachDayAccount(s, validSig, fetched, encrypted).0
    case StoreKeystore(keystore) => SetKeyStore(s, keystore)
    case SaveStrategy(entries) => SaveClaimingStrategy(s, entries, toWei)
    case AskClaimed(caller) => GetClaimedNotExecutedTransactions(s, caller)
  }

  /** The state after a series of events, from first to last. */
  function Run(s: Session, events: seq<Event>, defaults: StrategyKey -> string, toWei: Value -> Value): Session
    decreases |events|
  {
    if events == [] then s else Run(Apply(s, events[0], defaults, toWei), events[1..], defaults, toWei)
  }
}
