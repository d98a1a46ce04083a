# TimeNode store, transaction store and setting validators

This project is a Dafny model of the state-keeping core of the TimeNode and
scheduling dashboard. It covers five source files.

- **The TimeNode store** (`app/stores/TimeNodeStore.js`). This is the supervisor
  of a TimeNode session. It holds the keystore, the attached DAY account, the
  scanning and claiming switches, the log buffer, the statistics mirrored from
  the worker, the live polling timers and the storage service. Two modules
  model it:
  - Module `TimeNodeSession` states the whole store as one value (`Session`).
    Every store operation is a function from the state before to the state
    after. `Event`, `Apply` and `Run` describe any series of user calls,
    worker replies and timer ticks.
  - Module `TimeNode` holds the class `TimeNodeStore`. Its methods update the
    fields step by step, and each method is proved to agree with the
    matching `Session` function.

  Lemmas in `TimeNodeBehaviour` and `TimeNodeProperties` state what the
  operations promise, and the invariant every reachable state keeps. Smaller
  modules hold the parts that stand alone:
  - `NodeTiers`: the node-status tiers;
  - `TimeNodeLogs`: the capped log buffer and its basic view;
  - `TimeNodeStorage`: the storage keys and the economic strategy.
- **The worker vocabulary** (`app/js/timenode-worker-message-types.js`).
  Module `WorkerMessages` models it as an enumeration with an injective wire
  encoding and a partial decoder. It also covers the `UPDATE_BALANCES` key,
  which the vocabulary does not declare.
- **The transaction store** (`app/stores/TransactionStore.js`). Module
  `Transactions` holds:
  - the status rules;
  - the resolved/unresolved filter, count and slice of the paginated queries;
  - loading every transaction with its status;
  - the address filter.

  Module `TransactionProperties` proves what these promise.
- **The statistics** (`app/stores/TransactionStatistics.js`). Module
  `TransactionStatistics` models the upcoming count and the efficiency
  percentage.
- **The setting validators** (`app/components/ScheduleWizard/AbstractSetting.js`).
  Module `ScheduleSettings` models the integer, decimal and boolean validators
  and `validate`/`onChange`.

Module `JsValues` models the JavaScript values these files compare and
convert: truthiness, `Number(...)`, `toString` and `indexOf`.

The model keeps several behaviours exactly as the code has them:
- Only a `Disabled` tier blocks `startScanning`. A balance that is still
  loading does not (`StartScanningGuard`).
- `stopIntervals` clears four timers, while `startIntervals` starts five. The
  processed-transactions timer is stored under a field that nothing clears.
  Each `STARTED` reply therefore leaves one more live processed-transactions
  timer (`StartedResetsPolling`).
- Starting scanning twice leaks a status-check timer (`StatusCheckLeak`).
- `getClaimedNotExecutedTransactions` keeps a single resolver slot. A second
  call overwrites the first caller, and that caller never gets an answer
  (`ClaimedSlotOverwritten`).
- `UPDATE_BALANCES` is missing from the vocabulary, so the balance request
  posts `undefined` as its type. A reply whose type is `undefined` is
  dispatched as a balances reply (`UpdateBalancesUndeclared`, `BalancesRequest`,
  `BalancesReply`).
- In the validators, `!Number(value) > 0` holds exactly when the number is 0
  or NaN. So "000" and "0.00" are rejected with the second message, not the
  first (`IntegerZeros`, `DecimalZeros`).

## Model

| member | source | states |
|---|---|---|
| WorkerMessages.FromWire | app/js/timenode-worker-message-types.js:1-14 | a decoded wire string is the wire value of the message type it returns |
| WorkerMessages.Declared | app/js/timenode-worker-message-types.js:1-14 | a key found in the vocabulary names the message type returned |
| WorkerMessages.DecodeEncode | app/js/timenode-worker-message-types.js:1-14 | decoding the wire value of any message type gives that type back |
| WorkerMessages.KeyInjective | app/js/timenode-worker-message-types.js:1-14 | no two message types share a key |
| WorkerMessages.WireInjective | app/js/timenode-worker-message-types.js:1-14 | no two message types share a wire value |
| WorkerMessages.DeclaredComplete | app/js/timenode-worker-message-types.js:1-14 | every message type is found by its own key |
| WorkerMessages.LookupUndefinedIff | app/js/timenode-worker-message-types.js:1-14 | looking a key up gives undefined exactly when no type has that key, and the type's wire value otherwise |
| WorkerMessages.TypeValueIsLookup | app/js/timenode-worker-message-types.js:1-14 | the value a type posts is its lookup, and distinct types post distinct values |
| WorkerMessages.VocabularyComplete | app/js/timenode-worker-message-types.js:1-14 | the vocabulary has twelve entries and lists every message type |
| WorkerMessages.VocabularyDistinct | app/js/timenode-worker-message-types.js:1-14 | no message type is listed twice |
| WorkerMessages.UpdateBalancesUndeclared | app/stores/TimeNodeStore.js:484-486 | the `UPDATE_BALANCES` key looks up to undefined, and "update-balances" decodes to nothing |
| WorkerMessages.NotBalances | app/js/timenode-worker-message-types.js:1-14 | no declared type has the key `UPDATE_BALANCES` or the wire value "update-balances" |
| WorkerMessages.ConfusablePairsDistinct | app/js/timenode-worker-message-types.js:3-11 | "start" and "started" differ, the claimed request and its reply differ, and the stats type is not the undefined balances type |
| NodeTiers.NodeStatus | app/stores/TimeNodeStore.js:102-119 | the tier is Loading exactly when the DAY balance is null, and Disabled exactly when the balance is below the TimeNode minimum and the account is not a TimeMint |
| NodeTiers.NodeStatusMonotone | app/stores/TimeNodeStore.js:102-119 | a larger DAY balance never gives a lower tier |
| NodeTiers.TimeMintOnlyLiftsDisabled | app/stores/TimeNodeStore.js:114 | being a TimeMint changes the tier only from Disabled to TimeNode |
| NodeTiers.TierBoundaries | app/stores/TimeNodeStore.js:19-34 | balances 3333, 888 and 333 are the tier thresholds; null is Loading and undefined is Disabled |
| NodeTiers.StringBalanceTier | app/stores/TimeNodeStore.js:19-34 | the text "5000" compares as the number 5000 |
| NodeTiers.NamesDistinct | app/stores/TimeNodeStore.js:19-34 | the tier names are distinct |
| TimeNodeStorage.LoadStrategy | app/stores/TimeNodeStore.js:130-133 | a strategy entry is exactly the stored value when that is truthy, and exactly the configured default as text when it is falsy or missing |
| TimeNodeStorage.EconomicStrategyComplete | app/stores/TimeNodeStore.js:128-145 | the strategy has exactly the eight keys, each loaded or defaulted |
| TimeNodeStorage.SaveEntriesEffect | app/stores/TimeNodeStore.js:555-563 | a truthy entry is saved in its stored form, a falsy one is removed, and every other key is untouched |
| TimeNodeStorage.StrategyNamesApart | app/stores/TimeNodeStore.js:41-48 | strategy names are distinct and none is a session storage key |
| TimeNodeStorage.SessionKeyRemovalKeepsStrategy | app/stores/TimeNodeStore.js:41-48 | removing a session key leaves the economic strategy unchanged |
| TimeNodeStorage.SavedStrategyReadsBack | app/stores/TimeNodeStore.js:547-564 | after saving, the strategy reads back the saved value (converted to wei except `maxGasSubsidy`), or the default when the entry was falsy |
| TimeNodeLogs.PushLog | app/stores/TimeNodeStore.js:340-349 | a CACHE entry is dropped; any other entry becomes the last one and the buffer keeps the most recent 1000 |
| TimeNodeLogs.PushAllKeepsMostRecent | app/stores/TimeNodeStore.js:340-349 | after any number of log messages the buffer is the last 1000 non-CACHE entries of all of them |
| TimeNodeLogs.FilterBasicMembers | app/stores/TimeNodeStore.js:68-74 | the basic view holds exactly the INFO and ERROR entries |
| TimeNodeLogs.FilterBasicAppend | app/stores/TimeNodeStore.js:68-74 | the basic view keeps the order of the buffer |
| TimeNodeSession.CaseOf | app/stores/TimeNodeStore.js:270-325 | a reply dispatches to a message type's arm only when its type is that type's value, and to the balances arm exactly when its type is undefined |
| TimeNodeSession.WithHexPrefix | app/stores/TimeNodeStore.js:448-450 | a non-empty address comes back containing "0x" |
| TimeNodeBehaviour.StartScanningGuard | app/stores/TimeNodeStore.js:357-362 | a Disabled node does not start scanning; any other tier, a loading balance included, does |
| TimeNodeBehaviour.StartScanningEffect | app/stores/TimeNodeStore.js:357-375 | starting sets the flag, adds a status-check timer, posts start-scanning and update-stats when a worker exists, and saves the scanning key |
| TimeNodeBehaviour.StatusCheckLeak | app/stores/TimeNodeStore.js:366-382 | starting twice then stopping leaves one more live status-check timer than before |
| TimeNodeBehaviour.StopScanningEffect | app/stores/TimeNodeStore.js:377-388 | stopping clears the flag and the last status-check timer, posts stop-scanning when a worker exists, and removes the scanning key |
| TimeNodeBehaviour.StopScanningIdempotent | app/stores/TimeNodeStore.js:377-388 | without a worker, stopping twice is stopping once |
| TimeNodeBehaviour.DetachEffect | app/stores/TimeNodeStore.js:583-598 | detaching removes the four session keys, clears keystore, account, claiming, scanning and the worker, and leaves every other key as it was |
| TimeNodeBehaviour.DetachKeepsStrategy | app/stores/TimeNodeStore.js:583-598 | detaching leaves the economic strategy as it was |
| TimeNodeBehaviour.RestartEffect | app/stores/TimeNodeStore.js:575-581 | restart stops scanning and four polls. With a keystore it posts START carrying the decrypted keystore, the password, the attached DAY account, the claiming flag and the stored strategy, and waits for the reply to start scanning. Without one, `decrypt` throws: the worker is gone and nothing is posted after STOP_SCANNING |
| TimeNodeBehaviour.RestartAfterDetach | app/stores/TimeNodeStore.js:575-581 | restarting after the wallet is detached stops the worker and starts nothing |
| TimeNodeBehaviour.StartOptionsAddress | app/stores/TimeNodeStore.js:213-230 | the START options reveal, through `decrypt`, the keystore and the same DAY address `getAttachedDAYAddress` returns |
| TimeNodeBehaviour.UnlockEffect | app/stores/TimeNodeStore.js:200-230 | with a keystore and a password the node unlocks and posts START whose options carry the decrypted keystore and that password; otherwise only `unlocked` becomes false |
| TimeNodeBehaviour.CopyFieldsEffect | app/stores/TimeNodeStore.js:262-268 | a listed field takes the reply's value unless that is null; every other field keeps its value |
| TimeNodeBehaviour.StatsReply | app/stores/TimeNodeStore.js:282-293 | an update-stats reply copies the non-null statistics fields and changes nothing else |
| TimeNodeBehaviour.BalancesReply | app/stores/TimeNodeStore.js:295-297 | a reply of undefined type copies the non-null balance fields and changes nothing else |
| TimeNodeBehaviour.BalancesRequest | app/stores/TimeNodeStore.js:484-486 | the balance request posts the undefined type, which no declared type posts |
| TimeNodeBehaviour.NetworkReply | app/stores/TimeNodeStore.js:304-310 | a network-info reply copies the non-null network fields and changes nothing else |
| TimeNodeBehaviour.GraphRequests | app/stores/TimeNodeStore.js:488-496 | each graph request sets its in-progress flag and posts its type |
| TimeNodeBehaviour.BountiesGraphReply | app/stores/TimeNodeStore.js:316-319 | the bounties-graph reply copies the graph and clears its in-progress flag |
| TimeNodeBehaviour.ProcessedTxsReply | app/stores/TimeNodeStore.js:321-324 | the processed-transactions reply copies the data and clears its in-progress flag |
| TimeNodeBehaviour.LogReply | app/stores/TimeNodeStore.js:278-280 | a log reply pushes its entry into the log buffer |
| TimeNodeBehaviour.ClearStatsRoundTrip | app/stores/TimeNodeStore.js:498-501 | clearing empties the logs and posts clear-stats; the worker's clear-stats reply posts update-stats |
| TimeNodeBehaviour.ClaimedSlotOverwritten | app/stores/TimeNodeStore.js:332-338 | after two calls the reply answers only the second caller; the first never gets an answer |
| TimeNodeBehaviour.ClaimedAnswerFinal | app/stores/TimeNodeStore.js:312-314 | once the waiting caller has been answered, a further reply changes nothing |
| TimeNodeBehaviour.AttachDayOutcomes | app/stores/TimeNodeStore.js:508-545 | an invalid signature or failed balance fetch changes nothing; otherwise the balances are recorded, and the account is saved exactly when the resulting tier is not Disabled |
| TimeNodeBehaviour.AttachedAddressLifecycle | app/stores/TimeNodeStore.js:458-465 | after detaching the attached address is empty; after a successful attach it is the decrypted account |
| TimeNodeBehaviour.SaveStrategyEffect | app/stores/TimeNodeStore.js:547-564 | the claiming key is saved exactly when claiming is on, and each strategy entry is saved in stored form or removed |
| TimeNodeBehaviour.MyAddressPrefix | app/stores/TimeNodeStore.js:443-456 | no keystore gives ""; an address without "0x" gets the prefix; one with "0x" is returned as is |
| TimeNodeProperties.StopPollsEffect | app/stores/TimeNodeStore.js:232-237 | stopping intervals clears the stats, balances, bounties-graph and network-info timers and leaves processed-transactions and status-check timers live |
| TimeNodeProperties.StartPollsEffect | app/stores/TimeNodeStore.js:239-254 | starting intervals adds one fresh timer of each of the five kinds |
| TimeNodeProperties.StartStatusCheckEffect | app/stores/TimeNodeStore.js:366-369 | starting the status check adds one fresh status-check timer and stores its handle |
| TimeNodeProperties.StopStatusCheckEffect | app/stores/TimeNodeStore.js:380-382 | stopping clears only the status-check timer whose handle is stored |
| TimeNodeProperties.InitialWellFormed | app/stores/TimeNodeStore.js:182-198 | the constructed store is well formed, loads keystore and scanning flag from storage, and starts out Loading |
| TimeNodeProperties.StartIntervalsPolls | app/stores/TimeNodeStore.js:239-254 | starting intervals is the five polls in source order |
| TimeNodeProperties.StartedResetsPolling | app/stores/TimeNodeStore.js:271-276 | a STARTED reply leaves exactly one live timer for each of four polls, and one more processed-transactions timer than before |
| TimeNodeProperties.EventKeepsWellFormed | app/stores/TimeNodeStore.js:256-330 | every user call, worker reply and timer tick keeps the store well formed |
| TimeNodeProperties.RunKeepsWellFormed | app/stores/TimeNodeStore.js:256-330 | any series of events keeps the store well formed |
| TimeNodeProperties.ReachableStates | app/stores/TimeNodeStore.js:38 | from the constructed store the log buffer never exceeds 1000 and at most one stats, balances, bounties-graph and network-info timer is live |
| TimeNode.TimeNodeStore.constructor | app/stores/TimeNodeStore.js:182-198 | the fields are loaded from the storage service as `Initial` states |
| TimeNode.TimeNodeStore.NodeStatus | app/stores/TimeNodeStore.js:102-119 | the tier of the current state |
| TimeNode.TimeNodeStore.SendMessageWorker | app/stores/TimeNodeStore.js:467-474 | the message is posted only when there is a worker |
| TimeNode.TimeNodeStore.UpdateStats | app/stores/TimeNodeStore.js:480-482 | the state after is `UpdateStats` of the state before |
| TimeNode.TimeNodeStore.UpdateBalances | app/stores/TimeNodeStore.js:484-486 | the state after is `UpdateBalances` of the state before |
| TimeNode.TimeNodeStore.UpdateBountiesGraph | app/stores/TimeNodeStore.js:488-491 | the state after is `UpdateBountiesGraph` of the state before |
| TimeNode.TimeNodeStore.UpdateProcessedTxsGraph | app/stores/TimeNodeStore.js:493-496 | the state after is `UpdateProcessedTxsGraph` of the state before |
| TimeNode.TimeNodeStore.GetNetworkInfo | app/stores/TimeNodeStore.js:476-478 | the state after is `GetNetworkInfo` of the state before |
| TimeNode.TimeNodeStore.ClearStats | app/stores/TimeNodeStore.js:498-501 | the state after is `ClearStats` of the state before |
| TimeNode.TimeNodeStore.StopIntervals | app/stores/TimeNodeStore.js:232-237 | the state after is `StopIntervals` of the state before |
| TimeNode.TimeNodeStore.StartIntervals | app/stores/TimeNodeStore.js:239-254 | the state after is `StartIntervals` of the state before |
| TimeNode.TimeNodeStore.StartPoll | app/stores/TimeNodeStore.js:240-241 | one immediate request and one new interval of the given kind |
| TimeNode.TimeNodeStore.RunCallback | app/stores/TimeNodeStore.js:366-368 | a timer's callback is the request of its kind |
| TimeNode.TimeNodeStore.TimerFired | app/stores/TimeNodeStore.js:239-254 | a live timer firing runs its callback; a cleared one does nothing |
| TimeNode.TimeNodeStore.StartScanning | app/stores/TimeNodeStore.js:357-375 | the state after is `StartScanning` of the state before |
| TimeNode.TimeNodeStore.StopScanning | app/stores/TimeNodeStore.js:377-388 | the state after is `StopScanning` of the state before |
| TimeNode.TimeNodeStore.StartClient | app/stores/TimeNodeStore.js:394-410 | a new worker is posted START with the options of `getWorkerOptions`; a null or undefined keystore makes `decrypt` throw, and nothing changes |
| TimeNode.TimeNodeStore.UnlockTimeNode | app/stores/TimeNodeStore.js:200-211 | the state after is `UnlockTimeNode` of the state before |
| TimeNode.TimeNodeStore.Restart | app/stores/TimeNodeStore.js:575-581 | the state after is `Restart` of the state before |
| TimeNode.TimeNodeStore.DetachWallet | app/stores/TimeNodeStore.js:583-598 | the state after is `DetachWallet` of the state before |
| TimeNode.TimeNodeStore.ForgetWallet | app/stores/TimeNodeStore.js:584-593 | the three wallet keys and fields are cleared, then the scanning key is removed |
| TimeNode.TimeNodeStore.SetKeyStore | app/stores/TimeNodeStore.js:412-415 | the keystore field and its storage key both become the keystore |
| TimeNode.TimeNodeStore.SaveClaimingStrategy | app/stores/TimeNodeStore.js:547-564 | the state after is `SaveClaimingStrategy` of the state before |
| TimeNode.TimeNodeStore.SaveEntriesInOrder | app/stores/TimeNodeStore.js:555-563 | the loop stores each truthy entry in its stored form and removes each falsy one, in order |
| TimeNode.TimeNodeStore.HasStorageItems | app/stores/TimeNodeStore.js:566-573 | true exactly when every item loads a truthy value |
| TimeNode.TimeNodeStore.GetClaimedNotExecutedTransactions | app/stores/TimeNodeStore.js:332-338 | posts the request and puts the caller in the single resolver slot |
| TimeNode.TimeNodeStore.AttachDayAccount | app/stores/TimeNodeStore.js:508-545 | the state after and the notice are `AttachDayAccount` of the state before |
| TimeNode.TimeNodeStore.HandleLogMessage | app/stores/TimeNodeStore.js:340-349 | the buffer after is `PushLog` of the buffer before |
| TimeNode.TimeNodeStore.GetValuesIfInMessage | app/stores/TimeNodeStore.js:262-268 | each listed field takes the reply's non-null value |
| TimeNode.TimeNodeStore.Resume | app/stores/TimeNodeStore.js:200-211 | after the worker has started, an unlock starts scanning when the scanning key is stored, and a restart always starts scanning |
| TimeNode.TimeNodeStore.OnMessage | app/stores/TimeNodeStore.js:260-325 | the state after is `OnMessage` of the state before and the reply |
| TimeNode.TimeNodeStore.OnTypedMessage | app/stores/TimeNodeStore.js:270-325 | a reply of a declared type is handled by that type's arm |
| TimeNode.TimeNodeStore.OnDataMessage | app/stores/TimeNodeStore.js:304-324 | the network, claimed, bounties-graph and processed-transactions arms |
| TimeNode.TimeNodeStore.OnClaimedReply | app/stores/TimeNodeStore.js:312-314 | the claimed transactions answer the pending request once; a later reply changes nothing |
| TimeNode.TimeNodeStore.OnBountiesGraphReply | app/stores/TimeNodeStore.js:316-319 | the bounties-graph update is no longer in progress and the graph field takes the reply's value |
| TimeNode.TimeNodeStore.OnProcessedTxsReply | app/stores/TimeNodeStore.js:321-324 | the processed-transactions field takes the reply's value and its update is no longer in progress |
| Transactions.StatusText | app/stores/TransactionStore.js:6-12 | "Not executed" is the text of Missed and of no other status, "Scheduled" that of Scheduled alone |
| Transactions.IsMissed | app/stores/TransactionStore.js:139-143 | a missed transaction was not called, and none is missed before its execution window closes |
| Transactions.IsResolved | app/stores/TransactionStore.js:133-137 | a missed transaction is resolved; a transaction is unresolved exactly when its window is open and it was neither called nor cancelled |
| Transactions.IsTxUnitTimestamp | app/stores/TransactionStore.js:151-153 | a block-unit transaction is not timestamped; for the two declared units, timestamped exactly when the unit is not the block unit |
| Transactions.TxStatusOf | app/stores/TransactionStore.js:115-131 | Missed exactly when missed; otherwise Cancelled over Executed/Failed; Scheduled exactly when unresolved |
| Transactions.SliceBound | app/stores/TransactionStore.js:85 | `slice` bounds: a negative index counts from the end, and both are clamped to the length |
| Transactions.Slice | app/stores/TransactionStore.js:85 | the slice is a contiguous run of the input between the two clamped bounds, and its length is their difference, or 0 when they cross |
| Transactions.Matching | app/stores/TransactionStore.js:71-79 | the kept transactions were fetched and their resolution is `===` to the asked one |
| Transactions.FirstUnfillable | app/stores/TransactionStore.js:59-66 | the index of the first transaction whose `fillData` fails |
| Transactions.StampAll | app/stores/TransactionStore.js:62-65 | every transaction gets its status |
| Transactions.LoadAll | app/stores/TransactionStore.js:59-66 | transactions before the first failed fill carry their status; the rest are unchanged |
| Transactions.Lower | app/stores/TransactionStore.js:28-30 | the lower-case form, character by character |
| Transactions.MatchesFilter | app/stores/TransactionStore.js:30 | an empty filter keeps every address, and so does a filter equal to the address up to letter case |
| Transactions.Query | app/stores/TransactionStore.js:68-91 | fails exactly at a transaction whose fill fails; on success every fill succeeded, the total counts the matches and the page is no longer than the total |
| Transactions.TransactionsFiltered | app/stores/TransactionStore.js:93-113 | offset defaults to 0 and limit to 10 on both branches; with `resolved` it is `Query` with those values and succeeds exactly when every fill succeeds; without it, it succeeds with the fetched count as total and the page is the fetched `slice(offset, offset + limit)` |
| Transactions.FilterByAddress | app/stores/TransactionStore.js:27-32 | kept exactly when the address matches the filter |
| Transactions.TransactionStore.constructor | app/stores/TransactionStore.js:24-25 | nothing loaded and no filter |
| Transactions.TransactionStore.FilteredTransactions | app/stores/TransactionStore.js:27-32 | defined exactly when transactions are loaded, holding the loaded ones that match the filter |
| Transactions.TransactionStore.QueryTransactions | app/stores/TransactionStore.js:68-91 | the loop computes `Query`: the matching page and the count before slicing, or the failed fill |
| Transactions.TransactionStore.GetTransactionsFiltered | app/stores/TransactionStore.js:93-113 | `TransactionsFiltered`: defaults offset 0 and limit 10 |
| Transactions.TransactionStore.GetAllTransactions | app/stores/TransactionStore.js:59-66 | stores `LoadAll` and reports the first failed fill |
| TransactionProperties.StatusOfResolution | app/stores/TransactionStore.js:115-143 | a status other than Scheduled is exactly a resolved transaction; a missed one reads "Not executed" |
| TransactionProperties.MatchingConcat | app/stores/TransactionStore.js:71-79 | the filter keeps the fetched order |
| TransactionProperties.MatchingComplete | app/stores/TransactionStore.js:71-79 | every fetched transaction of the asked resolution is kept |
| TransactionProperties.MatchingNonBoolean | app/stores/TransactionStore.js:76 | a non-boolean `resolved` keeps nothing |
| TransactionProperties.ResolvedPartition | app/stores/TransactionStore.js:133-137 | resolved and unresolved together count every transaction |
| TransactionProperties.UnresolvedAreScheduled | app/stores/TransactionStore.js:115-137 | the unresolved transactions are exactly the Scheduled ones |
| TransactionProperties.QueryPage | app/stores/TransactionStore.js:68-91 | the total counts all matches; the page is exactly the matches from `offset` to `offset + limit`, and for non-negative arguments holds `limit` of them, or what is left after `offset` |
| TransactionProperties.QueryFails | app/stores/TransactionStore.js:71-73 | a query fails exactly when some transaction's fill fails |
| TransactionProperties.FilteredDefaults | app/stores/TransactionStore.js:93-113 | with no arguments: the first ten transactions out of all of them |
| TransactionProperties.LowerIdempotent | app/stores/TransactionStore.js:28-30 | lower-casing twice is lower-casing once |
| TransactionProperties.FilterIgnoresCase | app/stores/TransactionStore.js:28-30 | the address match ignores case on both sides |
| TransactionProperties.EmptyFilterKeepsAll | app/stores/TransactionStore.js:27-32 | an empty filter keeps every transaction in order |
| TransactionProperties.LoadAllFilled | app/stores/TransactionStore.js:59-66 | when every fill succeeds every transaction carries its status |
| TransactionStatistics.Efficiency | app/stores/TransactionStatistics.js:46 | 100 for no transactions, else the least whole percentage not below the executed share |
| TransactionStatistics.CeilingDivision | app/stores/TransactionStatistics.js:46 | the integer form of the ceiling |
| TransactionStatistics.EfficiencyBounds | app/stores/TransactionStatistics.js:46 | with executed at most total, the efficiency is between 0 and 100 |
| TransactionStatistics.CountExecuted | app/stores/TransactionStatistics.js:42-44 | the count is at most the page, and equals it exactly when every transaction on the page was executed |
| TransactionStatistics.CountExecutedAppend | app/stores/TransactionStatistics.js:42-44 | the count of a concatenation is the sum of the counts, and one transaction counts 1 exactly when executed, so the count is the length of the filtered page |
| TransactionStatistics.PastEfficiencyBounds | app/stores/TransactionStatistics.js:33-46 | the efficiency computed from the resolved query is always a percentage |
| TransactionStatistics.UpcomingCountsUnresolved | app/stores/TransactionStatistics.js:24-31 | the upcoming count is all unresolved transactions, not only the first page |
| TransactionStatistics.Statistics.constructor | app/stores/TransactionStatistics.js:4-11 | efficiency 100, ten upcoming, 24 hours both ways |
| TransactionStatistics.Statistics.Initialize | app/stores/TransactionStatistics.js:19-47 | upcoming count from the unresolved total, efficiency from the resolved page; a failed query stops it |
| ScheduleSettings.IntegerCode | app/components/ScheduleWizard/AbstractSetting.js:17-30 | the code is 0, 1 or 2, and 0 exactly when the value's text is all digits and its number is truthy |
| ScheduleSettings.DecimalCode | app/components/ScheduleWizard/AbstractSetting.js:32-45 | the code is 0, 1 or 2, and 0 exactly when the value's text matches the decimal pattern and its number is truthy |
| ScheduleSettings.ErrorState | app/components/ScheduleWizard/AbstractSetting.js:17-57 | each validator returns 0, 1 or 2, and the boolean validator never 2 |
| ScheduleSettings.BooleanCode | app/components/ScheduleWizard/AbstractSetting.js:47-57 | error 1 exactly when the value is falsy |
| ScheduleSettings.Errors | app/components/ScheduleWizard/AbstractSetting.js:17-57 | each validator has one or two messages |
| ScheduleSettings.ErrorStateInRange | app/components/ScheduleWizard/AbstractSetting.js:63-79 | every error state names one of the validator's messages |
| ScheduleSettings.IntegerCodeOfText | app/components/ScheduleWizard/AbstractSetting.js:17-30 | non-digits give 1, all zeros give 2, any other digits 0 |
| ScheduleSettings.IntegerCodeOfNumber | app/components/ScheduleWizard/AbstractSetting.js:17-30 | a number below 10^21 is accepted exactly when positive, 0 gives 2; a negative number, or one of 10^21 or more (written in exponent form), gives 1 |
| ScheduleSettings.DecimalValueZero | app/components/ScheduleWizard/AbstractSetting.js:32-45 | a decimal text is zero exactly when all its digits are '0' |
| ScheduleSettings.DecimalCodeOfText | app/components/ScheduleWizard/AbstractSetting.js:32-45 | text not matching the decimal pattern gives 1, all-zero digits give 2, anything else 0 |
| ScheduleSettings.DecimalTrailingDot | app/components/ScheduleWizard/AbstractSetting.js:35 | "12." is accepted |
| ScheduleSettings.DecimalLeadingDot | app/components/ScheduleWizard/AbstractSetting.js:35 | ".5" is rejected with 1 |
| ScheduleSettings.DecimalZeros | app/components/ScheduleWizard/AbstractSetting.js:35-39 | "0.00" is rejected with 2 |
| ScheduleSettings.IntegerZeros | app/components/ScheduleWizard/AbstractSetting.js:20-24 | "000" is rejected with 2 |
| ScheduleSettings.IntegerRejectsDot | app/components/ScheduleWizard/AbstractSetting.js:20 | "1.5" is rejected with 1 |
| ScheduleSettings.AbstractSetting.constructor | app/components/ScheduleWizard/AbstractSetting.js:10-15 | validators, messages and store as given, no validations yet |
| ScheduleSettings.AbstractSetting.Validate | app/components/ScheduleWizard/AbstractSetting.js:63-79 | the property is marked valid with no message exactly when its error state is 0, else invalid with that message |
| ScheduleSettings.AbstractSetting.OnChange | app/components/ScheduleWizard/AbstractSetting.js:81-86 | the value is stored, then validated |

## Left out

- Encryption, decryption, signature checks, the DAY balance fetch and `toWei` are foreign calls. They are parameters: `decrypt`, `validSig`, `fetched`, `encrypted` and `toWei`.
- Config's default economic strategy is a parameter too (`defaults`).
- The keystore's address is a parameter of `MyAddress`. `JSON.parse` of the decrypted keystore is not modelled.
- The worker is a flag plus an outbox of posted messages. The worker's own behaviour, the Electron IPC log copy and notifications are not modelled.
- The analytics (keen) calls are not modelled: the active-node event, the status-check callback and the keen refresh in the network-info reply.
- Awaiting is modelled as a pending mark: `startWorker` is completed by the STARTED reply. Interleavings of async calls are not modelled.
- The START options leave out `network` and `customProviderUrl`, the network configuration; the other `getWorkerOptions` fields are modelled.
- The `network` getter, `getCustomProvider`, `setCustomProvider` (which reloads the page) and the provider storage keys are not modelled, since they only read configuration.
- `passwordMatchesKeystore` and `fromV3` are not modelled: they are a foreign wallet call.
- Interval lengths are not modelled. A timer is a live handle that can fire.
- The five interval fields and the status-check handle are grouped into one timer record.
- The store's observable statistics fields are one map, `mirror`, keyed by property name.
- The status-check timer's callback only reports to analytics, so firing it leaves the state unchanged.
- The well-formedness invariant is proved over the `Session` value, not as a predicate on the class.
- JavaScript numbers are unbounded integers for offsets, limits and balances. Non-integer offsets and limits are not modelled.
- JsValues.ToNumber: only the empty text and plain `digits[.digits]` texts convert; leading or trailing white space, a sign, a leading '.', an exponent, hexadecimal and "Infinity" give NaN here, although `Number` accepts them. The validators' patterns reject all of these forms before `Number` is applied. A decimal text converts to its exact value, not to the nearest double, so a validator or a string balance can differ from the code: "0." with 330 zeros and then "1" is 0 as a double (the decimal validator gives 2, the model 0), and the balance "332.99999999999999999" rounds to 333 (the code's tier is TimeNode, the model's Disabled).
- JsValues.ToString: numbers are integers; from 10^21 on, the exponent form uses the integer's exact digits, not the shortest digits of the nearest double.
- TransactionStatistics.Efficiency: computes the exact ceiling, not the floating-point `Math.ceil((executed / total) * 100)`, whose rounding can differ.
- Transactions.MatchesFilter: a case-insensitive substring match on ASCII letters stands in for `new RegExp(filter, 'i')`. Regular-expression metacharacters in the filter are not modelled.
- An undefined filter is modelled as the empty filter.
- The transaction library calls are not modelled: `getTransactions`, `fillData`, `afterExecutionWindow` and the executed check. Their results are fields of `Transaction` or parameters.
- `_transactionStore.init` and `updateLastBlock` are not part of this model.
- `schedule` and `getTransactionByAddress` only forward to the library, so they are not modelled.
- The `pastHours` argument and the `unresolved` flag are left out of `getTransactionsFiltered`'s inputs, because the code ignores them.
- ScheduleSettings.AbstractSetting.Validate: requires the property to have a validator; the code would throw on a missing one.
- The rendering of the setting components is not modelled.
- The wizard's `getValidations` store is modelled as the `validations` map.
