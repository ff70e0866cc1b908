# Gateway models

Models of the crash-safe installer, the serial port runtime and its controller,
the Modbus/TCP path, the network protocols and the configuration transaction of
the gateway, with proofs of what they promise. `dafny verify dfyconfig.toml`
checks everything.

Each component comes in two forms. A class or method works as the program does,
on records, rings and arrays updated in place; its contract ties it to a
specification over values. The promises are lemmas over every history of that
specification. The records are put together as in the program: the application
holds the files and the controller, the controller its eight ports, a port its
runtime, the runtime its queue; the network owner holds its LANs, a LAN its DHCP
client. `WholeRuns` carries the promises over to those objects.

Callbacks, the file system, the serial backend, the network provider and the
clock may answer anything; where the program compares 32-bit ticks, the lemmas
speak of time that does not wrap.

| file | what it models |
|---|---|
| `Base`, `Rings`, `Deadline` | machine words, ring buffers, modular deadlines |
| `InstallJournal` | the binary journal: encoder, decoder, and that they are inverse |
| `InstallDisk`, `InstallTransaction`, `InstallLifetime` | the write-ahead protocol and its recovery under power loss |
| `InstallRotation` | two slots, `active`, retirement of the other slot, and whole histories of a device |
| `PortModel`, `PortProperties`, `PortTimes`, `PortRuntime` | the ten-state serial port, its ledger and its deadlines |
| `GatewayController`, `ControllerProperties`, `ControllerConfigs`, `ControllerSlips`, `ControllerProgress`, `ControllerRuntime` | port lifecycles, listener ownership, carried configurations, and how a change takes effect |
| `MbapStream`, `ModbusCrc`, `ModbusAdapter` | stream parser (section 3.1.3 of the MODBUS Messaging on TCP/IP Implementation Guide V1.0b), CRC-16, translation |
| `ModbusDispatcher`, `DispatcherRuntime` | the fair dispatcher of eight clients |
| `NetworkManager`, `ManagerProgress`, `ManagerRuntime` | apply, keep or revert |
| `DhcpOptions`, `DhcpReplies`, `DhcpMessage`, `DhcpClient`, `DhcpLease`, `DhcpTimes`, `DhcpRuntime` | the DHCP client: what it sends and reads, its lease bound, and what it does when |
| `NetworkOwner`, `LanProperties`, `OwnerProperties`, `OwnerTargets`, `OwnerProgress`, `OwnerConduct`, `LanRuntime`, `OwnerRuntime` | the network policy owner: what it wants, writes and vouches for |
| `ConfigStore`, `ConfigTransaction`, `TransactionProperties`, `TransactionProgress`, `TransactionSlips`, `TransactionRuntime` | configuration files and their transaction |
| `WholeRuns` | controller, application, owner and manager driven through whole histories |

Where a promise is false as it might be put, the code is modelled as it is and
the exact condition is proved:

- A plan decodes to itself exactly when its members are admissible (`DecodeEncode`).
- `active` may come to name an empty slot if its publication fails, is visible,
  and an installation follows before the next power loss (`UndecidedActive` is
  such a run); with `active` decided it never does (`Installations`).
- A deadline reads as pending again 2^31 ms after it passed (`ExpiryIsForgotten`).
- A reply turned away for its header or the client's state leaves an expired
  lease marked valid until the next step (`ExpiredAfterReply`).
- Settled does not mean the last write succeeded: after a failed write that was
  current, the next step settles exactly if it sees the wanted network
  (`FailedWriteMaySettle`; `FailedWriteSettles` is such a run).
- A serial side that refuses a configuration goes unnoticed under an unchanged
  revision, and one that refuses the old configuration while rolling back always
  does (`StepStaysInStep`; `RefusedUnnoticed` and `StuckUnnoticed` are such runs).
  It does not happen to a caller who gives every configuration a new revision
  with a serial side that takes the old configuration back (`CarefulRunsItsConfig`).
- The owner asks for a write that is needed only in the first 2^31 ms after its
  last pause or policy, then not for 2^31 ms (`PauseReturns`; `OwnerStalls` is such a
  run); while the pause is over it settles in four steps (`OwnerSettles`).
- A rollback leaves the candidate on disk exactly when promotion made its
  renames, could not synchronise the directory and could not read the candidate
  back (`RollbackMayLoadCandidate`; `RolledBackLoadsCandidate` is such a run).
- A clean rollback of a candidate that moved no port leaves the ports where they
  were, so with all at rest they are on the previous configuration exactly if they
  were on it when the candidate was taken up (`CleanRollbackRestores`;
  `CleanRollbackLeavesPort` is a run in which they were not).
- A configuration that was a success may be undone by a power loss. A success is
  for good exactly when what was last synchronised loads the candidate and so does
  every text moved since (`SuccessForGood`; before the promotion, `PromotionForGood`;
  `SuccessMayBeUndone` is a run in which it is not). It always is if every
  directory can be synchronised (`SuccessIsDurable`).
- A stream in well-formed feeds may overflow, exactly from feeds of 782 bytes on
  (`FeedFragments`, `FeedBoundIsTight`).

## Model

| member | source | states |
|---|---|---|
| `InstallJournal.PlanAdd` | src/installer/install_transaction.c:11-18 | a plan grows by one member exactly when file, path, count and flags are acceptable, the path is new and the before-image could be read; plans it builds stay well-formed |
| `InstallJournal.Measure` | src/installer/install_transaction.c:24-29 | the size a journal needs, or nothing exactly when some member cannot be stored or the limit is passed |
| `InstallJournal.Encode` | src/installer/install_transaction.c:23-37 | the array-filling encoder produces the journal of the plan exactly when the plan can be stored |
| `InstallJournal.DecodeJournal` | src/installer/install_transaction.c:38-61 | the cursor-based decoder agrees with the recursive reading of the bytes and never reads past their end, on any input |
| `InstallJournal.DecodeEncode` | src/installer/install_transaction.c:23-61 | decode(encode(p)) is p exactly when every member has an allowed path, its flags and a path of its own; otherwise decoding refuses |
| `InstallJournal.EncodeDecode` | src/installer/install_transaction.c:38-61 | whatever bytes decode accepts are the encoding of the plan it yields |
| `InstallDisk.LosePower` | src/installer/install_transaction.c:62-64 | a power loss leaves at every location one of the images its publications made possible |
| `InstallTransaction.Installer.Publish` | src/installer/install_transaction.c:148-150 | a publication that reports success is durable; one that reports failure has done nothing, or is visible and undecided |
| `InstallTransaction.Installer.ReadMark` | src/installer/install_transaction.c:65-70 | a marker counts only if it carries the digest of the journal it is read against |
| `InstallTransaction.Installer.Matches` | src/installer/install_transaction.c:71-84 | success means every member reads as the wanted image, with gates and payload told apart |
| `InstallTransaction.Installer.RestorePass` | src/installer/install_transaction.c:88-101 | one pass of restoring, of payload or of gates, puts back exactly what is due in it and leaves every other member alone, safely at every publication; it waits exactly if CompactFlash is absent after a cutover and a member of the pass needs it |
| `InstallTransaction.Installer.Restore` | src/installer/install_transaction.c:85-107 | rolled back means every gate and, after a cutover, every member durably has its before-image and the marker is durable; waiting means CompactFlash is absent after a cutover, some member needs it, those are untouched and all others put back; if nothing goes wrong, or only the new installation is unhealthy, it ends rolled back |
| `InstallTransaction.Installer.Recover` | src/installer/install_transaction.c:123-137 | recovery of any safe or ended disk keeps it so at every publication; completed means all after-images, rolled back all gates (and, after a cutover, all members) before-images; a decided transaction is never decided the other way; and if nothing goes wrong it ends: completed if that marker is there, unchanged without a journal, rolled back else |
| `InstallTransaction.Installer.SyncJournal` | src/installer/install_transaction.c:133-134 | a terminal marker that was only visible is made durable before the result is given |
| `InstallTransaction.Installer.Gate` | src/installer/install_orchestrator.c:83-95 | `active` is durable before any gate is installed, and success means every gate has its after-image |
| `InstallTransaction.Installer.Payload` | src/installer/install_transaction.c:154-157 | the payload loop leaves every member with its after-image, or reports where it stopped, with every state on the way safe |
| `InstallTransaction.Installer.Forward` | src/installer/install_transaction.c:151-163 | from gates to terminal marker: the cutover marker is durable before any payload changes, the terminal one only over all after-images |
| `InstallTransaction.Installer.Run` | src/installer/install_transaction.c:138-165 | completed means all after-images and a durable marker, rolled back all before-images and a durable marker, unchanged that the plan changes nothing, waiting that CompactFlash went away after the cutover; refused and unchanged touch nothing; journal before `active` before gates before cutover before payload at every publication; the cutover marker is published only over files compared after the services were stopped, and payload changes only while they are; completed means they are started again and the new installation was found healthy, rolled back that the old one was; a run that can start completes if nothing goes wrong, and is rolled back if only the new installation is found unhealthy |
| `InstallTransaction.SafeSurvivesPowerLoss` | src/installer/install_transaction.c:85-165 | the invariant of the transaction survives a power loss at any moment |
| `InstallTransaction.RestoreKeeps` | src/installer/install_transaction.c:88-101 | restoring a member keeps the invariant if gates are restored only when no payload is half done |
| `InstallTransaction.InstallKeeps` | src/installer/install_transaction.c:154-157 | installing an after-image keeps the invariant for gates before the cutover, for any member after it |
| `InstallTransaction.CutoverKeeps` | src/installer/install_transaction.c:153 | the cutover marker may appear only over installed gates and an untouched payload |
| `InstallTransaction.CompletedKeeps` | src/installer/install_transaction.c:159-161 | the completed marker may appear only over all after-images and a durable cutover marker |
| `InstallTransaction.RolledBackKeeps` | src/installer/install_transaction.c:105 | the rolled-back marker may appear only over restored gates and, after a cutover, a restored payload |
| `InstallTransaction.TerminalOnce` | src/installer/install_transaction.c:119-121 | the two terminal markers never coexist in a safe disk |
| `InstallTransaction.MarkRead` | src/installer/install_transaction.c:65-70 | in a safe disk a marker that reads as present is this journal's, and one that reads as absent cannot come back |
| `InstallTransaction.MarkerCloses` | src/installer/install_transaction.c:130-135 | once a terminal marker is durable the transaction has ended for good, in the sense every later recovery keeps |
| `InstallLifetime.RecoverOnce` | src/installer/install_transaction.c:123-137 | a recovery killed or cut by a power loss anywhere leaves a disk that is as safe, or as ended, as before and never contradicts a result already given |
| `InstallLifetime.RunOnce` | src/installer/install_transaction.c:138-165 | a run killed or cut by a power loss after any publication leaves a safe disk that recovery can take over |
| `InstallLifetime.EditOnce` | src/installer/install_transaction.c:92-95 | an operator edit of payload before the cutover keeps the transaction safe |
| `InstallLifetime.LateEditKeeps` | src/installer/install_transaction.c:130-135 | once the transaction has ended any file may be changed and it stays ended, with the results given so far standing |
| `InstallLifetime.Lifetime` | src/installer/install_transaction.c:85-165 | over every run, kill, power loss, sequence of recoveries and edits before the cutover and after the end: completed means all after-images, rolled back all before-images, until somebody edits after the end; the markers never coexist, completed stays completed, rolled back rolled back; and while any payload differs from before every gate is installed |
| `InstallRotation.Status` | src/installer/install_orchestrator.c:242-246 | no journal; completed or rolled back with a marker of this very journal; waiting, with a decodable journal and no marker; and recovery required only for a slot that is muddled or cannot be read |
| `InstallRotation.ReadActive` | src/installer/install_orchestrator.c:110-116 | `active` is absent, names slot0 or slot1, or is refused |
| `InstallRotation.Unstarted` | src/installer/install_orchestrator.c:248-258 | an unfinished slot is given up only if every member reads as its before-image |
| `InstallRotation.RetireSlot` | src/installer/install_orchestrator.c:242-263 | nothing is removed unless the slot is disposable; only its entries change, the journal durably before any marker; success leaves it durably empty, and a disposable slot that is not muddled is emptied if nothing goes wrong |
| `InstallRotation.WholeOrNone` | src/installer/install_orchestrator.c:259-261 | after a power loss during retirement the slot has no journal, or its entries are images it had before |
| `InstallRotation.RetiredIsFresh` | src/installer/install_orchestrator.c:259-262 | a retired slot has no marker of an earlier journal for a new one to accept |
| `InstallRotation.EmptiedNames` | src/installer/install_orchestrator.c:242-263 | emptying a slot keeps `active` naming a decodable journal after every power loss exactly when `active` could not name that slot |
| `InstallRotation.RunNames` | src/installer/install_orchestrator.c:83-88 | a run makes `active` name its slot only once the journal there is durable and decodable |
| `InstallRotation.RecoverNamed` | src/installer/install_orchestrator.c:278-279 | recovering the named transaction keeps its journal and `active`; completed means its marker is durable and all after-images, rolled back likewise with before-images; either leaves no file of the installed set undecided; it never finds nothing, and if nothing goes wrong its result is what the markers say |
| `InstallRotation.ClosedIsSteady` | src/installer/install_transaction.c:105 | with `active` decided, an ended transaction has left no file of the installed set undecided |
| `InstallRotation.RecoveryIsTraced` | src/installer/install_transaction.c:85-107 | during a recovery only gates of the named plan, and its members once it may have cut over, are undecided |
| `InstallRotation.RunIsTraced` | src/installer/install_orchestrator.c:83-95 | the same during a run, from a disk with nothing undecided |
| `InstallRotation.ChangeIsSound` | src/installer/install_transaction.c:92-94 | others may change any file when nothing is named or the named transaction has ended, and what is no gate before it cuts over |
| `InstallRotation.BootRecovery` | src/installer/install_orchestrator.c:196-215 | the recovery at boot: sound at every state, unchanged exactly where `active` names nothing, and its result says of files and markers what that of the named recovery does |
| `InstallRotation.RunIsSound` | src/installer/install_orchestrator.c:83-95 | until `active` durably names the new slot, nothing of the transaction in the old one has changed |
| `InstallRotation.Prepare` | src/installer/install_orchestrator.c:278-280 | with nothing named slot 0 is used and nothing touched; otherwise the named transaction is completed or rolled back and the other slot is used, or the result is final: waiting for CompactFlash, or recovery required, never if nothing goes wrong |
| `InstallRotation.UseSlot` | src/installer/install_orchestrator.c:281-328 | a slot that is not disposable is left alone and the run refused; completed means every member has its after-image, its marker is durable and `active` names the slot; rolled back every before-image; refused and unchanged that no file of the installed set changed; a plan that fits completes if nothing goes wrong |
| `InstallRotation.RunPlan` | src/installer/install_orchestrator.c:328 | the run in the emptied slot says the same of its result |
| `InstallRotation.Orchestrate` | src/installer/install_orchestrator.c:274-328 | one installation, from any disk with `active` decided, a retry over a failed one included: every state it goes through has `active` naming, after any power loss, a decodable journal with a transaction that can be recovered or has ended, and the named slot keeps its journal. Completed and rolled back mean what they mean of a run of this plan in the other slot, with `active` durably naming it; refused and unchanged that no file changed after the recovery; nothing is emptied unless disposable. A plan that fits the files recovery left completes if nothing goes wrong, and is rolled back if only the new installation is unhealthy |
| `InstallRotation.Installations` | src/installer/install_orchestrator.c:274-328 | the same over every sequence of installations, boot recoveries and changes by others, each call killed or cut by a power loss anywhere or not at all; every call that returned means by its result what a single one does |
| `InstallRotation.UndecidedActive` | src/installer/install_orchestrator.c:83-88 | why `active` must be decided: a run whose publication of `active` is visible but not synchronised, the recovery that rolls it back and the retirement of the other slot, all without a fault, leave an `active` that may name the emptied slot |
| `Deadline.DueIsLater` | src/network/gateway_dhcp_client.c:7 | a wrapped comparison tells the order of two moments less than 2^31 ms apart |
| `Deadline.ExpiredIsPassed` | src/core/deadline.c:10-23 | a deadline reads as expired exactly when its moment has passed, for 2^31 ms |
| `Deadline.ExpiryIsForgotten` | src/core/deadline.c:18-23 | after 2^31 ms an expired deadline reads as pending again |
| `PortRuntime.TransactionQueue.Push` | src/core/port_runtime.c:131-143 | the ring takes an entry exactly when eight entries and 1024 payload bytes allow it, at its end |
| `PortRuntime.TransactionQueue.Pop` | src/core/port_runtime.c:145-154 | the ring gives its first entry |
| `PortRuntime.PortRuntime.StartPort` | src/core/port_runtime.c:119-129 | starting works exactly from disabled or error, with a valid interval |
| `PortRuntime.PortRuntime.SubmitOperation` | src/core/port_runtime.c:209-262 | result, queue and counters of a submission are those of the sequence model, for every state and request |
| `PortRuntime.PortRuntime.StepPort` | src/core/port_runtime.c:354-467 | one step of the ring implementation is the step of the sequence model, for every state and backend answer |
| `PortRuntime.PortRuntime.StepWait` | src/core/port_runtime.c:304-352 | waiting: stale events are counted only, a matching event or the deadline ends the transaction |
| `PortRuntime.PortRuntime.FlushQueue` | src/core/port_runtime.c:292-302 | every queued transaction is notified as cancelled, in order |
| `PortRuntime.PortRuntime.CancelActivePort` | src/core/port_runtime.c:469-483 | cancelling notifies the active transaction and starts recovery |
| `PortRuntime.PortRuntime.DetachListener` | src/core/port_runtime.c:485-490 | detaching flushes the queue and cancels the active transaction; it fails only where recovery is not allowed |
| `PortRuntime.PortRuntime.ReportIoFailure` | src/core/port_runtime.c:284-290 | a reported failure is accepted exactly by an idle ready port, and starts its recovery |
| `PortRuntime.PortRuntime.RequestReconfigure` | src/core/port_runtime.c:492-516 | reconfiguration drops everything and stages the configuration, from the states that allow it |
| `PortRuntime.PortRuntime.RequestStop` | src/core/port_runtime.c:518-534 | stopping drops everything, from every state but disabled and stopping |
| `PortProperties.ApplyKeeps` | src/core/port_runtime.c:119-534 | every call, with any backend, keeps the ledger, the order, the generations and the queue-empty states, and makes an illegal transition only by a start in a wrong state |
| `PortProperties.StepKeeps` | src/core/port_runtime.c:354-467 | the same for a step in each of the ten states |
| `PortProperties.HistoryKeeps` | src/core/port_runtime.c:34-534 | over every call sequence from initialisation: the invariant holds and illegal transitions counted are exactly the bad starts |
| `PortProperties.ExactlyOnce` | src/core/port_runtime.c:108-117 | accepted = notified + queued + active; every accepted transaction is notified exactly once unless queued or active, no other ever; the counters agree, saturated |
| `PortProperties.IdleIsEmpty` | src/core/port_runtime.c:70-98 | in disabled, starting, reconfiguring, stopping and error states nothing is queued or active, so initialising anew loses nothing |
| `PortProperties.ActivationsInOrder` | src/core/port_runtime.c:371-390 | activations are in acceptance order, with generations never zero that differ within 2^32-2 activations |
| `PortProperties.GenerationsDiffer` | src/core/port_runtime.c:380-384 | generations less than 2^32-1 activations apart differ and are not zero |
| `PortProperties.StaleEventIgnored` | src/core/port_runtime.c:304-320 | an event of an earlier activation changes no notice, no queue and no active transaction |
| `PortProperties.CompletionIsCurrent` | src/core/port_runtime.c:304-339 | a completion is of the active transaction, for a response of its own generation |
| `PortProperties.EventMeans` | src/core/port_runtime.c:315-343 | what each event of the active transaction comes to: completed, malformed or failed, with its data, ready or recovering after it; transmitted ends nothing |
| `PortProperties.StartMeans` | src/core/port_runtime.c:393-403 | a transaction the backend does not start has failed, one it starts is waited for |
| `PortProperties.ReportMeans` | src/core/port_runtime.c:284-290 | a failure of the line is taken up exactly by a ready port with nothing to do |
| `PortProperties.BarrierMeans` | src/core/port_runtime.c:270-279 | the response barrier is the generation of the transaction last cut off by a recovery, after every call |
| `PortTimes.LifeIsTimed` | src/core/port_runtime.c:237-262 | over every history, in time that does not wrap: what is queued, active or notified is one of the requests accepted, with its own payload, owner, metadata and id, its queue deadline counted from its acceptance, its response deadline from its activation, and the deadline of a state from its entry |
| `PortTimes.QuietCall` | src/core/port_runtime.c:304-352 | a call that drops nothing and reports nothing of the active transaction ends it exactly if it is a silent step of a waiting port at or after activation plus response timeout |
| `PortTimes.TimesOutOnce` | src/core/port_runtime.c:345-351 | over histories: such a transaction is told exactly once that its time is over, in the first silent step of the waiting port at or after activation plus response timeout, with its own request; until then it is active and nobody is notified |
| `PortTimes.ReadyStepIsTimed` | src/core/port_runtime.c:370-392 | a step of a ready port: what heads the queue and is overdue is told so, in order, and the first that is not becomes active |
| `PortTimes.TimeoutsAreDue` | src/core/port_runtime.c:345-377 | in no history is a transaction told that its time is over before its answer was due, or its time in the queue over |
| `PortTimes.StateIsTimed` | src/core/port_runtime.c:361-462 | starting, recovering, reconfiguring and stopping, before their deadline and from it on, whatever the backend answers |
| `PortTimes.RecoveryIsPaced` | src/core/port_runtime.c:270-282 | whatever begins recovery, it has at most three tries, the first 5 ms later and each 5 ms after the last |
| `ControllerRuntime.ValidateAll` | src/gateway/gateway_controller.c:67-92 | every port ends with the error of its last clash, else with its own; it is left without one exactly when its own configuration is valid and it clashes with no other enabled port; the failures are counted |
| `ControllerRuntime.PortController.StartListenerOrFail` | src/gateway/gateway_controller.c:147-154 | a listener start leads to ready, to waiting for the network, or to stopping |
| `ControllerRuntime.PortController.StepRecord` | src/gateway/gateway_controller.c:156-205 | one step of a port and of the runtime embedded in it is the step of the lifecycle model, listener's turn, runtime and lifecycle in that order |
| `ControllerRuntime.PortController.ReconfigureRecord` | src/gateway/gateway_controller.c:223-247 | the five ways a configuration is taken or refused |
| `ControllerRuntime.PortController.AwaitRecord` | src/gateway/gateway_controller.c:249-258 | waiting for the network stops the listener of a ready port |
| `ControllerRuntime.PortController.ShutRecord` | src/gateway/gateway_controller.c:259-263 | shutting down stops listener and runtime |
| `ControllerRuntime.Controller.StepPorts` | src/gateway/gateway_controller.c:207-212 | a step of the controller steps each of its eight ports over its own runtime and disturbs no other |
| `ControllerRuntime.Controller.ReconfigureAt` | src/gateway/gateway_controller.c:214-247 | a configuration is validated against what the other seven carry before the port is touched |
| `WholeRuns.RunController` | src/gateway/gateway_controller.c:105-263 | any calls of a controller over its eight port runtimes and their queues: a ready port owns its listener and its runtime works, no listener was started over another, every accepted transaction was notified once or is still held |
| `ControllerProperties.StepPortKeeps` | src/gateway/gateway_controller.c:156-205 | a step keeps: an owned listener only in ready, degraded, error or a stop that failed, none started over another, and each lifecycle goes with its runtime states |
| `ControllerProperties.ReconfigureKeeps` | src/gateway/gateway_controller.c:223-247 | taking or refusing a validated configuration keeps that; refusal is exactly for the lifecycle or a listener that would not stop |
| `ControllerProperties.CoreIsValid` | src/gateway/gateway_controller.c:27-51 | what validation passes for an enabled port is a configuration its runtime accepts |
| `ControllerProperties.CoreMeans` | src/gateway/gateway_controller.c:94-103 | the serial side gets what a valid configuration says, field by field: framing, transport and endpoint, and as its speed the special one exactly if that is enabled, whole |
| `ControllerProperties.ReadyToChange` | src/gateway/gateway_controller.c:229-246 | where a reconfiguration is allowed, stopping, detaching and reconfiguring the runtime cannot fail |
| `ControllerProperties.ListenersAreOwned` | src/gateway/gateway_controller.c:120-135 | over every run, reuse after shutdown included: no listener is started on a port that has one, ownership is known, and ready means an owned listener and a working runtime |
| `ControllerProperties.RefusalChangesNothing` | src/gateway/gateway_controller.c:223-247 | a reconfiguration refused in any run leaves lifecycle, ownership, configuration and runtime of all ports alone; it is refused exactly for an unacceptable configuration, the lifecycle, or a listener that would not stop |
| `ControllerConfigs.StepStaysInStep` | src/gateway/gateway_controller.c:167-200 | the serial side stays on the reported configuration exactly when no refusal of it slips by: one under an unchanged revision, or one of the old configuration while rolling back |
| `ControllerConfigs.ReconfigureStays` | src/gateway/gateway_controller.c:223-247 | taking a configuration never lets reported and running configuration drift apart |
| `ControllerConfigs.ReadyRunsItsConfig` | src/gateway/gateway_controller.c:167-200 | over every run before shutdown in which no such refusal slips by, a ready port's serial side runs the configuration the controller reports |
| `ControllerConfigs.CarefulRunsItsConfig` | src/gateway/gateway_controller.c:167-200 | so it is for a caller who gives every new configuration a new revision, with a serial side that never refuses the old configuration while rolling back |
| `ControllerSlips.RefusedUnnoticed` | src/gateway/gateway_controller.c:191 | a run from the default configuration to a ready port whose serial side does not run what is reported, after a refusal under an unchanged revision |
| `ControllerSlips.StuckUnnoticed` | src/gateway/gateway_controller.c:197-200 | the same after a refusal of the old configuration while rolling back |
| `ControllerProgress.ChangeBegins` | src/gateway/gateway_controller.c:244-246 | a ready port asked to change its serial side stops its listener, drops everything and tells the serial side, which has 1000 ms |
| `ControllerProgress.ChangeTakesEffect` | src/gateway/gateway_controller.c:190-192 | a serial side that takes it in time and a listener that starts: the port serves with the new configuration, known good |
| `ControllerProgress.ChangeIsRefused` | src/gateway/gateway_controller.c:191 | a serial side that refuses and goes back: the port serves as before, if the revisions differ |
| `ControllerProgress.ListenerRefuses` | src/gateway/gateway_controller.c:193-195 | a listener that does not start: the serial side is told to go back |
| `ControllerProgress.GoesBack` | src/gateway/gateway_controller.c:197-199 | it goes back in time and the listener starts: the port serves as before |
| `ControllerProgress.RebindBegins` | src/gateway/gateway_controller.c:231-242 | if only the address changes the listener is stopped and the serial side keeps its configuration |
| `ControllerProgress.RebindTakesEffect` | src/gateway/gateway_controller.c:168-188 | the listener starts at the new address, or again at the old one, or the port has failed |
| `ControllerProgress.EnableBegins` | src/gateway/gateway_controller.c:230 | a port that is off starts afresh with the configuration that enables it |
| `ControllerProgress.ComesUp` | src/gateway/gateway_controller.c:162-164 | it serves once its serial side opens and its listener starts; a serial side that does not open in 1000 ms recovers |
| `ControllerProgress.GivenUp` | src/gateway/gateway_controller.c:164-187 | a serial side given up on fails a port that is coming up or moving its listener, and degrades one in service |
| `ControllerProgress.StartBegins` | src/gateway/gateway_controller.c:137-146 | starting the controller brings up the ports that are enabled and off, and no others |
| `ControllerProgress.WaitBegins` | src/gateway/gateway_controller.c:249-258 | a ready port that is to wait for the network stops its listener and drops what its runtime holds, or stays as it was if the listener would not stop |
| `ControllerProgress.ShutBegins` | src/gateway/gateway_controller.c:259-263 | shutting down stops the listener and tells the serial side to stop, with 1000 ms for it |
| `ControllerProgress.DisableBegins` | src/gateway/gateway_controller.c:229 | a ready port that is disabled stops its listener, drops everything and tells its serial side to stop |
| `ControllerProgress.GoesOff` | src/gateway/gateway_controller.c:200-203 | once that has stopped the port is off with that configuration; after 1000 ms it has failed |
| `MbapStream.Stream.ParseAvailable` | src/modbus/mbap_stream.c:10-48 | the ring parser takes ADUs until the bytes end, a header is bad or the callback refuses, as the sequence model says |
| `MbapStream.Stream.Feed` | src/modbus/mbap_stream.c:55-95 | a feed copies across the ring's end and parses; it overflows exactly when the bytes do not fit |
| `MbapStream.FeedFragments` | src/modbus/mbap_stream.c:55-95 | fragmentation independence: however a stream is cut into feeds of at most 781 bytes, an accepting callback gets the ADUs of the whole stream, nothing overflows, and only a bad header poisons |
| `MbapStream.FeedRefusing` | src/modbus/mbap_stream.c:41-46 | with a refusing callback the ADUs taken are a prefix and the ring holds exactly the bytes behind them |
| `MbapStream.FramesRoundTrip` | src/modbus/mbap_stream.c:18-46 | ADUs framed one after another are read back as they were |
| `MbapStream.ParseAppend` | src/modbus/mbap_stream.c:10-48 | reading a stream in two parts gives what reading it whole gives |
| `MbapStream.FeedBoundIsTight` | src/modbus/mbap_stream.c:67-71 | for every feed length above 781 there is a well-formed stream whose first feed is taken and whose second, of that length, overflows |
| `ModbusCrc.Crc16` | src/modbus/modbus_crc.c:3-15 | the two nested loops compute the byte-wise register function |
| `ModbusCrc.CrcIsSerial` | src/modbus/modbus_crc.c:8-13 | it is the bit-serial register of section 2.5.1.2 of MODBUS over Serial Line V1.02 |
| `ModbusCrc.Residue` | src/modbus/modbus_crc.c:3-15 | appending the low then the high byte leaves zero, and only those two bytes do |
| `ModbusCrc.BurstFailsCheck` | src/modbus/modbus_tcp_adapter.c:83-88 | any error burst of at most 16 bits, at any position and length, fails the frame check |
| `ModbusCrc.AdjacentBytesFailCheck` | src/modbus/modbus_tcp_adapter.c:106-110 | any damage within two adjacent bytes fails the frame check |
| `ModbusAdapter.EncodeRtu` | src/modbus/modbus_tcp_adapter.c:22-30 | the frame of a request: unit, PDU, CRC low, CRC high |
| `ModbusAdapter.TcpSubmit` | src/modbus/modbus_tcp_adapter.c:4-43 | a submission enters the queue as that frame with its transaction id, unit, function and epoch, or changes nothing |
| `ModbusAdapter.Screen` | src/modbus/modbus_tcp_adapter.c:103-120 | which of the five refusals a reply meets, in order |
| `ModbusAdapter.Build` | src/modbus/modbus_tcp_adapter.c:92-132 | the response array built for a reply |
| `ModbusAdapter.RequestRoundTrip` | src/modbus/modbus_tcp_adapter.c:4-132 | the response built from the bytes a request queued reads back with its transaction id, unit and PDU |
| `ModbusAdapter.CompleteReplyIsDelivered` | src/modbus/modbus_tcp_adapter.c:45-132 | every reply the probe calls complete is built, given capacity, and reads back as one ADU of the request's transaction |
| `ModbusAdapter.DamagedReplyIsRejected` | src/modbus/modbus_tcp_adapter.c:83-110 | a reply damaged within two adjacent bytes is neither complete nor built |
| `ModbusAdapter.ProbeMeaning` | src/modbus/modbus_tcp_adapter.c:45-90 | complete exactly for the request's unit and function, or its exception, the length the function prescribes and a valid CRC |
| `ModbusAdapter.ProbeOfPrefix` | src/modbus/modbus_tcp_adapter.c:45-86 | a frame length once reported stays and is that of any complete frame; every proper prefix of a complete frame is incomplete |
| `DispatcherRuntime.Dispatcher.FindSlot` | src/modbus/modbus_dispatcher.c:5-13 | the first connected slot with the id |
| `DispatcherRuntime.Dispatcher.ConnectClient` | src/modbus/modbus_dispatcher.c:20-38 | a client gets the first free slot unless its id is connected, its epoch zero or all are taken |
| `DispatcherRuntime.Dispatcher.DisconnectClient` | src/modbus/modbus_dispatcher.c:40-51 | a disconnect of the current epoch frees the slot and counts its requests as dropped |
| `DispatcherRuntime.Dispatcher.EnqueueRequest` | src/modbus/modbus_dispatcher.c:53-71 | a request is queued for its client, refused when the epoch is old, or counted when the queue is full |
| `DispatcherRuntime.Dispatcher.StepDispatcher` | src/modbus/modbus_dispatcher.c:73-101 | the next waiting client after the last one served has its head offered, and loses it when it is accepted |
| `ModbusDispatcher.ServedWithinEight` | src/modbus/modbus_dispatcher.c:85-99 | fairness: a connected client with a waiting request is offered within eight steps, whatever the others do |
| `ModbusDispatcher.ApplyKeepsLedger` | src/modbus/modbus_dispatcher.c:20-101 | each event keeps first-in first-out per client and loses or makes up no request |
| `ModbusDispatcher.LedgerFromStart` | src/modbus/modbus_dispatcher.c:15-101 | over every history: taken in = handed over + dropped + queued; per client requests leave as they came; the counters agree modulo 2^32 |
| `ModbusDispatcher.ConnectMeans` | src/modbus/modbus_dispatcher.c:20-38 | a client is taken exactly if its epoch is not zero, its id not connected and a slot free, and gets an empty slot, all others as they were |
| `ModbusDispatcher.DisconnectMeans` | src/modbus/modbus_dispatcher.c:40-51 | exactly the slot of that id and epoch is freed, and what waited there counted as dropped |
| `ModbusDispatcher.EnqueueMeans` | src/modbus/modbus_dispatcher.c:53-71 | a request joins, behind what waits, the queue of the connection it came from and no other; a full queue is counted, a stale or foreign request refused |
| `ModbusDispatcher.StepMeans` | src/modbus/modbus_dispatcher.c:73-101 | the nearest waiting slot from the index on is offered, loses its head exactly if it is accepted, and the index moves behind it |
| `ModbusDispatcher.RunKeepsOwn` | src/modbus/modbus_dispatcher.c:53-101 | over every history a slot holds and hands over only requests of its own client and connection |
| `ManagerRuntime.ManagerRecord.ApplyCandidate` | src/network/gateway_network_manager.c:27-44 | an apply is refused while busy or after a final failure, else staged and applied, or rolled back |
| `ManagerRuntime.ManagerRecord.ConfirmCandidate` | src/network/gateway_network_manager.c:46-50 | a confirm counts only while waiting for it, with a live client and bindings |
| `NetworkManager.RevertRollsBack` | src/network/gateway_network_manager.c:51-62 | a revert asked for while a candidate is under way is not lost: whatever is called before the next step, that step commits nothing and rolls back, for that reason unless the client has gone |
| `ManagerRuntime.ManagerRecord.BeginRollback` | src/network/gateway_network_manager.c:18-25 | a rollback clears every request and restores, or fails for good |
| `ManagerRuntime.ManagerRecord.StepRecord` | src/network/gateway_network_manager.c:54-104 | one step in place is the step of the protocol model |
| `WholeRuns.RunManager` | src/network/gateway_network_manager.c:27-104 | any calls of the manager record: kept and reverted mean what happened at its provider |
| `NetworkManager.StepMeans` | src/network/gateway_network_manager.c:54-104 | what each state vouches for is kept by a step, whatever the provider answers |
| `NetworkManager.KeptAndReverted` | src/network/gateway_network_manager.c:80-101 | kept means committed after ready, bound and confirmed, or an earlier Keep reported durable by the poll during rollback; reverted means restored and discarded |
| `NetworkManager.CommitIsAuthorised` | src/network/gateway_network_manager.c:58-87 | commit is called only after ready, bindings and confirm, with a live client, no pending revert and time left |
| `NetworkManager.FailuresAreFinal` | src/network/gateway_network_manager.c:31-33 | a failed rollback and an uncertain commit are absorbing |
| `NetworkManager.StepIsTimed` | src/network/gateway_network_manager.c:54-104 | a step within d ms of the last decides or has a deadline ahead that lies within the bound of its state |
| `NetworkManager.DecidedInTime` | src/network/gateway_network_manager.c:54-104 | with a step at least every d ms every accepted apply is decided at the first step at or after 123000 + d ms, so before 123000 + 2d ms, across tick wrap-around |
| `NetworkManager.ApplyIsTimed` | src/network/gateway_network_manager.c:27-44 | an accepted apply starts such a history |
| `ManagerProgress.RolledBackForCause` | src/network/gateway_network_manager.c:59-87 | a candidate under way is rolled back exactly if its client is gone, a revert was asked for, its deadline has passed, or an observation or the commit failed, with that reason, and by a step only |
| `ManagerProgress.ApplyGoes` | src/network/gateway_network_manager.c:27-44 | what an apply comes to: nothing if refused; failed if it cannot be staged; rolled back if it cannot be applied; else under way with 30 s |
| `ManagerProgress.GoesForward` | src/network/gateway_network_manager.c:66-87 | a step without a cause: ready, bound within 30 s, asked for, confirmed within 60 s, committing for 3 s while the commit answers 1, kept at its first 0 |
| `ManagerProgress.PlayedPart` | src/network/gateway_network_manager.c:54-87 | over every history in which provider, bindings and client play their part in time, nothing turns back, and each event that is waited for gets the candidate one level further |
| `ManagerProgress.KeepSucceeds` | src/network/gateway_network_manager.c:27-87 | so five such events after an accepted apply keep it |
| `ManagerProgress.KeptInTime` | src/network/gateway_network_manager.c:27-87 | for one: ready and bound within 30 s, confirmed within 60 s of being asked for, committed within 3 s with one answer pending |
| `ManagerProgress.RollbackGoes` | src/network/gateway_network_manager.c:88-101 | what a step makes of a rollback, before and from its deadline on |
| `DhcpOptions.ScanPacket` | src/network/gateway_dhcp_client.c:51-71 | the option loop agrees with the recursive scan on every packet |
| `DhcpOptions.ScanOfEmitted` | src/network/gateway_dhcp_client.c:51-71 | whatever options a server sends before its end mark are taken in one by one, in order |
| `DhcpOptions.RepeatedIsRefused` | src/network/gateway_dhcp_client.c:69-70 | a known option sent twice refuses the reply |
| `DhcpReplies.CodesMean` | src/network/gateway_dhcp_client.c:51-71 | the eight options, each sent under its code of RFC 2132, are read as what was meant |
| `DhcpReplies.OnlyMineCounts` | src/network/gateway_dhcp_client.c:45-75 | a reply changes anything only if it carries the hardware address, exchange and cookie of the client, is of a kind it asked for, and of the server it chose (any in REBINDING) |
| `DhcpReplies.OfferIsRequested` | src/network/gateway_dhcp_client.c:76-96 | an acceptable offer is asked for, at the server that made it |
| `DhcpReplies.AckIsTaken` | src/network/gateway_dhcp_client.c:83-101 | an acceptable acknowledgement of the right server, before the lease would be over, grants what it carries, from the first REQUEST of the exchange; an address not in use already is probed first |
| `DhcpReplies.NakEnds` | src/network/gateway_dhcp_client.c:74 | a refusal of the right server ends the lease, and the client starts over a second later |
| `DhcpReplies.TermsMean` | src/network/gateway_dhcp_client.c:76-82 | the lifetime granted, at most 20 days; T1 and T2 of the reply if within it, else a half and seven eighths |
| `DhcpReplies.TermsRefused` | src/network/gateway_dhcp_client.c:76-82 | refused exactly if shorter than 4 s or T1 not before T2 |
| `DhcpReplies.BroadcastMeans` | src/network/gateway_dhcp_client.c:94-95 | the broadcast address lies in the network of the address, all host bits set |
| `DhcpRuntime.ClientRecord.StepRecord` | src/network/gateway_dhcp_client.c:16-39 | expiry, backoff, T2, T1, the 30-second limit and retransmission in the order of the step model |
| `DhcpRuntime.ClientRecord.ReceiveRecord` | src/network/gateway_dhcp_client.c:40-102 | a reply is turned away, refuses the lease, is an offer to request, or grants a lease, as the model says |
| `DhcpRuntime.ClientRecord.ProbedRecord` | src/network/gateway_dhcp_client.c:103-108 | a probed lease is taken into use unless it has expired meanwhile |
| `DhcpRuntime.ClientRecord.PacketRecord` | src/network/gateway_dhcp_client.c:109-126 | the 300 bytes of the packet are put into the buffer, or nothing if there is none to send or no room; the first REQUEST sent is the moment the lease will count from |
| `DhcpMessage.Fill` | src/network/gateway_dhcp_client.c:115-125 | header, options, end mark and padding are written in place, and nothing behind them |
| `DhcpMessage.MessageIsRead` | src/network/gateway_dhcp_client.c:113-125 | what a reader gets of the packet: exchange, hardware address, the address exactly if it is in use (else the broadcast flag), the type, and the server exactly in a DECLINE and in the REQUEST that answers an offer (table 5 of RFC 2131) |
| `DhcpLease.ConflictDeclines` | src/network/gateway_dhcp_client.c:14-27 | after a conflict no lease is valid and a DECLINE is waiting; for ten seconds a step changes nothing, the first one after that drops the lease and selects anew in a new exchange |
| `DhcpLease.StoppedStays` | src/network/gateway_dhcp_client.c:12-18 | a stopped client holds no lease, sends nothing and has left its exchange; no step, reply or probe wakes it |
| `DhcpLease.ReactKeeps` | src/network/gateway_dhcp_client.c:10-126 | every call keeps the books of the lease in time that does not wrap |
| `DhcpLease.LeaseIsBounded` | src/network/gateway_dhcp_client.c:72-101 | over every timely history: valid exactly in BOUND, RENEWING and REBINDING; T1 < T2 < expiry; the expiry held is the granted lifetime, at most 20 days, from the first REQUEST of the granting exchange (section 4.4.5 of RFC 2131) |
| `DhcpLease.ValidAfterTick` | src/network/gateway_dhcp_client.c:16-39 | after a step the lease is valid exactly if there is a link, it was valid and it has not expired |
| `DhcpLease.ValidAfterGrant` | src/network/gateway_dhcp_client.c:86-101 | a lease just granted has not expired, and expires at the first REQUEST of its exchange plus its lifetime |
| `DhcpLease.ExpiredAfterReply` | src/network/gateway_dhcp_client.c:45-49 | a reply leaves an expired lease valid exactly when it is turned away for its header or the state, before the lease is looked at |
| `DhcpLease.ProbeKeeps` | src/network/gateway_dhcp_client.c:103-108 | a lease taken into use after probing has not expired |
| `DhcpLease.OriginKeeps` | src/network/gateway_dhcp_client.c:40-108 | every call keeps: the lease held is the one granted by the last acknowledgement, and it is in use only if its address was taken into use after probing |
| `DhcpLease.SendingKeeps` | src/network/gateway_dhcp_client.c:10-126 | every call keeps: a client that waits does so for a moment not past when the clock was last looked at, and at most 20 s ahead |
| `DhcpTimes.BoundStep` | src/network/gateway_dhcp_client.c:20-38 | a bound client, in time that does not wrap: no change before T1; from T1 a REQUEST of a new exchange waits in RENEWING, from T2 in REBINDING, none sent yet; from expiry on it starts over with a DISCOVER |
| `DhcpTimes.RenewingStep` | src/network/gateway_dhcp_client.c:20-38 | renewing: the REQUEST is sent again whenever its pause of 1, 2, 4, 8, 16 s and up to 255 ms is over; T2 goes to REBINDING in the same exchange; expiry starts over |
| `DhcpTimes.RebindingStep` | src/network/gateway_dhcp_client.c:20-38 | rebinding: the same until expiry |
| `DhcpTimes.AskingStep` | src/network/gateway_dhcp_client.c:30-38 | selecting and requesting: again after each pause, given up for 10 s after 30 |
| `DhcpTimes.PausedStep` | src/network/gateway_dhcp_client.c:23-26 | a pause over, the client starts over; until then nothing changes |
| `DhcpTimes.ProbingStep` | src/network/gateway_dhcp_client.c:20-27 | a lease being probed is left alone until it has expired |
| `DhcpTimes.UnlinkedStep` | src/network/gateway_dhcp_client.c:18-19 | without a link everything is given up, until a second after the last step without one |
| `LanRuntime.LanRecord.DrainPackets` | src/network/gateway_network_owner.c:99-104 | at most four packets a step, none after a broken socket, each given to the DHCP client in place |
| `LanRuntime.LanRecord.ServeSocket` | src/network/gateway_network_owner.c:97-119 | one turn of a LAN and its DHCP client: tick, packets, request and probe, in that order, with the error left |
| `OwnerRuntime.OwnerRecord.StepRecord` | src/network/gateway_network_owner.c:71-144 | one step in place, over both LANs and their DHCP clients, is the step of the owner model, early returns included |
| `OwnerRuntime.OwnerRecord.PolicyRecord` | src/network/gateway_network_owner.c:19-29 | a policy is taken unless it is invalid or an outstanding writer cannot be cancelled; LANs that change mode are closed |
| `OwnerRuntime.OwnerRecord.Stop` | src/network/gateway_network_owner.c:145-151 | stopping closes both LANs and cancels the writer |
| `OwnerRuntime.OwnerRecord.AwaitWriter` | src/network/gateway_network_owner.c:130-137 | an outdated writer is cancelled before it is polled; a reaped one leaves the owner content only if it was current |
| `WholeRuns.RunOwner` | src/network/gateway_network_owner.c:13-151 | any timely life of the owner over its LANs and DHCP clients: settled means the network observed is the one wanted now by policy and unexpired leases, and no write was asked for out of turn |
| `LanProperties.ServeIsGood` | src/network/gateway_network_owner.c:97-119 | serving a LAN keeps the books of its lease: no lease it holds afterwards has expired, and one in use was granted and probed three times, the probes at least a second apart and two seconds before its use |
| `LanProperties.ProbeIsGood` | src/network/gateway_network_owner.c:107-113 | the probe of a turn keeps that pacing: it is sent when due, refused it is a conflict, and after the third the lease is taken into use |
| `OwnerProperties.AwaitKeeps` | src/network/gateway_network_owner.c:130-137 | only a write begun under the current policy and not cancelled is taken as done |
| `OwnerProperties.StepKeeps` | src/network/gateway_network_owner.c:71-144 | a step keeps the serial writer, the observation in force and the meaning of settled and ready |
| `OwnerProperties.WritersAreSerial` | src/network/gateway_network_owner.c:71-151 | over every history a write is asked for, granted or refused, only when none is outstanding, and only an outstanding one is cancelled or polled |
| `OwnerProperties.SettledIsConverged` | src/network/gateway_network_owner.c:139-143 | settled means: no writer outstanding, the network seen within 250 ms and since the last reap equals, where a write can change it, the target of the current policy and unexpired leases, and the last write began under that policy and was reaped uncancelled |
| `OwnerTargets.TargetMeans` | src/network/gateway_network_owner.c:30-70 | the target, field by field and both ways: a static LAN has the policy's address, netmask and broadcast, a DHCP LAN those of its lease exactly while that is valid, else none; route and name servers in order from the policy or a valid lease; and there is a target exactly if both LANs are there and such a network passes the settings check |
| `OwnerTargets.DottedReads` | src/network/gateway_network_settings.c:77-78 | an address written is the four octets in decimal, most significant first |
| `OwnerTargets.SameIsAll` | src/network/gateway_network_owner.c:5-12 | views that agree in the fields compared, and in what is only seen, are the same |
| `OwnerTargets.WritesAreRightful` | src/network/gateway_network_owner.c:97-143 | over every timely history, whenever a step begins a write or settles: each address written, or seen, is the policy's, or none, or that of a lease granted, unexpired, and probed three times before it was used |
| `OwnerProperties.FailedWriteMaySettle` | src/network/gateway_network_owner.c:134-143 | the last write need not have succeeded: after one that failed while current, the next step settles exactly if it sees the wanted network |
| `OwnerProperties.FailedWriteSettles` | src/network/gateway_network_owner.c:71-143 | a timely run from initialisation whose only write failed and which is settled |
| `OwnerProgress.OwnerSettles` | src/network/gateway_network_owner.c:71-143 | progress: with leases that stay and a provider whose writes take effect, the owner is settled after four steps from any state, and stays so |
| `OwnerProgress.PauseReturns` | src/network/gateway_network_owner.c:139 | a write that is needed is asked for exactly in the first 2^31 ms after the pause, and not in the 2^31 ms after those |
| `OwnerProgress.OwnerStalls` | src/network/gateway_network_owner.c:28-139 | a timely run in which the network is not the one wanted, nothing is outstanding and no write is asked for, 25 days after the policy |
| `OwnerConduct.ClaimedTurn` | src/network/gateway_network_owner.c:98-106 | a turn in which another station claims the address held ends without the lease, whatever other claims come before or after |
| `OwnerConduct.UnacceptableIsDeclined` | src/network/gateway_network_owner.c:121-127 | leases that cannot be combined are all given up, their DECLINEs waiting, and the target is rebuilt without them or the step ends |
| `OwnerConduct.WriterIsBounded` | src/network/gateway_network_owner.c:130-137 | a writer is cancelled exactly if its policy or target is no longer the one wanted or 1000 ms have passed since it began, and polled unless that was refused |
| `OwnerConduct.WriteSetsDeadline` | src/network/gateway_network_owner.c:139-142 | a write begun has that deadline, and is of the policy and target of the moment |
| `OwnerConduct.WriteEnds` | src/network/gateway_network_owner.c:134-137 | a write that ended is followed by a look at once, one that failed uncancelled by a pause of 1000 ms; there is more to write exactly if it was not current |
| `OwnerConduct.RefusedWritePauses` | src/network/gateway_network_owner.c:140 | so is one that was refused |
| `OwnerConduct.ExpiryIsWritten` | src/network/gateway_network_owner.c:76-79 | a lease that has expired is given up before anything else in a step, and is written; one that has not is left alone |
| `OwnerConduct.TurnSends` | src/network/gateway_network_owner.c:97-113 | what a turn finds to send it sends; only the DECLINE after a refused probe waits for the next |
| `OwnerConduct.ReadyExactly` | src/network/gateway_network_owner.c:73-143 | over every timely history, a step that settles finds the owner ready exactly if every LAN under DHCP holds a lease, and the route and the name server wanted are there |
| `OwnerConduct.BrokenIsClosed` | src/network/gateway_network_owner.c:101 | a socket that breaks is closed and its client stopped |
| `OwnerConduct.OpensAgain` | src/network/gateway_network_owner.c:92-96 | it is opened again once the pause is over, with a pause of 1000 ms after a failure, and then served in the same step |
| `OwnerConduct.BeginsAnew` | src/network/gateway_network_owner.c:95 | opened, its client starts anew with the hardware address seen and an exchange number of its own |
| `OwnerConduct.StopRests` | src/network/gateway_network_owner.c:145-150 | a stop closes both LANs, stops both clients and cancels the writer |
| `OwnerConduct.RestsOn` | src/network/gateway_network_owner.c:71-150 | and so it stays until the next policy, whatever the steps find |
| `OwnerConduct.PolicyIsTaken` | src/network/gateway_network_owner.c:19-29 | a policy taken wakes the owner; a LAN that keeps its mode keeps its client, one that changes it is closed; looking and writing are due at once |
| `ConfigStore.ConfigDirectory.Stage` | src/config/gateway_persistence.c:65-66 | every content the staged file goes through, and the result |
| `ConfigStore.ConfigDirectory.PromoteStaged` | src/config/gateway_persistence.c:67-68 | the two renames, the states between them and the six results |
| `ConfigStore.ConfigDirectory.DiscardStaged` | src/config/gateway_persistence.c:69 | discarding removes the staged file at most |
| `ConfigStore.PromotionIsAtomic` | src/config/gateway_persistence.c:61-68 | at every point of a promotion a start loads what it loaded before or the staged configuration; success means the staged one, failure the old one |
| `ConfigStore.PromoteMeans` | src/config/gateway_persistence.c:67-68 | a good staged file over another configuration: success exactly if the renames and the synchronising succeed, then active is the staged text and the backup what was active; uncertain without the synchronising; failed without a rename, the old configuration still found |
| `ConfigStore.NothingPromoted` | src/config/gateway_persistence.c:67-68 | a staged file that is not good changes nothing, one in force already is unchanged |
| `ConfigStore.SelectMeans` | src/config/gateway_persistence.c:61-62 | a start loads the active file if that is good, else the backup if that is, the defaults only if there is neither, else safe mode |
| `ConfigStore.RenamesArePoints` | src/config/gateway_persistence.c:67-68 | the points of a promotion are those its renames lead through |
| `ConfigStore.PowerLossLoadsOldOrNew` | src/config/gateway_persistence.c:67-68 | a power loss during a promotion, undoing any of the renames made so far, leaves a start on what it loaded before or on the staged configuration |
| `TransactionRuntime.Application.RequestConfiguration` | src/app/gateway_application.c:246-259 | a request is refused, unchanged, or staged with changed addresses meant literally |
| `TransactionRuntime.Application.StepTransaction` | src/app/gateway_application.c:229-244 | one step in place, over the files and the controller with its eight ports, is the step of the transaction model |
| `TransactionRuntime.Application.RollBack` | src/app/gateway_application.c:227-228 | a rollback discards the staged file and walks all ports, or none if none was to move |
| `WholeRuns.RunApplication` | src/app/gateway_application.c:227-259 | any life of the application over its files, controller, port runtimes and queues: a start loads the earlier configuration or the candidate, success means the candidate, and the ports keep what a controller keeps of them |
| `TransactionProperties.StartupLoadsOldOrNew` | src/config/gateway_persistence.c:61-69 | over every history, at every point since a candidate was taken up a start loads what it would have loaded then or the candidate; success, durable or uncertain, means the candidate, on disk and in force |
| `TransactionProperties.RollbackMayLoadCandidate` | src/app/gateway_application.c:240-243 | a rollback begins with the candidate already on disk exactly when promotion made its renames, could not synchronise the directory and could not read the candidate back |
| `TransactionProperties.RolledBackLoadsCandidate` | src/app/gateway_application.c:229-243 | for every candidate that keeps the ports, the run in which that happens: rolled back, on the old configuration, and a start loads the candidate |
| `TransactionProperties.RollbackReachesDisk` | src/app/gateway_application.c:229-243 | over every history in which a directory that cannot be synchronised can be read back, a rollback leaves a start on the earlier configuration |
| `TransactionProperties.PowerLossLoadsKnown` | src/config/gateway_persistence.c:61-69 | over every history from a synchronised directory, whichever pending renames a power loss undoes, a start loads what was last synchronised or a candidate promoted since, and the candidate after a success that synchronised |
| `TransactionProperties.PowerLossInPromotion` | src/config/gateway_persistence.c:67-68 | the same after each rename of a promotion that is made over renames still pending |
| `TransactionProperties.SuccessForGood` | src/config/gateway_persistence.c:67-68 | when a success is for good, after every history: no power loss undoes it exactly when what was last synchronised loads the candidate and so does every text moved since |
| `TransactionProperties.PromotionForGood` | src/config/gateway_persistence.c:67-68 | the same before the promotion: its success is for good exactly when it does not find the candidate in place already, or nothing but the candidate is pending and synchronised |
| `TransactionProperties.SuccessIsDurable` | src/config/gateway_persistence.c:67-68 | if every directory can be synchronised every success is for good |
| `TransactionProperties.SuccessMayBeUndone` | src/config/gateway_persistence.c:67-68 | a run whose success is not for good: a candidate that slipped by, taken up again, is found in place and reported as a success, and a power loss brings the old configuration back |
| `TransactionProperties.CleanRollbackRestores` | src/app/gateway_application.c:229-238 | a rollback walk that ends without a refusal has all eight ports on the previous configuration if the candidate moved ports; if it moved none, ports at rest carry what they did and ports on their way that or what they were staged, and with all at rest they are on the previous configuration exactly if they were |
| `TransactionSlips.CleanRollbackLeavesPort` | src/app/gateway_application.c:227-241 | a run from a start: a rollback leaves port 0 up, and the clean rollback of a candidate that moves no port ends with it still there, not on the configuration in force |
| `TransactionProperties.SuccessActivates` | src/app/gateway_application.c:229-241 | success with a candidate that moved ports has all eight on it |
| `TransactionProgress.RolledBackForCause` | src/app/gateway_application.c:229-244 | a candidate under way is rolled back exactly if a port refused it or came to rest without it, or its promotion failed and it is not found on disk; the staged file goes with it |
| `TransactionProgress.GoesForward` | src/app/gateway_application.c:229-241 | without a cause every step that does not wait for a port in motion gets further |
| `TransactionProgress.PlayedPart` | src/app/gateway_application.c:229-241 | over every history without such a cause the candidate succeeds after at most 18 such steps, whatever comes between them |
| `TransactionProgress.SucceedsWith` | src/app/gateway_application.c:240-242 | success puts the candidate in force, certain exactly if the promotion was |
| `TransactionProgress.TakenUpIsOnCourse` | src/app/gateway_application.c:246-259 | a request is taken up exactly if it is valid, keeps the UARTs, changes something and could be staged |
| `TransactionProgress.LiteralMeans` | src/app/gateway_application.c:247-251 | the candidate is what was asked for, with a changed address, and no other, meant literally |
| `TransactionProgress.GoesBack` | src/app/gateway_application.c:227-238 | every step of a rollback that does not wait for a port in motion gets further, and its end puts the previous configuration in force |

## Left out

- System calls, descriptors, `fork`, directories and layout checks are answers that may be anything; paths are plain byte strings.
- SHA-256, CRC-32 of the configuration file and its text form: a digest is any function to 64 bytes, the text form any codec that decodes what it encodes.
- The settings check, the address parser and the resolver text are functions given from outside; `gateway_network_settings.c` is not part of this model.
- Null arguments, missing callbacks and incomplete operation tables: every object is there and every operation is provided.
- Error texts (`last_error` strings), per-port failure counters of the controller and saturating health sums: they decide nothing that is proved here.
- Re-entry of the completion callback into the port.
- In the value model the eight ports of a controller step are taken at once; the loop of `Controller.StepPorts` takes them in the source's rotating order, which ports that share nothing cannot see.
- Structures compared with `memcmp` are compared as values; padding and bytes behind a text's end are not modelled.
- Records for the proofs (logs of calls, unwrapped times, serial numbers) are fields of the models and not of the program.
- The adapter and the dispatcher between a listener and its port are not embedded in the controller: a listener's turn is any sequence of calls of the port runtime.
- The MBAP length is checked twice in the source; the second check cannot fail and is left out.
- Pools, interface files, scripts, the web server, console, panel, NTP and the backlight.
- PortRuntime.PortRuntime.StepPort: the backend is one that has all its operations; with none the source's step does nothing.
- InstallTransaction.Installer.SyncJournal: settles the whole slot, not only the terminal marker, since all of it is one directory.
- InstallRotation.Orchestrate: platform detection, directories, work files, planning and the space check are one answer that may refuse.
- InstallRotation.Installations: an `active` whose publication failed and is undecided is followed by a power loss before the next event; `UndecidedActive` shows what happens otherwise. What others change is durable when it is changed.
- TransactionProperties.PowerLossLoadsKnown: a rename is undone whole or not at all, and a power loss ends the history.
- DhcpRuntime.ClientRecord.ReceiveRecord: starts at the DHCP payload; the Ethernet, IP and UDP headers around it are left out.
- OwnerProperties.SettledIsConverged: assumes calls that do not run backwards, clocks read within 2^31 ms, and fewer than 2^32 policies and stops while one write is not reaped.
- OwnerRuntime.OwnerRecord.StepRecord: the target left by a rebuild that failed twice is not modelled; the next step rebuilds it before it is read.
- TransactionRuntime.Application.RequestConfiguration: without a managed network, so addresses are not mapped and a changed one is always literal; revision tokens and the single validation error reported are left out.
- ControllerConfigs.ReadyRunsItsConfig: says nothing of runs that go on after a shutdown, which may leave a listener's move pending.
- PortTimes.TimesOutOnce: the calls come less than 2^31 ms after the moment the answer is due; `ExpiryIsForgotten` shows why.
- OwnerTargets.WritesAreRightful: under the assumptions of `SettledIsConverged`; announcing an address taken into use is left out.
- InstallTransaction.Installer.Run: the services are one thing, stopped or running; what they may change in files while they stop is not modelled.
- DhcpLease.LeaseIsBounded: assumes that calls do not run backwards and that the lease clock is read within 2^31 ms.
