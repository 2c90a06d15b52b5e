# Becky: a verified model of effect management

Becky starts effects (QEMU virtual machines, plain processes, Rust workers, containers) that
outlive the manager that started them. This project models the parts of Becky that keep track of
them and proves what they promise:

- **The QEMU manager** (`QemuManager`, `ManagerRuns`, `ManagerCalls`, `WorkerEvents`, `EventFlow`,
  `WorkerShutdown`, `ManagerShutdown`): the registry of instances, the worker handles, the bounded event queue, the metadata a manager writes
  and the shutdown of a worker with its ticker tasks. `Manager` is a class whose methods are proved
  equal to functions on a `Registry` value; whole runs of manager calls are sequences of those
  functions. The concurrent protocols (tickers against a stopping worker, workers against drains,
  workers against a manager that shuts down) are interleaved step machines.
- **Reattaching by pid file** (`SystemCommand`, `SystemCommandRuns`, `Fleet`, `FleetRuns`,
  `RustWorker`): the operating system is a process table and a file map. What the system decides (which file operation
  fails and how far it got, in what order the process table is read, which pid a child gets) is an
  argument, so each theorem covers every choice.
- **Codecs and identities** (`FxIds`, `CommandIds`, `ShellQuoting`, `DockerArgs`, `Text`, `Paths`,
  `RunDirectories`): printers with their readers over unbounded strings and lists, and what follows
  for pid files, run directories and their discovery.
- **QEMU storage** (`StorageLayout`, `StorageCreate`, `StorageResize`): the nested
  error-accumulating loops against flat specifications, and against the drives put on the QEMU
  command line.

A method proved equal to a function states the code; the lemmas about the function state what the
code is for. A lemma whose name ends in `Exactly` gives an if-and-only-if, or every case of a result,
in terms of the inputs alone.

## What the code does, where that is surprising

Each point is a proved statement.

- `create` over an instance that a live worker controls leaves two live workers
  (`ManagerRuns.CreateOverControlled`): the handle is replaced, the old task is not stopped.
- A worker that stops serving can wait for ever for a ticker that is blocked on the full command
  queue: when queued commands and tickers exceed 32, when the poll interval is 0, or when the QMP
  channel closed and the manager can still send (`WorkerShutdown.ShutdownCompletesExactly`).
- A manager that shuts down does not drain events while it waits. It waits for ever once the queued
  events and those the workers hold exceed the 32 places of the internal queue
  (`ManagerShutdown.BeginningReturnsExactly`), and events that arrive during the shutdown count: a
  worker that keeps taking them before it takes `Shutdown` fills the queue, so a shutdown over any
  serving worker has schedules that never return (`ManagerShutdown.BeginningAlwaysReturnsExactly`;
  `AlwaysReturnsExactly` says from when on all do). A `stop` that waits for its one worker returns
  under the same condition (`ManagerShutdown.OneWorkerReturnsExactly`).
- Events queued before a successful `stop` are persisted by the next drain, and can mark the
  stopped instance as running or paused again, without a pid (`ManagerRuns.DrainAfterStop`).
- After a manager restart a system command can run twice exactly when a live process of it is not
  named by the pid file (`SystemCommandRuns.RestartSafeExactly`): a failed pid-file write is repaired
  only by the recorded state.
- The bare engine drops the specification that recorded the pid when a start reports an error, so a
  fresh process is claimed exactly when its pid file was written (`Fleet.SpawnIsClaimedExactly`);
  otherwise a copy can get a second live process (`FleetRuns.FleetStartSafeExactly`).
- `fx_stop` of a Rust worker does not look at what runs under the pid
  (`RustWorker.ForeignProcess`). Stopping or destroying through an old handle can remove the live
  worker's pid file, and kill what now has the old pid; `RustWorker.StopHandleExactly` and
  `RustWorker.DestroyHandleExactly` say which handles are harmless.
- A Rust worker whose pid could be neither written nor killed can get a second one beside it,
  except when its own empty pid file blocks every start (`RustWorker.FailedStartSafeExactly`).
- Two functions whose names differ only in characters that are replaced share one pid file in a run
  directory, and calls on one disturb the other (`RustWorker.OtherFunctionExactly`).
- Two disks whose names differ only in characters that are replaced are one image file
  (`StorageLayout.ImagesShareFileExactly`).
- An existing image survives every create exactly when no ISO is to be copied onto it
  (`StorageCreate.KeptExactly`), and an ISO may be named like a disk's file
  (`StorageCreate.IsoCanBeNamedLikeDisk`).
- `FxId::UuidV4` holds a UUID of any version, because parsing checks none; and a string id may
  print like a number (`FxIds.StringIdCanShadowNumber`), so ids are told apart by their text only
  among results of parsing.

## Model

| member | source | states |
|---|---|---|
| WorkerShutdown.LeavingServing | becky-fx-qemu/src/manager.rs:508-594 | over every run of a started worker and its tickers, when it stops serving on either route no cancel was sent, no ticker has ended and the queue is within its capacity |
| WorkerShutdown.StoppingStep | becky-fx-qemu/src/manager.rs:430-466 | every step of a stopping worker, its tickers and readers keeps the stopping invariant (a free place for each ticker that may still enqueue) and lowers a natural-number measure |
| WorkerShutdown.StoppingProgress | becky-fx-qemu/src/manager.rs:457-466 | until the worker has returned with all tickers joined, some task can move without any outside event |
| WorkerShutdown.ShutdownCompletes | becky-fx-qemu/src/manager.rs:430-466 | after the last command of the manager, with queue plus tickers at most 32 and an interval of at least 1, every continuation has at most 6n+9 steps, each ticker enqueues at most once more, and rest means tickers joined, readers stopped, worker returned |
| WorkerShutdown.WedgedForEver | becky-fx-qemu/src/manager.rs:442-452 | a ticker blocked on a full queue that nobody reads stays blocked |
| WorkerShutdown.CanFinishExactly | becky-fx-qemu/src/manager.rs:430-466 | wherever a stopping worker is, it can still return if and only if the queue has a place for every ticker that waits for one |
| WorkerShutdown.ShutdownCompletesExactly | becky-fx-qemu/src/manager.rs:430-594 | a worker that stops serving on either route can always reach its end, however tasks are scheduled, if and only if it has no tickers, or the interval is not 0, the manager has sent its last command and queue plus tickers is at most 32 |
| ManagerShutdown.CourseKeepsInv | becky-fx-qemu/src/manager.rs:237-272 | over every step of manager, workers, tickers and readers only serving workers hold events, joined workers have returned, and Shutdown is queued once |
| ManagerShutdown.ShutdownProgress | becky-fx-qemu/src/manager.rs:237-272 | while everything fits some move brings the shutdown nearer to its return |
| ManagerShutdown.ReturningMeansFit | becky-fx-qemu/src/manager.rs:243-246 | what does not fit never will: a schedule that returns starts from queues in which everything fits |
| ManagerShutdown.ShutdownReturnsExactly | becky-fx-qemu/src/manager.rs:237-272 | at any point of a shutdown some schedule lets it return if and only if queued and held events fit the internal queue and each worker's command queue has places for its waiting tickers |
| ManagerShutdown.BeginningReturnsExactly | becky-fx-qemu/src/manager.rs:237-272 | a shutdown about to begin over serving workers returns on some schedule if and only if queued plus held events are at most 32 |
| ManagerShutdown.OneWorkerReturnsExactly | becky-fx-qemu/src/manager.rs:380-383 | for the one worker of a stop: queued events plus its held one are at most 32 |
| ManagerShutdown.EventsOverflow | becky-fx-qemu/src/manager.rs:586-594 | a serving worker can take events until the internal queue is full and then one more |
| ManagerShutdown.AlwaysReturnsExactly | becky-fx-qemu/src/manager.rs:237-272 | at any point the shutdown can still return however tasks are scheduled from then on, if and only if no worker serves and every worker's tickers that can still enqueue have places beside the Shutdown still to be sent |
| ManagerShutdown.BeginningAlwaysReturnsExactly | becky-fx-qemu/src/manager.rs:237-272 | a shutdown about to begin can return on every schedule if and only if there is no worker |
| QemuManager.Manager.RegisterExisting | becky-fx-qemu/src/manager.rs:100-109 | an instance is entered with the pid its probe found, and not at all when it found none or the configuration is unusable |
| QemuManager.Manager.DiscoverExistingFromRuntimeDir | becky-fx-qemu/src/manager.rs:116-142 | a missing run root is no instances, one that cannot be opened an error; the loop equals the recursive specification: non-directories and unreadable names are skipped, errors stop it and keep earlier registrations |
| ManagerCalls.DiscoverExactly | becky-fx-qemu/src/manager.rs:116-142 | it succeeds if and only if the root is missing or every entry can be examined, and reports and registers exactly the live instances that directory entries name |
| ManagerCalls.DiscoverError | becky-fx-qemu/src/manager.rs:124-138 | the first entry that cannot be examined decides the error, and what came before stays registered |
| QemuManager.Manager.DiscoverExistingFromMetadata | becky-fx-qemu/src/manager.rs:150-171 | records that cannot be listed are an error; the loop equals its specification |
| ManagerRuns.InventoryExactly | becky-fx-qemu/src/manager.rs:150-171 | discovery succeeds if and only if every record can be used; it reports and registers exactly the live ones and stores exactly the dead ones as stopped |
| ManagerCalls.InventoryError | becky-fx-qemu/src/manager.rs:156-165 | the first record that cannot be used decides the error |
| ManagerRuns.RegisteredExactly | becky-fx-qemu/src/manager.rs:138-167 | of distinct discovered instances each is registered with its own pid and no other changes |
| QemuManager.Manager.WatchInstance | becky-fx-qemu/src/manager.rs:182-229 | one watcher pass: controlled instances are skipped, attach is tried before start, success inserts pid, worker and handle |
| ManagerCalls.WatchExactly | becky-fx-qemu/src/manager.rs:182-229 | a controlled instance is left alone; one that can be attached to is attached to, with that pid, whatever starting would do; one is started only when there is nothing to attach to |
| QemuManager.Manager.RunWatchers | becky-fx-qemu/src/manager.rs:173-232 | the loop's registry and its list of started ids are those of the specification, in order |
| ManagerRuns.StartedExactly | becky-fx-qemu/src/manager.rs:173-232 | the started ids are, each once, exactly those that have a handle now and had none; each has a live worker of its own, and earlier handles and workers stay |
| QemuManager.Manager.Create | becky-fx-qemu/src/manager.rs:300-357 | registry, handles, workers, stored state and record after every outcome |
| ManagerCalls.CreateExactly | becky-fx-qemu/src/manager.rs:308-356 | create succeeds if and only if configured, up and verified; then the instance is registered with its pid under a live worker; each error leaves registry, handles and workers |
| QemuManager.Manager.Stop | becky-fx-qemu/src/manager.rs:359-396 | the whole state after each of the error returns and after success |
| QemuManager.Manager.Shutdown | becky-fx-qemu/src/manager.rs:237-272 | the loop over the taken handles equals its specification for every order of joins and every failing write |
| ManagerCalls.ShutdownStores | becky-fx-qemu/src/manager.rs:244-270 | each controlled instance gets what its own worker's end says, each write for itself, and no other instance anything |
| QemuManager.Manager.DrainWorkerEvents | becky-fx-qemu/src/manager.rs:400-427 | the drain loop equals its specification, with the error return at either write |
| QemuManager.Manager.AllocateVm | becky-fx-qemu/src/manager.rs:274-298 | given whether directories and storage could be made, allocation touches the stored record alone |
| ManagerCalls.AllocateExactly | becky-fx-qemu/src/manager.rs:274-298 | it succeeds if and only if everything was made and the record written, and writes nothing but the record |
| ManagerRuns.ControlledAreRegistered | becky-fx-qemu/src/manager.rs:100-396 | over every run of manager calls, including all errors, each controlled id is registered |
| ManagerRuns.StopResult | becky-fx-qemu/src/manager.rs:359-396 | Ok exactly under the five conditions, and then the id is gone from registry and handles and its worker ended; each error's exact condition and what it leaves; other instances are untouched |
| ManagerRuns.ShutdownResult | becky-fx-qemu/src/manager.rs:237-272 | shutdown empties the handles, drops exactly the ids whose worker joined, and leaves no worker alive |
| ManagerRuns.AtMostOneWorker | becky-fx-qemu/src/manager.rs:173-396 | over every run in which create is not called on an instance a live worker controls, no instance has two live workers |
| ManagerRuns.CreateOverControlled | becky-fx-qemu/src/manager.rs:343-344 | after a successful create there is at most one worker per instance if and only if no live worker controlled it before |
| ManagerRuns.StateAndPidAgree | becky-fx-qemu/src/manager.rs:173-427 | over every run, whatever happens to other instances, an instance's stored record carries a pid exactly for running and paused states, and that pid, as long as the writes to this instance are whole or one-sided ones fit |
| ManagerRuns.AllocateAgreesExactly | becky-fx-qemu/src/manager.rs:274-298 | an allocation keeps state and pid in agreement if and only if the pid it found fits the stored state |
| ManagerRuns.SuccessRepairs | becky-fx-qemu/src/manager.rs:173-396 | whatever was stored before, a successful create, attach, start or stop stores its state with the agreeing pid |
| ManagerRuns.WritesRepair | becky-fx-qemu/src/manager.rs:245-264 | so do the two shutdown writes and a drained event of a registered instance |
| ManagerRuns.DrainStoresLast | becky-fx-qemu/src/manager.rs:400-427 | a drain that reports n has persisted the whole queue of n events and stores each instance's last state, and for a registered one the pid that goes with it; other records stay |
| ManagerRuns.LastStateIsLast | becky-fx-qemu/src/manager.rs:403-424 | that state is the one of the last queued event of the instance |
| WorkerEvents.RuntimePidExactly | becky-fx-qemu/src/manager.rs:409-412 | a pid is stored exactly for running and paused states, and theirs |
| WorkerEvents.StatesOfEvents | becky-fx-qemu/src/manager.rs:600-612 | which worker events stand for running, paused and stopped, and the message of each other one |
| WorkerEvents.ForwardedExactly | becky-fx-qemu/src/manager.rs:626-715 | which QMP events are forwarded as which worker event, and that no other is |
| ManagerRuns.FailedDrainLosesOne | becky-fx-qemu/src/manager.rs:400-427 | a drain succeeds if and only if every event can be persisted; a failing one leaves exactly the events after the first that cannot |
| ManagerRuns.DrainAfterStop | becky-fx-qemu/src/manager.rs:385-403 | after a successful stop the next drain stores the last queued state of the unregistered instance; state and pid then agree if and only if that state has no pid |
| EventFlow.StepKeepsInv | becky-fx-qemu/src/manager.rs:400-427 | each step of a worker, the queue or a drain keeps order, capacity, drain count and stored state |
| EventFlow.PopIsDrainTurn | becky-fx-qemu/src/manager.rs:403-424 | a drained event of the interleaved model has the effect and outcome of one turn of the manager's drain loop |
| EventFlow.EventsKeepOrder | becky-fx-qemu/src/manager.rs:586-624 | for every interleaving each instance's drained then queued events are a prefix of its forwarded QMP events, missing only what the worker holds, the queue keeps its bound, and the stored state is that of the last event written |
| EventFlow.DrainReports | becky-fx-qemu/src/manager.rs:400-427 | for every interleaving a drain that returns n took and persisted exactly n events; a failing one persisted all it took but the last |
| EventFlow.PersistedKeepOrder | becky-fx-qemu/src/manager.rs:400-427 | while no write fails the persisted events of an instance are a prefix of its forwarded events |
| EventFlow.FailuresKeepOrder | becky-fx-qemu/src/manager.rs:400-427 | whichever writes fail, an instance's persisted then queued events are a subsequence of its forwarded events |
| SystemCommand.PidFileStem | becky-fx-system-command/src/lib.rs:366-372 | the loop writes the hexadecimal of the id's bytes, from which the id is read back |
| SystemCommand.PidFileNameShape | becky-fx-system-command/src/lib.rs:362-372 | the file name is `fx-`, the id in hexadecimal, and `.pid` |
| SystemCommand.PidFilePathInjective | becky-fx-system-command/src/lib.rs:362-372 | in any directory two ids have the same pid file if and only if they are equal |
| SystemCommand.CommandEqualIsEquality | becky-fx-system-command/src/lib.rs:481-490 | the element-wise comparison is equality of command lines |
| SystemCommand.WriteRecords | becky-fx-system-command/src/lib.rs:374-391 | what a pid file reads as after a write that succeeds, fails before opening, or fails after truncating |
| SystemCommand.Machine.ReadPidFile | becky-fx-system-command/src/lib.rs:374-383 | an absent file or an unreadable number is no pid |
| SystemCommand.Machine.RunningPidFromPidFile | becky-fx-system-command/src/lib.rs:410-421 | the live matching pid is returned, a file naming any other is removed, errors change nothing |
| SystemCommand.Machine.WaitForPidExit | becky-fx-system-command/src/lib.rs:458-474 | exit is reported if and only if one of the 101 observations finds the process gone |
| SystemCommand.FxSystemCommand.CurrentRunningPid | becky-fx-system-command/src/lib.rs:582-607 | the recorded pid if it still matches, otherwise the first match of the process table |
| SystemCommand.FirstMatchFinds | becky-fx-system-command/src/lib.rs:597-606 | the scan finds the first process in visiting order that runs the line, and none only if there is none |
| SystemCommand.FxSystemCommand.FxStart | becky-fx-system-command/src/lib.rs:664-789 | command state, processes, files and result of a start equal the specification for every environment |
| SystemCommand.StartWithFileExactly | becky-fx-system-command/src/lib.rs:676-789 | with a pid directory, when a start succeeds, with which process, and when it reports a missing pid |
| SystemCommand.StartWithoutFileExactly | becky-fx-system-command/src/lib.rs:684-789 | without one: the recorded process, else the first match if none is recorded, else a child |
| SystemCommand.StartRecordsState | becky-fx-system-command/src/lib.rs:664-789 | the state and desired state a start records on success and on each error |
| SystemCommandRuns.StartWhileAlive | becky-fx-system-command/src/lib.rs:676-731 | a start while the process is alive never spawns, returns its pid if Ok, and is Ok whenever the file operations are |
| SystemCommandRuns.StartSpawnsAtMostOne | becky-fx-system-command/src/lib.rs:732-789 | a start adds at most one process, and knows it even when its pid file could not be written |
| SystemCommandRuns.AtMostOneProcess | becky-fx-system-command/src/lib.rs:374-421 | over any run of starts, exits, foreign processes and safe manager restarts at most one process the command spawned is alive, and it stays known |
| SystemCommandRuns.RestartSafeExactly | becky-fx-system-command/src/lib.rs:676-731 | after a restart there can never be two processes if and only if none is alive or the pid file names it |
| Fleet.PathsDiffer | examples/bare/src/main.rs:47-59 | copies of one command with different numbers have different pid files |
| Fleet.StartTouchesOwnFile | becky-fx-system-command/src/lib.rs:664-789 | a start changes no other pid file, ends no process, and on Ok leaves the returned pid live, matching, recorded and in the file |
| Fleet.BareEngine.FxStart | examples/bare/src/engine.rs:420-449 | the loop over cloned specifications equals starting the copies one by one; on an error the engine's specification stays as it was |
| Fleet.StartOneExactly | examples/bare/src/engine.rs:433-445 | a start that succeeds enters handle and specification, one that fails neither |
| Fleet.StartedCopiesAreDistinct | examples/bare/src/engine.rs:428-448 | with fresh spawned pids and distinct recorded pids every started copy gets its own pid, live and in its own file |
| Fleet.StartAgainReturnsSamePid | examples/bare/src/engine.rs:428-448 | starting again gives each copy the live pid its file names, by the same manager or a new one |
| Fleet.FleetReattaches | examples/bare/src/engine.rs:428-448 | over two starts, with anything happening to other processes between, every copy still alive keeps its pid |
| Fleet.SpawnIsClaimedExactly | examples/bare/src/engine.rs:433-445 | a fresh process is claimed by its copy afterwards if and only if its pid file was written |
| FleetRuns.AtMostOnePerCopy | examples/bare/src/engine.rs:420-543 | over any run of fleet starts without a failed pid write, status passes, destroys, exits, foreign processes and new managers, each copy has at most one live process of its own and its file names it |
| FleetRuns.StartsRecordExactly | examples/bare/src/engine.rs:428-448 | a fleet start leaves every process recorded if and only if none of its spawns failed to write its pid |
| FleetRuns.NeverTwoExactly | examples/bare/src/engine.rs:420-543 | no copy can ever have two processes of its own if and only if every live one is named by its pid file |
| FleetRuns.FleetStartSafeExactly | examples/bare/src/engine.rs:428-448 | after a fleet start no copy can ever have two processes if and only if none of its spawns failed to write its pid |
| Fleet.VisitOne | examples/bare/src/engine.rs:461-500 | visiting one task changes the kept tasks and the commands at that id alone |
| Fleet.BareEngine.FxStatus | examples/bare/src/engine.rs:454-503 | a pass keeps exactly the tasks observed running or without specification, handles unchanged, records each observation and never changes the set of command ids |
| Fleet.StatusPassExactly | examples/bare/src/engine.rs:461-500 | in terms of polls and the process table, which tasks a pass keeps and which state it records of each |
| Fleet.BareEngine.FxDestroy | examples/bare/src/engine.rs:522-543 | the task map is emptied, and processes and files are as after destroying each task's process in turn, errors ignored |
| Fleet.DestroyAllExactly | examples/bare/src/engine.rs:528-540 | exactly the processes end whose pid a task holds and whose kill takes effect, whatever happens to other tasks |
| SystemCommand.FxSystemProcessRunning.Destroy | becky-fx-system-command/src/lib.rs:290-315 | processes and result of destroying a child or a process known by pid, with each error |
| SystemCommand.DestroyedMeansGone | becky-fx-system-command/src/lib.rs:290-315 | when destroy succeeds, the exact condition of each error, and that nothing but the process is touched |
| RustWorker.SpawnedWorkerDispatches | becky-fx-rust-fn/src/lib.rs:102-116 | the spawned command line dispatches to its own name and its arguments minus `--` entries if and only if the executable is not the marker (or marker and name are both `--`) |
| RustWorker.DispatchExactly | becky-fx-rust-fn/src/lib.rs:102-116 | for any arguments: no marker is no call; otherwise the word after the first marker is the function, with the errors for a missing and an unknown name |
| RustWorker.WithoutDashesSnoc | becky-fx-rust-fn/src/lib.rs:112-114 | argument by argument all stay, in order, but `--` |
| RustWorker.WorkerIsRecognised | becky-fx-rust-fn/src/lib.rs:640-643 | every spawned command line is a matching worker for the adjacent-pair scan |
| RustWorker.FxRustFn.FxStart | becky-fx-rust-fn/src/lib.rs:365-439 | processes, files and result of a start in every environment, with the clean-up after a failed write |
| RustWorker.StartExactly | becky-fx-rust-fn/src/lib.rs:373-439 | when a start succeeds, with which worker, and the condition of each error |
| RustWorker.StartLeaves | becky-fx-rust-fn/src/lib.rs:373-413 | processes and pid file after every outcome of a start |
| RustWorker.FxRustFn.FxStop | becky-fx-rust-fn/src/lib.rs:469-476 | processes, files and result of a stop |
| RustWorker.StopExactly | becky-fx-rust-fn/src/lib.rs:469-476 | when a stop succeeds and the condition of each error |
| RustWorker.FxRustFn.FxDestroy | becky-fx-rust-fn/src/lib.rs:481-502 | processes, files and result of a destroy, by observation |
| RustWorker.DestroyExactly | becky-fx-rust-fn/src/lib.rs:481-502 | when a destroy succeeds and the condition of each error |
| RustWorker.EndLeaves | becky-fx-rust-fn/src/lib.rs:469-502 | processes and pid file after every outcome of stop and destroy |
| RustWorker.StartOfLiveWorker | becky-fx-rust-fn/src/lib.rs:373-388 | while the worker is alive a start returns it and changes nothing |
| RustWorker.StartOfDeadWorker | becky-fx-rust-fn/src/lib.rs:389-413 | a start without a live worker keeps the invariant if and only if it does not pass the pid file, spawn, and fail both the write and the kill |
| RustWorker.FailedStartSafeExactly | becky-fx-rust-fn/src/lib.rs:365-502 | two workers can follow such a start if and only if the file was not opened or an earlier worker's handle can still remove it |
| RustWorker.AtMostOneWorker | becky-fx-rust-fn/src/lib.rs:365-502 | over any run of calls on the current handle, calls on functions with other pid files through any handle, exits and foreign processes at most one worker is alive; it is then the handle's and the pid file names it |
| RustWorker.SamePidFileExactly | becky-fx-rust-fn/src/lib.rs:645-655 | two functions in one run directory share a pid file if and only if their sanitised names are equal |
| RustWorker.SanitizedEqualExactly | becky-fx-rust-fn/src/lib.rs:645-649 | which characters stay, and which names become equal |
| RustWorker.OtherFunctionExactly | becky-fx-rust-fn/src/lib.rs:481-502 | while a worker is alive every call on another function of the directory is harmless if and only if the sanitised names differ |
| RustWorker.EndedMeansGone | becky-fx-rust-fn/src/lib.rs:469-502 | Ok from stop or destroy means the process is gone and the pid file absent, and nothing else changed |
| RustWorker.ForeignProcess | becky-fx-rust-fn/src/lib.rs:481-502 | a mismatch in start or destroy changes neither processes nor files; stop ends the other program |
| RustWorker.DestroyHandleExactly | becky-fx-rust-fn/src/lib.rs:481-502 | destroying through a handle is harmless under every outcome if and only if it is the current one or its pid belongs to another program |
| RustWorker.StopHandleExactly | becky-fx-rust-fn/src/lib.rs:469-476 | stopping through a handle is harmless under every outcome if and only if it is the current one or its pid is not in use |
| FxIds.UuidSpellings | becky-fx-id/src/lib.rs:45-54 | all four spellings of a UUID, with digits of either case, parse to it |
| FxIds.UuidExactly | becky-fx-id/src/lib.rs:45-54 | nothing but those spellings is read as a UUID |
| FxIds.DisplayIsCanonical | becky-fx-id/src/lib.rs:59-72 | a UUID prints as 36 characters with hyphens in the RFC's places and lower-case digits |
| FxIds.NumberSpellings | becky-fx-id/src/lib.rs:45-54 | a number may have a plus sign and leading zeros while the text is shorter than a UUID |
| FxIds.StringExactly | becky-fx-id/src/lib.rs:45-54 | a text is a string id, itself, if and only if it is neither |
| FxIds.U64TextIsNoUuid | becky-fx-id/src/lib.rs:45-54 | no printed u64 is read as a UUID |
| FxIds.ParseDisplay | becky-fx-id/src/lib.rs:45-72 | parse(display(id)) = id if and only if id is no string that reads as a UUID or a u64 |
| FxIds.ParseIsStable | becky-fx-id/src/lib.rs:45-72 | parse(display(parse(s))) = parse(s) for every string |
| FxIds.StringIdCanShadowNumber | becky-fx-id/src/lib.rs:59-72 | display alone is not injective |
| CommandIds.EncodeCommandId | becky-fx-system-command/src/lib.rs:324-337 | the loop's encoding is read back as the command and the whole argument list |
| CommandIds.IdsAreUnique | becky-fx-system-command/src/lib.rs:616-618 | two commands share an id if and only if command and arguments are equal |
| ShellQuoting.EscapedArgIsOneWord | becky-fx-qemu/src/utils.rs:4-15 | whatever follows, a quoted argument is read as one word with its text |
| ShellQuoting.QuotesExactly | becky-fx-qemu/src/utils.rs:4-23 | an argument stays as it is if and only if it is non-empty and safe; only an empty list is an error |
| ShellQuoting.QuotingRoundTrip | becky-fx-qemu/src/utils.rs:4-23 | reading the joined line by the shell's quoting rules gives back every non-empty list of arbitrary strings |
| DockerArgs.DockerCreateArgs | becky-fx-docker/src/lib.rs:518-531 | the vector built by the loop is the specified one, for environments of any length |
| DockerArgs.ArgsRoundTrip | becky-fx-docker/src/lib.rs:518-531 | the vector decodes to name, network, ordered environment, image and command if and only if the image does not begin with `--` and no key contains `=` |
| DockerArgs.ArgsInjective | becky-fx-docker/src/lib.rs:518-531 | under that condition different containers have different vectors |
| DockerArgs.ArgsCanCollide | becky-fx-docker/src/lib.rs:518-531 | for all names, values and commands, the two families that break the condition collide with another container |
| RunDirectories.DiscoverableExactly | becky-fx-qemu/src/manager.rs:124-138 | some directory name is discovered as an id if and only if the id is a result of parsing with a plain path component as text |
| RunDirectories.RunDirectoriesAreDistinct | becky-fx-qemu/src/instance.rs:197-218 | such ids have the same run directory, or the same pid path, if and only if they are equal |
| RunDirectories.PidFileIsNoSocket | becky-fx-qemu/src/instance.rs:197-218 | one instance's pid file is never a socket path of an instance, so removing stale sockets cannot remove it |
| RunDirectories.StemNamesId | becky-fx-system-command/src/lib.rs:362-372 | the hexadecimal stem decodes to the id's text, which parses to the id |
| RunDirectories.RunTree.FxAllocate | becky-fx-qemu/src/instance.rs:893-925 | which directories exist under the run root and the data root after each failure and after success, and the result for each outcome of storage creation |
| RunDirectories.AllocatedHasLogAndRun | becky-fx-qemu/src/instance.rs:901-909 | how far an allocation got decides which of the run, log and run directories exist |
| RunDirectories.AllocationsAreTheChildren | becky-fx-qemu/src/instance.rs:893-913 | after any number of allocations, complete or not, the plain entries of the run root are exactly the texts of the ids whose run directory was made |
| RunDirectories.ReconcileKeepsLivePid | becky-fx-qemu/src/instance.rs:575-592 | removing one instance's stale files changes no instance's live pid |
| RunDirectories.ReconcileExactly | becky-fx-qemu/src/instance.rs:575-592 | the three stale files of an instance that is not alive go, except those that cannot; nothing else changes |
| RunDirectories.LivePidExactly | becky-fx-qemu/src/instance.rs:570-573 | the pid is alive if and only if the file reads as it and a process has it |
| RunDirectories.RegisterFollowsPidFile | becky-fx-qemu/src/instance.rs:570-584 | with stale files removed first, an instance is registered exactly when its pid file names a live process, with that pid |
| RunDirectories.AllocationThenDiscovery | becky-fx-qemu/src/manager.rs:116-142 | discovery after allocations, complete or not, returns exactly the ids whose run directory was made and whose pid file names a live process, with that pid, for every directory order and every stale file that cannot be removed |
| StorageLayout.ConfiguredStorageDrives | becky-fx-qemu/src/instance.rs:711-748 | the nested loops give one drive per entry in order, numbered within its group |
| StorageLayout.DriveExactly | becky-fx-qemu/src/instance.rs:686-748 | media, format and drive id of every kind of entry |
| StorageLayout.DrivePathExactly | becky-fx-qemu/src/lib.rs:204-261 | the file of every entry that has an id, and of a device |
| StorageLayout.NamesWithoutId | becky-fx-qemu/src/lib.rs:192-261 | the name of an entry without an id |
| StorageLayout.SanitizeExactly | becky-fx-qemu/src/lib.rs:186-190 | which characters of a storage name stay |
| StorageLayout.CreateArgsRoundTrip | becky-fx-qemu/src/lib.rs:275-294 | format, options, path and size are read back from the tool's arguments |
| StorageLayout.OverlayOptionsExactly | becky-fx-qemu/src/lib.rs:641-648 | an overlay is backed by its image in the image's format unless its options say otherwise |
| StorageLayout.BackingFormatExactly | becky-fx-qemu/src/lib.rs:222-228 | only raw and qcow2 images can back an overlay |
| StorageLayout.DistinctDrivesExactly | becky-fx-qemu/src/lib.rs:186-261 | no two drives are one path if and only if the entries are pairwise apart by sanitised file name and device path |
| StorageLayout.ImagesShareFileExactly | becky-fx-qemu/src/lib.rs:192-261 | two disks are one file if and only if format and sanitised name are equal; a disk is an overlay's file if and only if it is qcow2 with the overlay's name |
| StorageCreate.QemuMachineConfiguration.SysStorageCreate | becky-fx-qemu/src/lib.rs:541-663 | files, directories and accumulated errors of the nested loops equal those of the flat list of entries, for every fault |
| StorageCreate.DiskExactly | becky-fx-qemu/src/lib.rs:549-580 | errors, files and directories of one disk under every fault, with the arguments a missing one is created with |
| StorageCreate.OverlayRefused | becky-fx-qemu/src/lib.rs:611-629 | when an overlay is refused before anything is touched |
| StorageCreate.OverlayExactly | becky-fx-qemu/src/lib.rs:611-657 | errors, files and directories of any other overlay under every fault, with its arguments |
| StorageCreate.IsoExactly | becky-fx-qemu/src/lib.rs:587-608 | errors and files of one ISO under every fault |
| StorageCreate.BlockExactly | becky-fx-qemu/src/lib.rs:296-321 | the answer for a host device |
| StorageCreate.EntriesOneByOne | becky-fx-qemu/src/lib.rs:549-662 | entries are created in order and their errors follow each other |
| StorageCreate.ItemTouchesItsFile | becky-fx-qemu/src/lib.rs:549-655 | an entry creates at most its own file, keeps existing files unless it is a copy, and without errors its file exists |
| StorageCreate.CreatePreserves | becky-fx-qemu/src/lib.rs:549-662 | whatever fails, no file is removed and a file that is no ISO destination keeps its contents |
| StorageCreate.DrivesAreItems | becky-fx-qemu/src/instance.rs:711-748 | the drives on the command line are the created paths, in the same order |
| StorageCreate.CreatedDrivesExist | becky-fx-qemu/src/lib.rs:549-662 | after a create without errors every drive file exists |
| StorageCreate.CopiesLand | becky-fx-qemu/src/lib.rs:585-607 | each ISO destination holds what its last source held before the create |
| StorageCreate.CreateTwice | becky-fx-qemu/src/lib.rs:549-662 | with ISO sources outside the created paths a second create without errors changes neither files nor directories |
| StorageCreate.CreateAgainSucceeds | becky-fx-qemu/src/lib.rs:549-662 | after a create without errors a second one in which no operation fails reports none, if no ISO is copied onto a configured block device |
| StorageCreate.KeptExactly | becky-fx-qemu/src/lib.rs:549-662 | with existing ISO sources, a non-empty file keeps its contents under every fault if and only if no ISO is to be copied onto it |
| StorageCreate.IsoCanBeNamedLikeDisk | becky-fx-qemu/src/lib.rs:204-243 | for every named disk there is an ISO name whose destination is the disk's path |
| StorageResize.SysStorageResize | becky-fx-qemu/src/lib.rs:694-765 | tool runs and errors of the nested loops equal those of the flat task list |
| StorageResize.RequestSelects | becky-fx-qemu/src/lib.rs:701-765 | the tool runs of a request are, in order and each once, those on exactly the disks and overlays that have its id, with the requested size and `--shrink` only when shrinking |
| StorageResize.GroupRefuses | becky-fx-qemu/src/lib.rs:724-735 | one unsupported error, with its text, for a block or ISO group that has the id |
| StorageResize.MatchedExactly | becky-fx-qemu/src/lib.rs:701-762 | only those groups refuse, and a request is not found if and only if nothing has its id |
| StorageResize.OnlyResizableExactly | becky-fx-qemu/src/lib.rs:701-762 | a request can be carried out if and only if a disk or overlay has its id and no block device or ISO does |
| StorageResize.PerformSnoc | becky-fx-qemu/src/lib.rs:710-762 | each task adds its run and its error at the end, whatever failed before |
| StorageResize.ResizeOkExactly | becky-fx-qemu/src/lib.rs:701-765 | no error if and only if every request names a disk or overlay and no block device or ISO, and every run succeeded |

## Left out

- Wrapped commands (nice, taskset): pid files match the wrapped line while scan and status compare the bare one, and what the process table shows is up to external tools; only unwrapped commands are modelled.
- FxSystemCommand: `fx_stop`, `fx_allocate`, the contents of the stdout and stderr files and a fresh child whose process id is already unavailable after spawning succeeded are not modelled beyond an error outcome.
- Signals, zombies and real time: an exit is a step that may happen at any point; time limits are the outcome that the process was still there.
- SystemCommand, Fleet: nobody but the modelled starts writes or removes the pid files.
- SystemCommand.WriteResult: a failed write leaves the pid file as it was or empty; a file with part of a pid is not modelled.
- ManagerShutdown: the metadata written after each join, and the time a worker spends on one command.
- QemuManager.Manager.AllocateVm: directories and storage are one argument here; RunDirectories.RunTree.FxAllocate and StorageCreate model how they are made.
- QemuManager.Manager.RegisterExisting: what the probe finds is an argument here; RunDirectories.RegisterFollowsPidFile relates it to the pid file.
- EventFlow: the public event channel is taken to accept every event; a worker blocked there is not modelled.
- QemuManager: QMP and guest-agent sockets, verification and monitoring appear as how far bringing an instance up got; of a metadata record only the pid is kept.
- RustWorker: the status monitor of a reattached handle and its latest state, and the environment passed to the child.
- Fleet: the reader-writer lock around the engine's state; one call at a time.
- StorageCreate: `qemu-img` writes its file when it runs, since its exit status reaches no caller; path aliases through symbolic links or `..` are distinct files.
- sys_storage_info, image inspection output, archives, statistics and accounting: thin wrappers over command output.
- The `uuid` crate is not part of this model; its accepted spellings follow section 4 of RFC 9562 and the crate's own three other forms.
- RunDirectories: directories that allocation did not make, whose names may be another spelling of an id; run root and data root are separate trees.
- DockerArgs: options other than the three the code emits, and what the Docker CLI makes of short options.
- The container monitor, engine traits, accelerator, boot and option validation, and the application main.
