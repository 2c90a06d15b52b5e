/** QEMU events and the execution states they stand for (`becky-fx-qemu/src/manager.rs`). */
module WorkerEvents {
  import opened Wrappers
  import opened States
  import opened FxIds

  datatype WorkerEvent =
    | Panic
    | Watchdog
    | BlockIoError
    | BlockImageCorrupted
    | DeviceDeleted
    | DeviceUnplugGuestError
    | Migration
    | MemoryFailure
    | Shutdown
    | Suspend
    | Resume
    | Powerdown
    | Reset
    | Stop

  /** The QMP events a worker forwards, and all others under one name. */
  datatype QmpEvent =
    | QmpShutdown
    | QmpPowerdown
    | QmpReset
    | QmpStop
    | QmpResume
    | QmpSuspend
    | QmpWatchdog
    | QmpGuestPanicked
    | QmpMemoryFailure
    | QmpBlockImageCorrupted
    | QmpBlockIoError
    | QmpMigration
    | QmpMigrationPass
    | QmpDeviceDeleted
    | QmpDeviceUnplugGuestError
    | QmpOther(name: string)

  function Forwarded(ev: QmpEvent): Option<WorkerEvent> {
    match ev
    case QmpShutdown => Some(Shutdown)
    case QmpPowerdown => Some(Powerdown)
    case QmpReset => Some(Reset)
    case QmpStop => Some(Stop)
    case QmpResume => Some(Resume)
    case QmpSuspend => Some(Suspend)
    case QmpWatchdog => Some(Watchdog)
    case QmpGuestPanicked => Some(Panic)
    case QmpMemoryFailure => Some(MemoryFailure)
    case QmpBlockImageCorrupted => Some(BlockImageCorrupted)
    case QmpBlockIoError => Some(BlockIoError)
    case QmpMigration => Some(Migration)
    case QmpMigrationPass => Some(Migration)
    case QmpDeviceDeleted => Some(DeviceDeleted)
    case QmpDeviceUnplugGuestError => Some(DeviceUnplugGuestError)
    case QmpOther(_) => None
  }

  function StateFromWorkerEvent(event: WorkerEvent, pid: Pid): ExecState {
    match event
    case Panic => Error("guest panicked")
    case Watchdog => Error("guest watchdog fired")
    case BlockIoError => Error("qemu block I/O error")
    case BlockImageCorrupted => Error("qemu block image corrupted")
    case DeviceUnplugGuestError => Error("qemu device unplug guest error")
    case MemoryFailure => Error("qemu memory failure")
    case Shutdown => Stopped
    case Powerdown => Stopped
    case Suspend => Paused(pid)
    case Stop => Paused(pid)
    case Resume => Running(pid)
    case Reset => Running(pid)
    case DeviceDeleted => Running(pid)
    case Migration => Running(pid)
  }

  /** The pid a stored record carries for a state. */
  function RuntimePid(s: ExecState): Option<Pid> {
    match s
    case Running(pid) => Some(pid)
    case Paused(pid) => Some(pid)
    case _ => None
  }

  /** Only running and paused states have a pid, and it is theirs. */
  lemma RuntimePidExactly(s: ExecState, p: Pid)
    ensures RuntimePid(s) == Some(p) <==> s == Running(p) || s == Paused(p)
    ensures RuntimePid(s) == None <==> !s.Running? && !s.Paused?
  {
  }

  /** Which events stand for which state: those after which the guest runs, is paused or has
      stopped; every other one is an error, each with a message of its own. */
  lemma StatesOfEvents(event: WorkerEvent, pid: Pid)
    ensures var s := StateFromWorkerEvent(event, pid);
            (s == Running(pid) <==> event in {Resume, Reset, DeviceDeleted, Migration})
            && (s == Paused(pid) <==> event in {WorkerEvent.Suspend, WorkerEvent.Stop})
            && (s == Stopped <==> event in {Shutdown, Powerdown})
            && (s == Error("guest panicked") <==> event == Panic)
            && (s == Error("guest watchdog fired") <==> event == Watchdog)
            && (s == Error("qemu block I/O error") <==> event == BlockIoError)
            && (s == Error("qemu block image corrupted") <==> event == BlockImageCorrupted)
            && (s == Error("qemu device unplug guest error") <==> event == DeviceUnplugGuestError)
            && (s == Error("qemu memory failure") <==> event == MemoryFailure)
  {
    assert "guest panicked"[6] != "guest watchdog fired"[6];
    assert "qemu block I/O error"[11] != "qemu block image corrupted"[11];
    assert "guest panicked"[0] != "qemu memory failure"[0];
    assert "guest watchdog fired"[0] != "qemu block I/O error"[0];
    assert |"qemu device unplug guest error"| > |"qemu block image corrupted"| > |"qemu block I/O error"|;
    assert |"qemu block I/O error"| > |"qemu memory failure"|;
  }

  /** The QMP events that are forwarded as one worker event. */
  function Sources(event: WorkerEvent): set<QmpEvent> {
    match event
    case Panic => {QmpGuestPanicked}
    case Watchdog => {QmpWatchdog}
    case BlockIoError => {QmpBlockIoError}
    case BlockImageCorrupted => {QmpBlockImageCorrupted}
    case DeviceDeleted => {QmpDeviceDeleted}
    case DeviceUnplugGuestError => {QmpDeviceUnplugGuestError}
    case Migration => {QmpMigration, QmpMigrationPass}
    case MemoryFailure => {QmpMemoryFailure}
    case Shutdown => {QmpShutdown}
    case Suspend => {QmpSuspend}
    case Resume => {QmpResume}
    case Powerdown => {QmpPowerdown}
    case Reset => {QmpReset}
    case Stop => {QmpStop}
  }

  /** Forwarding and its sources are inverse, and nothing else is forwarded. */
  lemma ForwardedExactly(ev: QmpEvent, event: WorkerEvent)
    ensures Forwarded(ev) == Some(event) <==> ev in Sources(event)
    ensures Forwarded(ev) == None <==> ev.QmpOther?
  {
  }

  /** `QemuWorkerEvent` */
  datatype QueuedEvent = QueuedEvent(fxId: FxId, event: WorkerEvent, state: ExecState)

  /** The capacity of the internal event queue. */
  const EVENT_CAPACITY: nat := 32
}
