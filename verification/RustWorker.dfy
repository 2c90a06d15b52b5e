/** Rust-function workers: dispatch and the pid-file lifecycle (`becky-fx-rust-fn`). */
module RustWorker {
  import opened Wrappers
  import opened Text
  import opened States
  import Paths
  import opened SystemCommand

  datatype Worker = Worker(executable: string, name: string, args: seq<string>, marker: string, runDir: string)
  {
    /** The command line a spawned worker shows in the process table. */
    function Line(): seq<string> { [executable, marker, name] + args }

    function PidPath(): string { Paths.Push(runDir, Sanitize(name) + ".pid") }
  }

  /** `sanitize_pid_name` */
  function Sanitize(name: string): string {
    seq(|name|, i requires 0 <= i < |name| =>
      if 'a' <= name[i] <= 'z' || 'A' <= name[i] <= 'Z' || IsDigit(name[i]) || name[i] == '-' || name[i] == '_'
      then name[i] else '_')
  }

  // Worker-mode dispatch.

  datatype DispatchError = MissingFunctionName | FunctionNotFound(name: string)

  function Position(args: seq<string>, x: string): Option<nat> {
    if args == [] then None
    else if args[0] == x then Some(0)
    else
      match Position(args[1..], x)
      case None => None
      case Some(i) => Some(i + 1)
  }

  function WithoutDashes(args: seq<string>): seq<string> {
    if args == [] then []
    else (if args[0] != "--" then [args[0]] else []) + WithoutDashes(args[1..])
  }

  /** `run_worker_from_args`: the function called and its arguments, None when the marker is
      absent. */
  function Dispatch(registered: set<string>, args: seq<string>, marker: string)
    : Result<Option<(string, seq<string>)>, DispatchError>
  {
    match Position(args, marker)
    case None => Ok(None)
    case Some(i) =>
      if i + 1 >= |args| then Err(MissingFunctionName)
      else if args[i + 1] !in registered then Err(FunctionNotFound(args[i + 1]))
      else Ok(Some((args[i + 1], WithoutDashes(args[i + 2..]))))
  }

  /** The marker stands at `k` and not before. */
  predicate MarkerAt(args: seq<string>, marker: string, k: nat) {
    k < |args| && args[k] == marker && forall i | 0 <= i < k :: args[i] != marker
  }

  lemma {:induction false} PositionIsFirst(args: seq<string>, x: string)
    ensures match Position(args, x)
            case None => x !in args
            case Some(k) => MarkerAt(args, x, k)
  {
    if args != [] && args[0] != x {
      PositionIsFirst(args[1..], x);
      assert forall i | 0 <= i < |args[1..]| :: args[1..][i] == args[i + 1];
    }
  }

  /** Filtering argument by argument: every one stays, in order, but `--`. */
  lemma {:induction false} WithoutDashesSnoc(args: seq<string>, last: string)
    ensures WithoutDashes(args + [last]) == WithoutDashes(args) + if last == "--" then [] else [last]
    ensures WithoutDashes([]) == []
  {
    var all := args + [last];
    if args == [] {
      assert all[1..] == [];
    } else {
      WithoutDashesSnoc(args[1..], last);
      assert all[1..] == args[1..] + [last];
    }
  }

  /** Worker mode is left alone without a marker; with one, the word after the first marker names the
      function, which must be there and registered, and the rest are its arguments. */
  lemma DispatchExactly(registered: set<string>, args: seq<string>, marker: string, k: nat)
    ensures Dispatch(registered, args, marker) == Ok(None) <==> marker !in args
    ensures MarkerAt(args, marker, k) ==>
              Dispatch(registered, args, marker)
              == if k + 1 == |args| then Err(MissingFunctionName)
                 else if args[k + 1] !in registered then Err(FunctionNotFound(args[k + 1]))
                 else Ok(Some((args[k + 1], WithoutDashes(args[k + 2..]))))
  {
    PositionIsFirst(args, marker);
    if MarkerAt(args, marker, k) {
      assert Position(args, marker) == Some(k);
    }
  }

  lemma {:induction false} WithoutDashesBound(args: seq<string>)
    ensures |WithoutDashes(args)| <= |args|
  {
    if args != [] {
      WithoutDashesBound(args[1..]);
    }
  }

  /** A spawned worker dispatches to its function, with its arguments minus the `--` entries,
      exactly when the executable is not itself the marker (or the call is all dashes). */
  lemma SpawnedWorkerDispatches(w: Worker, registered: set<string>)
    requires w.name in registered
    ensures Dispatch(registered, w.Line(), w.marker) == Ok(Some((w.name, WithoutDashes(w.args))))
            <==> w.executable != w.marker || w.name == w.marker == "--"
  {
    var line := w.Line();
    assert line[1..] == [w.marker, w.name] + w.args;
    assert line[1..][0] == w.marker;
    assert line[2..] == [w.name] + w.args && line[3..] == w.args;
    assert line[2..][1..] == w.args;
    if w.executable == w.marker {
      assert Position(line, w.marker) == Some(0);
      WithoutDashesBound(w.args);
      assert WithoutDashes(line[2..]) == (if w.name != "--" then [w.name] else []) + WithoutDashes(w.args);
      assert w.name != "--" ==> |WithoutDashes(line[2..])| == 1 + |WithoutDashes(w.args)|;
      assert w.name == "--" ==> WithoutDashes(line[2..]) == WithoutDashes(w.args);
      assert line[1] == w.marker && 0 + 1 < |line|;
    } else {
      assert Position(line[1..], w.marker) == Some(0);
      assert Position(line, w.marker) == Some(1);
    }
  }

  /** `process_cmd_contains_worker`: marker and name stand side by side somewhere. */
  predicate ContainsWorker(line: seq<string>, marker: string, name: string) {
    exists i | 0 <= i < |line| - 1 :: line[i] == marker && line[i + 1] == name
  }

  lemma WorkerIsRecognised(w: Worker)
    ensures ContainsWorker(w.Line(), w.marker, w.name)
  {
    assert w.Line()[1] == w.marker && w.Line()[2] == w.name;
  }

  // The pid-file lifecycle.

  datatype WorkerError =
    | Io
    | CurrentExe
    | InvalidPidFile
    | StalePidFile
    | PidMismatch(pid: Pid)
    | SignalFailed
    | StopTimeout

  datatype Observation = Matching | Mismatched | Missing

  function Observe(h: Host, w: Worker, pid: Pid): Observation {
    if pid !in h.procs then Missing
    else if ContainsWorker(h.procs[pid], w.marker, w.name) then Matching
    else Mismatched
  }

  datatype Spawning = NoExecutable | NoChild | Spawned(pid: Pid)

  datatype WorkerStart =
    WorkerStart(readFails: bool, removeFails: bool, spawn: Spawning, write: WriteOutcome, killFails: bool)

  /** `vanished`: the process was gone when the signal was to be sent. */
  datatype Signalling = Sent(exits: bool) | Refused | Vanished

  datatype WorkerEnd = WorkerEnd(signal: Signalling, removeFails: bool)

  datatype Started = Started(pid: Pid, reattached: bool)

  function WritePid(h: Host, path: string, pid: Pid, out: WriteOutcome): Host {
    match out
    case Written => h.(files := h.files[path := Decimal(pid)])
    case Unopened => h
    case Truncated => h.(files := h.files[path := ""])
  }

  function SpawnWorker(w: Worker, h: Host, env: WorkerStart): (Host, Result<Started, WorkerError>) {
    match env.spawn
    case NoExecutable => (h, Err(CurrentExe))
    case NoChild => (h, Err(Io))
    case Spawned(pid) =>
      var spawned := WritePid(h.(procs := h.procs[pid := w.Line()]), w.PidPath(), pid, env.write);
      if env.write.Written? then (spawned, Ok(Started(pid, false)))
      else if env.killFails then (spawned, Err(Io))
      else (spawned.(procs := spawned.procs - {pid}), Err(Io))
  }

  function StartWorker(w: Worker, h: Host, env: WorkerStart): (Host, Result<Started, WorkerError>) {
    if env.readFails then (h, Err(Io))
    else if w.PidPath() !in h.files then SpawnWorker(w, h, env)
    else
      match ParsePid(h.files[w.PidPath()])
      case None => (h, Err(InvalidPidFile))
      case Some(pid) =>
        match Observe(h, w, pid)
        case Matching => (h, Ok(Started(pid, true)))
        case Mismatched => (h, Err(PidMismatch(pid)))
        case Missing =>
          if env.removeFails then (h, Err(Io))
          else SpawnWorker(w, h.(files := h.files - {w.PidPath()}), env)
  }

  function RemoveFile(w: Worker, h: Host, fails: bool): (Host, Result<(), WorkerError>) {
    if fails then (h, Err(Io)) else (h.(files := h.files - {w.PidPath()}), Ok(()))
  }

  /** Signal, wait for the process to go, and on success remove the pid file. */
  function EndProcess(w: Worker, h: Host, pid: Pid, env: WorkerEnd): (Host, Result<(), WorkerError>) {
    match env.signal
    case Refused => (h, Err(SignalFailed))
    case Vanished => (h.(procs := h.procs - {pid}), Err(StalePidFile))
    case Sent(exits) =>
      if !exits then (h, Err(StopTimeout)) else RemoveFile(w, h.(procs := h.procs - {pid}), env.removeFails)
  }

  function StopWorker(w: Worker, h: Host, pid: Pid, env: WorkerEnd): (Host, Result<(), WorkerError>) {
    if pid !in h.procs then (h, Err(StalePidFile)) else EndProcess(w, h, pid, env)
  }

  function DestroyWorker(w: Worker, h: Host, pid: Pid, env: WorkerEnd): (Host, Result<(), WorkerError>) {
    match Observe(h, w, pid)
    case Matching => EndProcess(w, h, pid, env)
    case Mismatched => (h, Err(PidMismatch(pid)))
    case Missing => RemoveFile(w, h, env.removeFails)
  }

  // When a call succeeds.

  /** The pid runs something that is no worker of this function. */
  predicate RunsOther(w: Worker, h: Host, pid: Pid) {
    pid in h.procs
    && var line := h.procs[pid];
       !exists i | 0 <= i < |line| - 1 :: line[i] == w.marker && line[i + 1] == w.name
  }

  /** Stop succeeds if and only if the process was there, went after the signal, and the pid file
      could be removed; each error names the first of these that was missing. */
  lemma StopExactly(w: Worker, h: Host, pid: Pid, env: WorkerEnd)
    ensures var r := StopWorker(w, h, pid, env).1;
            (r.Ok? <==> pid in h.procs && env.signal == Sent(true) && !env.removeFails)
            && (r == Err(StalePidFile) <==> pid !in h.procs || env.signal.Vanished?)
            && (r == Err(SignalFailed) <==> pid in h.procs && env.signal.Refused?)
            && (r == Err(StopTimeout) <==> pid in h.procs && env.signal == Sent(false))
            && (r == Err(Io) <==> pid in h.procs && env.signal == Sent(true) && env.removeFails)
  {
  }

  /** Destroy succeeds if and only if the pid file could be removed and the process was already gone,
      or was a worker of this function that went after the signal. */
  lemma DestroyExactly(w: Worker, h: Host, pid: Pid, env: WorkerEnd)
    ensures var r := DestroyWorker(w, h, pid, env).1;
            var matching := pid in h.procs && !RunsOther(w, h, pid);
            (r.Ok? <==> !env.removeFails && (pid !in h.procs || (matching && env.signal == Sent(true))))
            && (r == Err(PidMismatch(pid)) <==> RunsOther(w, h, pid))
            && (r == Err(StalePidFile) <==> matching && env.signal.Vanished?)
            && (r == Err(SignalFailed) <==> matching && env.signal.Refused?)
            && (r == Err(StopTimeout) <==> matching && env.signal == Sent(false))
            && (r == Err(Io) <==> env.removeFails && (pid !in h.procs || (matching && env.signal == Sent(true))))
  {
  }

  /** What ending a process leaves: it is gone if the signal took effect or it had vanished, and the
      pid file with it once it is known to be gone and can be removed; nothing else changes. */
  lemma EndLeaves(w: Worker, h: Host, pid: Pid, env: WorkerEnd)
    ensures var g := StopWorker(w, h, pid, env).0;
            g.procs == (if env.signal == Sent(true) || env.signal.Vanished? then h.procs - {pid} else h.procs)
            && g.files == (if pid in h.procs && env.signal == Sent(true) && !env.removeFails
                           then h.files - {w.PidPath()} else h.files)
    ensures var g := DestroyWorker(w, h, pid, env).0;
            var matching := pid in h.procs && !RunsOther(w, h, pid);
            g.procs == (if matching && (env.signal == Sent(true) || env.signal.Vanished?)
                        then h.procs - {pid} else h.procs)
            && g.files == (if (pid !in h.procs || (matching && env.signal == Sent(true))) && !env.removeFails
                           then h.files - {w.PidPath()} else h.files)
  {
  }

  /** Start succeeds if and only if the file names a live worker of this function, or allows a spawn,
      the child starts and its pid can be written; each error names what was missing. */
  lemma StartExactly(w: Worker, h: Host, env: WorkerStart)
    ensures var r := StartWorker(w, h, env).1;
            var path := w.PidPath();
            var named := if path in h.files then ParsePid(h.files[path]) else None;
            var live := named.Some? && named.value in h.procs;
            var clear := !env.readFails && (path !in h.files || (named.Some? && !live && !env.removeFails));
            (r.Ok? <==> (!env.readFails && live && !RunsOther(w, h, named.value))
                        || (clear && env.spawn.Spawned? && env.write.Written?))
            && (r.Ok? ==> r.value == if live then Started(named.value, true) else Started(env.spawn.pid, false))
            && (r == Err(InvalidPidFile) <==> !env.readFails && path in h.files && named.None?)
            && (r.Err? && r.error.PidMismatch? <==> !env.readFails && live && RunsOther(w, h, named.value))
            && (r.Err? && r.error.PidMismatch? ==> r.error.pid == named.value)
            && (r == Err(CurrentExe) <==> clear && env.spawn.NoExecutable?)
  {
  }

  /** What a start leaves: a child stays if its pid was written or it could not be killed; the file
      is rewritten for a child and removed before a spawn that fails, and otherwise untouched. */
  lemma StartLeaves(w: Worker, h: Host, env: WorkerStart)
    requires env.spawn.Spawned? ==> env.spawn.pid !in h.procs
    ensures var g, path := StartWorker(w, h, env).0, w.PidPath();
            var named := if path in h.files then ParsePid(h.files[path]) else None;
            var clear := !env.readFails
                         && (path !in h.files || (named.Some? && named.value !in h.procs && !env.removeFails));
            g.procs == (if clear && env.spawn.Spawned? && (env.write.Written? || env.killFails)
                        then h.procs[env.spawn.pid := [w.executable, w.marker, w.name] + w.args] else h.procs)
            && g.files == (if !clear then h.files
                           else if env.spawn.Spawned? && env.write.Written? then h.files[path := Decimal(env.spawn.pid)]
                           else if env.spawn.Spawned? && env.write.Truncated? then h.files[path := ""]
                           else h.files - {path})
  {
    var path := w.PidPath();
    assert path !in h.files ==> h.files - {path} == h.files;
    Rewritten(h.files, path, "");
    if env.spawn.Spawned? {
      Rewritten(h.files, path, Decimal(env.spawn.pid));
      assert h.procs[env.spawn.pid := w.Line()] - {env.spawn.pid} == h.procs;
    }
  }

  lemma Rewritten(files: map<string, string>, path: string, text: string)
    ensures (files - {path})[path := text] == files[path := text]
  {
  }

  class FxRustFn {
    const worker: Worker

    constructor (worker: Worker)
      ensures this.worker == worker
    {
      this.worker := worker;
    }

    method ReadPidFile(m: Machine, fails: bool) returns (r: Result<Option<Pid>, WorkerError>)
      ensures r == if fails then Err(Io)
                   else if worker.PidPath() !in m.files then Ok(None)
                   else match ParsePid(m.files[worker.PidPath()]) {
                     case None => Err(InvalidPidFile)
                     case Some(p) => Ok(Some(p))
                   }
    {
      if fails {
        return Err(Io);
      }
      var path := worker.PidPath();
      if path !in m.files {
        return Ok(None);
      }
      match ParsePid(m.files[path]) {
        case None => r := Err(InvalidPidFile);
        case Some(pid) => r := Ok(Some(pid));
      }
    }

    method RemovePidFile(m: Machine, fails: bool) returns (r: Result<(), WorkerError>)
      modifies m`files
      ensures (m.View(), r) == RemoveFile(worker, old(m.View()), fails)
    {
      if fails {
        return Err(Io);
      }
      m.files := m.files - {worker.PidPath()};
      r := Ok(());
    }

    method ObserveWorkerProcess(m: Machine, pid: Pid) returns (o: Observation)
      ensures o == Observe(m.View(), worker, pid)
    {
      if pid !in m.procs {
        return Missing;
      }
      o := if ContainsWorker(m.procs[pid], worker.marker, worker.name) then Matching else Mismatched;
    }

    method FxStart(m: Machine, env: WorkerStart) returns (r: Result<Started, WorkerError>)
      modifies m
      ensures (m.View(), r) == StartWorker(worker, old(m.View()), env)
    {
      var read := ReadPidFile(m, env.readFails);
      if read.Err? {
        return Err(read.error);
      }
      if read.value.Some? {
        var pid := read.value.value;
        var observed := ObserveWorkerProcess(m, pid);
        match observed {
          case Matching =>
            return Ok(Started(pid, true));
          case Mismatched =>
            return Err(PidMismatch(pid));
          case Missing =>
            var removed := RemovePidFile(m, env.removeFails);
            if removed.Err? {
              return Err(removed.error);
            }
        }
      }

      match env.spawn {
        case NoExecutable =>
          return Err(CurrentExe);
        case NoChild =>
          return Err(Io);
        case Spawned(pid) =>
          m.procs := m.procs[pid := worker.Line()];
          match env.write {
            case Written =>
              m.files := m.files[worker.PidPath() := Decimal(pid)];
              return Ok(Started(pid, false));
            case Unopened =>
            case Truncated =>
              m.files := m.files[worker.PidPath() := ""];
          }
          if !env.killFails {
            m.procs := m.procs - {pid};
          }
          return Err(Io);
      }
    }

    method SignalAndWait(m: Machine, pid: Pid, env: WorkerEnd) returns (r: Result<(), WorkerError>)
      modifies m`procs
      ensures m.procs == if env.signal.Vanished? || env.signal == Sent(true) then old(m.procs) - {pid} else old(m.procs)
      ensures r == match env.signal
                   case Refused => Err(SignalFailed)
                   case Vanished => Err(StalePidFile)
                   case Sent(exits) => if exits then Ok(()) else Err(StopTimeout)
    {
      match env.signal {
        case Refused =>
          return Err(SignalFailed);
        case Vanished =>
          m.procs := m.procs - {pid};
          return Err(StalePidFile);
        case Sent(exits) =>
          if !exits {
            return Err(StopTimeout);
          }
          m.procs := m.procs - {pid};
      }
      r := Ok(());
    }

    method FxStop(m: Machine, pid: Pid, env: WorkerEnd) returns (r: Result<(), WorkerError>)
      modifies m
      ensures (m.View(), r) == StopWorker(worker, old(m.View()), pid, env)
    {
      if pid !in m.procs {
        return Err(StalePidFile);
      }
      r := SignalAndWait(m, pid, env);
      if r.Err? {
        return;
      }
      r := RemovePidFile(m, env.removeFails);
    }

    method FxDestroy(m: Machine, pid: Pid, env: WorkerEnd) returns (r: Result<(), WorkerError>)
      modifies m
      ensures (m.View(), r) == DestroyWorker(worker, old(m.View()), pid, env)
    {
      var observed := ObserveWorkerProcess(m, pid);
      match observed {
        case Matching =>
          r := SignalAndWait(m, pid, env);
          if r.Err? {
            return;
          }
        case Mismatched =>
          return Err(PidMismatch(pid));
        case Missing =>
      }
      r := RemovePidFile(m, env.removeFails);
    }
  }

  // Calls on other functions.

  datatype Call =
    | CallStart(start: WorkerStart)
    | CallStop(pid: Pid, end: WorkerEnd)
    | CallDestroy(pid: Pid, end: WorkerEnd)

  function CallHost(w: Worker, h: Host, c: Call): Host {
    match c
    case CallStart(env) => StartWorker(w, h, env).0
    case CallStop(pid, env) => StopWorker(w, h, pid, env).0
    case CallDestroy(pid, env) => DestroyWorker(w, h, pid, env).0
  }

  /** A pid given to a new process is not live. */
  predicate SpawnsFresh(c: Call, h: Host) {
    c.CallStart? && c.start.spawn.Spawned? ==> c.start.spawn.pid !in h.procs
  }

  /** A call touches no pid file but its own and turns no process into another. */
  lemma CallTouchesOwnFile(w: Worker, h: Host, c: Call, path: string)
    requires SpawnsFresh(c, h) && path != w.PidPath()
    ensures var g := CallHost(w, h, c);
            (path in g.files <==> path in h.files) && (path in h.files ==> g.files[path] == h.files[path])
            && forall p | p in h.procs && p in g.procs :: g.procs[p] == h.procs[p]
  {
  }

  lemma PidNamePlain(name: string)
    ensures Paths.PlainComponent(Sanitize(name) + ".pid")
  {
    var t := Sanitize(name) + ".pid";
    assert '/' !in Sanitize(name) && '/' !in ".pid" && |t| >= 4;
  }

  predicate Kept(c: char) { 'a' <= c <= 'z' || 'A' <= c <= 'Z' || '0' <= c <= '9' || c == '-' || c == '_' }

  /** Letters, digits, hyphens and underscores stay, everything else becomes an underscore: so names
      are equal if they differ in nothing but characters that are, or become, underscores. */
  lemma SanitizedEqualExactly(a: string, b: string)
    ensures Sanitize(a) == Sanitize(b)
            <==> |a| == |b| && forall i | 0 <= i < |a| ::
                   a[i] == b[i] || ((!Kept(a[i]) || a[i] == '_') && (!Kept(b[i]) || b[i] == '_'))
    ensures |Sanitize(a)| == |a| && forall i | 0 <= i < |a| :: Sanitize(a)[i] == if Kept(a[i]) then a[i] else '_'
  {
    if Sanitize(a) == Sanitize(b) {
      assert |Sanitize(a)| == |a| && |Sanitize(b)| == |b|;
      forall i | 0 <= i < |a|
        ensures a[i] == b[i] || ((!Kept(a[i]) || a[i] == '_') && (!Kept(b[i]) || b[i] == '_'))
      {
        assert Sanitize(a)[i] == Sanitize(b)[i];
      }
    }
  }

  /** Two functions in one run directory share a pid file if and only if their sanitised names are
      equal. */
  lemma SamePidFileExactly(a: Worker, b: Worker)
    requires a.runDir == b.runDir
    ensures a.PidPath() == b.PidPath() <==> Sanitize(a.name) == Sanitize(b.name)
  {
    if a.PidPath() == b.PidPath() {
      PidNamePlain(a.name);
      PidNamePlain(b.name);
      var x, y := Sanitize(a.name) + ".pid", Sanitize(b.name) + ".pid";
      Paths.PushInjective(a.runDir, x, y);
      assert x[..|x| - 4] == Sanitize(a.name) && y[..|y| - 4] == Sanitize(b.name);
    }
  }

  // Runs of one worker configuration.

  /** `handle`: the pid of the last successful start.  `own`: the live workers it spawned. */
  datatype World = World(w: Worker, host: Host, handle: Option<Pid>, own: set<Pid>)

  datatype Event =
    | StartCall(start: WorkerStart)
    | StopCall(end: WorkerEnd)
    | DestroyCall(end: WorkerEnd)
    | OtherCall(other: Worker, call: Call)
    | Exits(pid: Pid)
    | Foreign(pid: Pid, line: seq<string>)

  /** Other functions may be called through any handle, as long as their pid file is another. */
  predicate Allowed(v: World, e: Event) {
    match e
    case StartCall(env) => !env.killFails && (env.spawn.Spawned? ==> env.spawn.pid !in v.host.procs)
    case StopCall(_) => v.handle.Some?
    case DestroyCall(_) => v.handle.Some?
    case OtherCall(other, call) => other.PidPath() != v.w.PidPath() && SpawnsFresh(call, v.host)
    case Exits(pid) => pid in v.host.procs
    case Foreign(pid, _) => pid !in v.host.procs
  }

  function AfterStart(v: World, env: WorkerStart): World {
    var (h, r) := StartWorker(v.w, v.host, env);
    World(v.w, h, if r.Ok? then Some(r.value.pid) else v.handle, v.own + (h.procs.Keys - v.host.procs.Keys))
  }

  function AfterEnd(v: World, h: Host): World {
    v.(host := h, own := v.own * h.procs.Keys)
  }

  function Apply(v: World, e: Event): World
    requires Allowed(v, e)
  {
    match e
    case StartCall(env) => AfterStart(v, env)
    case StopCall(env) => AfterEnd(v, StopWorker(v.w, v.host, v.handle.value, env).0)
    case DestroyCall(env) => AfterEnd(v, DestroyWorker(v.w, v.host, v.handle.value, env).0)
    case OtherCall(other, call) => AfterEnd(v, CallHost(other, v.host, call))
    case Exits(pid) => AfterEnd(v, v.host.(procs := v.host.procs - {pid}))
    case Foreign(pid, line) => v.(host := v.host.(procs := v.host.procs[pid := line]))
  }

  ghost predicate IsRun(v: World, es: seq<Event>)
    decreases |es|
  {
    es == [] || (Allowed(v, es[0]) && IsRun(Apply(v, es[0]), es[1..]))
  }

  ghost function End(v: World, es: seq<Event>): World
    requires IsRun(v, es)
    decreases |es|
  {
    if es == [] then v else End(Apply(v, es[0]), es[1..])
  }

  /** At most one worker is alive; while one is, it is the current handle's and the pid file
      names it. */
  ghost predicate Inv(v: World) {
    (forall p, q :: p in v.own && q in v.own ==> p == q)
    && (forall p :: p in v.own ==> Tracked(v, p))
  }

  predicate Tracked(v: World, p: Pid) {
    Matches(v.host, p, v.w.Line()) && Recorded(v.host, v.w.PidPath()) == Some(p) && v.handle == Some(p)
  }

  lemma StartOfLiveWorker(v: World, env: WorkerStart, p: Pid)
    requires Inv(v) && p in v.own
    ensures StartWorker(v.w, v.host, env)
            == (v.host, if env.readFails then Err(Io) else Ok(Started(p, true)))
  {
    assert Tracked(v, p);
    WorkerIsRecognised(v.w);
  }

  /** The start gets past the pid file: there is none, or it names a dead process and can be
      removed. */
  predicate PidFileAllowsSpawn(w: Worker, h: Host, env: WorkerStart) {
    !env.readFails
    && (w.PidPath() !in h.files
        || (Recorded(h, w.PidPath()).Some? && Recorded(h, w.PidPath()).value !in h.procs && !env.removeFails))
  }

  /** The failing branch: the pid of the spawned child cannot be written and the child cannot be
      killed. */
  predicate LeavesOrphan(w: Worker, h: Host, env: WorkerStart) {
    PidFileAllowsSpawn(w, h, env) && env.spawn.Spawned? && !env.write.Written? && env.killFails
  }

  /** A start without a live worker keeps the invariant if and only if it does not take the
      branch that leaves an orphan. */
  lemma StartOfDeadWorker(v: World, env: WorkerStart)
    requires v.own == {} && (env.spawn.Spawned? ==> env.spawn.pid !in v.host.procs)
    ensures Inv(AfterStart(v, env)) <==> !LeavesOrphan(v.w, v.host, env)
  {
    StartOutcomes(v.w, v.host, env);
    OrphanExactly(v.w, v.host, env);
    var v' := AfterStart(v, env);
    var (h, r) := StartWorker(v.w, v.host, env);
    if h.procs != v.host.procs {
      assert h.procs.Keys - v.host.procs.Keys == {env.spawn.pid};
      if r.Err? {
        assert !Tracked(v', env.spawn.pid);
      }
    }
  }

  /** Either the process table stays as it was, or the spawned process is added: then Ok means
      the file names it, and an error that the file names nobody and the kill failed. */
  lemma StartOutcomes(w: Worker, h: Host, env: WorkerStart)
    requires env.spawn.Spawned? ==> env.spawn.pid !in h.procs
    ensures var (g, r) := StartWorker(w, h, env);
            if g.procs == h.procs
            then r.Ok? ==> r.value.reattached
            else env.spawn.Spawned? && g.procs == h.procs[env.spawn.pid := w.Line()]
                 && (if r.Ok?
                     then r.value == Started(env.spawn.pid, false) && Recorded(g, w.PidPath()) == Some(env.spawn.pid)
                     else env.killFails && !env.write.Written? && Recorded(g, w.PidPath()) == None)
                 && (r.Ok? <==> env.write.Written?)
  {
    if env.spawn.Spawned? {
      PidTextRoundTrip(env.spawn.pid);
      EmptyIsNoPid();
    }
  }

  lemma OrphanExactly(w: Worker, h: Host, env: WorkerStart)
    requires env.spawn.Spawned? ==> env.spawn.pid !in h.procs
    ensures LeavesOrphan(w, h, env) <==> StartWorker(w, h, env).0.procs != h.procs && StartWorker(w, h, env).1.Err?
  {
  }

  lemma EndingKeepsInv(v: World, h: Host)
    requires Inv(v)
    requires forall p :: p in v.own && p in h.procs ==>
               h.procs[p] == v.host.procs[p] && Recorded(h, v.w.PidPath()) == Recorded(v.host, v.w.PidPath())
    ensures Inv(AfterEnd(v, h))
  {
    forall p | p in AfterEnd(v, h).own ensures Tracked(AfterEnd(v, h), p) {
      assert Tracked(v, p);
    }
  }

  lemma StepKeepsInv(v: World, e: Event)
    requires Inv(v) && Allowed(v, e)
    ensures Inv(Apply(v, e))
  {
    WorkerIsRecognised(v.w);
    assert forall p :: p in v.own ==> Tracked(v, p);
    match e
    case StartCall(env) =>
      if v.own == {} {
        StartOfDeadWorker(v, env);
      } else {
        var p :| p in v.own;
        StartOfLiveWorker(v, env, p);
        assert Apply(v, e).own == v.own;
        assert Tracked(Apply(v, e), p);
      }
    case StopCall(env) => EndingKeepsInv(v, StopWorker(v.w, v.host, v.handle.value, env).0);
    case DestroyCall(env) => EndingKeepsInv(v, DestroyWorker(v.w, v.host, v.handle.value, env).0);
    case OtherCall(other, call) =>
      CallTouchesOwnFile(other, v.host, call, v.w.PidPath());
      EndingKeepsInv(v, CallHost(other, v.host, call));
    case Exits(pid) => EndingKeepsInv(v, v.host.(procs := v.host.procs - {pid}));
    case Foreign(pid, _) =>
      forall p | p in v.own ensures Tracked(Apply(v, e), p) {
        assert Tracked(v, p);
      }
  }

  /** Main result: from a state without live workers, such as an empty run directory, over any
      sequence of calls on the current handle, calls on functions with other pid files, exits and
      foreign processes. */
  lemma {:induction false} AtMostOneWorker(v: World, es: seq<Event>)
    requires Inv(v) && IsRun(v, es)
    ensures Inv(End(v, es))
    ensures var u := End(v, es);
            u.own == {}
            || exists p :: u.own == {p} && u.handle == Some(p) && Recorded(u.host, u.w.PidPath()) == Some(p)
                           && Matches(u.host, p, u.w.Line())
    decreases |es|
  {
    if es == [] {
      if v.own != {} {
        var p :| p in v.own;
        assert v.own == {p};
      }
    } else {
      StepKeepsInv(v, es[0]);
      AtMostOneWorker(Apply(v, es[0]), es[1..]);
    }
  }

  /** A successful stop or destroy means the process is gone and the pid file absent; nothing
      else in the process table or among the files changed. */
  lemma EndedMeansGone(w: Worker, h: Host, pid: Pid, env: WorkerEnd)
    ensures var (g, r) := StopWorker(w, h, pid, env);
            r.Ok? ==> pid in h.procs && g.procs == h.procs - {pid} && g.files == h.files - {w.PidPath()}
    ensures var (g, r) := DestroyWorker(w, h, pid, env);
            r.Ok? ==> g.procs == h.procs - {pid} && g.files == h.files - {w.PidPath()}
                      && (pid in h.procs ==> ContainsWorker(h.procs[pid], w.marker, w.name))
  {
  }

  /** A pid held by another program is left alone by start and destroy, which both say so and
      change nothing; stop, which does not look, ends the other program. */
  lemma ForeignProcess(w: Worker, h: Host, pid: Pid, start: WorkerStart, end: WorkerEnd)
    requires pid in h.procs && !ContainsWorker(h.procs[pid], w.marker, w.name)
    ensures DestroyWorker(w, h, pid, end) == (h, Err(PidMismatch(pid)))
    ensures !start.readFails && Recorded(h, w.PidPath()) == Some(pid)
            ==> StartWorker(w, h, start) == (h, Err(PidMismatch(pid)))
    ensures end.signal == Sent(true) ==> pid !in StopWorker(w, h, pid, end).0.procs
  {
  }

  /** Destroying through any handle is harmless, whatever the system does, if and only if it is
      the current one or its pid now belongs to another program. */
  lemma DestroyHandleExactly(v: World, p: Pid, pid: Pid)
    requires Inv(v) && p in v.own
    ensures (forall env :: Inv(AfterEnd(v, DestroyWorker(v.w, v.host, pid, env).0)))
            <==> pid == p || (pid in v.host.procs && !ContainsWorker(v.host.procs[pid], v.w.marker, v.w.name))
  {
    assert Tracked(v, p);
    if pid == p || Observe(v.host, v.w, pid).Mismatched? {
      forall env ensures Inv(AfterEnd(v, DestroyWorker(v.w, v.host, pid, env).0)) {
        EndingKeepsInv(v, DestroyWorker(v.w, v.host, pid, env).0);
      }
    } else {
      LosingFileBreaksInv(v, p, DestroyWorker(v.w, v.host, pid, WorkerEnd(Sent(true), false)).0);
    }
  }

  /** Stopping through any handle is harmless if and only if it is the current one or its pid is
      not in use. */
  lemma StopHandleExactly(v: World, p: Pid, pid: Pid)
    requires Inv(v) && p in v.own
    ensures (forall env :: Inv(AfterEnd(v, StopWorker(v.w, v.host, pid, env).0))) <==> pid == p || pid !in v.host.procs
  {
    assert Tracked(v, p);
    if pid == p || pid !in v.host.procs {
      forall env ensures Inv(AfterEnd(v, StopWorker(v.w, v.host, pid, env).0)) {
        EndingKeepsInv(v, StopWorker(v.w, v.host, pid, env).0);
      }
    } else {
      LosingFileBreaksInv(v, p, StopWorker(v.w, v.host, pid, WorkerEnd(Sent(true), false)).0);
    }
  }

  lemma LosingFileBreaksInv(v: World, p: Pid, h: Host)
    requires Inv(v) && p in v.own && p in h.procs && v.w.PidPath() !in h.files
    ensures !Inv(AfterEnd(v, h))
  {
    assert p in AfterEnd(v, h).own && !Tracked(AfterEnd(v, h), p);
  }

  /** While a worker is alive, every call on another function of the run directory is harmless if
      and only if the sanitised names differ.  (`dead` is the pid of an earlier handle whose
      process is gone.) */
  lemma OtherFunctionExactly(v: World, p: Pid, other: Worker, dead: Pid)
    requires Inv(v) && p in v.own && other.runDir == v.w.runDir && dead !in v.host.procs
    ensures (forall call | SpawnsFresh(call, v.host) :: Inv(AfterEnd(v, CallHost(other, v.host, call))))
            <==> Sanitize(other.name) != Sanitize(v.w.name)
  {
    assert Tracked(v, p);
    SamePidFileExactly(other, v.w);
    if other.PidPath() != v.w.PidPath() {
      forall call | SpawnsFresh(call, v.host) ensures Inv(AfterEnd(v, CallHost(other, v.host, call))) {
        CallTouchesOwnFile(other, v.host, call, v.w.PidPath());
        EndingKeepsInv(v, CallHost(other, v.host, call));
      }
    } else {
      var call := CallDestroy(dead, WorkerEnd(Refused, false));
      assert SpawnsFresh(call, v.host);
      LosingFileBreaksInv(v, p, CallHost(other, v.host, call));
    }
  }

  // What an orphan leads to.

  ghost predicate NeverTwo(v: World) {
    forall es | IsRun(v, es) :: |End(v, es).own| <= 1
  }

  /** A start in which nothing fails and spawning gives `pid`. */
  function Flawless(pid: Pid): WorkerStart {
    WorkerStart(false, false, Spawned(pid), Written, false)
  }

  /** An orphan whose pid file is empty, with no handle but its own: no start gets past the
      file, and no call can remove it before the orphan is gone. */
  predicate Blocked(v: World, p: Pid) {
    v.own == {p} && Matches(v.host, p, v.w.Line())
    && v.w.PidPath() in v.host.files && v.host.files[v.w.PidPath()] == "" && v.handle in {None, Some(p)}
  }

  lemma BlockedStep(v: World, p: Pid, e: Event)
    requires Blocked(v, p) && Allowed(v, e)
    ensures Blocked(Apply(v, e), p) || Inv(Apply(v, e))
  {
    EmptyIsNoPid();
    WorkerIsRecognised(v.w);
    var v' := Apply(v, e);
    if e.OtherCall? {
      CallTouchesOwnFile(e.other, v.host, e.call, v.w.PidPath());
    }
    if p in v'.host.procs {
      assert Blocked(v', p);
    } else {
      assert v'.own == {};
    }
  }

  lemma {:induction false} BlockedNeverTwo(v: World, p: Pid, es: seq<Event>)
    requires Blocked(v, p) && IsRun(v, es)
    ensures |End(v, es).own| <= 1
    decreases |es|
  {
    if es != [] {
      BlockedStep(v, p, es[0]);
      if Blocked(Apply(v, es[0]), p) {
        BlockedNeverTwo(Apply(v, es[0]), p, es[1..]);
      } else {
        OnlyOneOwned(Apply(v, es[0]), es[1..]);
      }
    }
  }

  lemma OnlyOneOwned(v: World, es: seq<Event>)
    requires Inv(v) && IsRun(v, es)
    ensures |End(v, es).own| <= 1
  {
    AtMostOneWorker(v, es);
  }

  lemma TwoAfterOrphan(v: World, p: Pid, q: Pid) returns (es: seq<Event>)
    requires v.own == {p} && p in v.host.procs && q !in v.host.procs
    requires v.w.PidPath() !in v.host.files || (v.handle.Some? && v.handle != Some(p))
    ensures IsRun(v, es) && End(v, es).own == {p, q}
    decreases v.w.PidPath() in v.host.files, v.handle.Some? && v.handle.value in v.host.procs
  {
    if v.w.PidPath() !in v.host.files {
      var start := StartCall(Flawless(q));
      var v1 := Apply(v, start);
      assert v1.host.procs.Keys - v.host.procs.Keys == {q};
      es := [start];
      assert es[1..] == [] && End(v1, []) == v1;
    } else if v.handle.value in v.host.procs {
      var exit := Exits(v.handle.value);
      var v1 := Apply(v, exit);
      var rest := TwoAfterOrphan(v1, p, q);
      es := [exit] + rest;
      assert es[1..] == rest;
    } else {
      var destroy := DestroyCall(WorkerEnd(Refused, false));
      var v1 := Apply(v, destroy);
      assert v1.own == {p};
      var rest := TwoAfterOrphan(v1, p, q);
      es := [destroy] + rest;
      assert es[1..] == rest;
    }
  }

  /** Two workers can be alive after a start that left an orphan if and only if nothing stands
      in the way of the next one: the pid file was not even opened, or the handle of an earlier
      worker can still remove it.  Otherwise the empty pid file blocks every start.  (`q` is a
      pid the system can still hand out.) */
  lemma FailedStartSafeExactly(v: World, env: WorkerStart, q: Pid)
    requires v.own == {} && (env.spawn.Spawned? ==> env.spawn.pid !in v.host.procs)
    requires q !in v.host.procs && env.spawn != Spawned(q)
    ensures NeverTwo(AfterStart(v, env))
            <==> !(LeavesOrphan(v.w, v.host, env)
                   && (env.write.Unopened? || (v.handle.Some? && v.handle != Some(env.spawn.pid))))
  {
    var v1 := AfterStart(v, env);
    StartOfDeadWorker(v, env);
    if !LeavesOrphan(v.w, v.host, env) {
      forall es | IsRun(v1, es) ensures |End(v1, es).own| <= 1 {
        OnlyOneOwned(v1, es);
      }
    } else {
      var p := env.spawn.pid;
      OrphanState(v, env);
      if env.write.Unopened? || (v.handle.Some? && v.handle != Some(p)) {
        var es := TwoAfterOrphan(v1, p, q);
        assert |End(v1, es).own| == 2;
      } else {
        forall es | IsRun(v1, es) ensures |End(v1, es).own| <= 1 {
          BlockedNeverTwo(v1, p, es);
        }
      }
    }
  }

  lemma OrphanState(v: World, env: WorkerStart)
    requires v.own == {} && LeavesOrphan(v.w, v.host, env) && env.spawn.pid !in v.host.procs
    ensures var v1 := AfterStart(v, env);
            v1.own == {env.spawn.pid} && v1.handle == v.handle && v1.w == v.w
            && v1.host.procs == v.host.procs[env.spawn.pid := v.w.Line()]
            && (if env.write.Unopened? then v.w.PidPath() !in v1.host.files
                else v.w.PidPath() in v1.host.files && v1.host.files[v.w.PidPath()] == "")
  {
    StartOutcomes(v.w, v.host, env);
    OrphanExactly(v.w, v.host, env);
    assert AfterStart(v, env).host.procs.Keys - v.host.procs.Keys == {env.spawn.pid};
  }
}
