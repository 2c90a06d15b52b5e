/** Starting or reattaching an unwrapped system command (`becky-fx-system-command`).

    Everything the operating system decides is a parameter: `StartEnv` says which file
    operations fail, in what order the process table is visited, and what spawning does. */
module SystemCommand {
  import opened Wrappers
  import opened Text
  import opened States
  import Paths

  datatype CommandError = IO | PidIsNone

  /** A handle on the child this call spawned, or on a process known by pid only. */
  datatype Handle = Child(pid: Pid) | Attached(pid: Pid)

  datatype SpawnOutcome = SpawnFails | ExitsAtOnce | Spawns(pid: Pid)

  /** A failing write stops before the file is opened or right after it was truncated. */
  datatype WriteOutcome = Written | Unopened | Truncated

  datatype StartEnv = StartEnv(
    readFails: bool,
    removeFails: bool,
    visit: seq<Pid>,
    stdioFails: bool,
    spawn: SpawnOutcome,
    write: WriteOutcome)

  /** The process table is visited completely, and a spawned pid is not live. */
  ghost predicate ValidEnv(env: StartEnv, h: Host) {
    (forall p :: p in env.visit <==> p in h.procs)
    && (env.spawn.Spawns? ==> env.spawn.pid !in h.procs)
  }

  /** The fields of `FxSystemCommand` that starting reads and writes. */
  datatype Command = Command(command: string, args: seq<string>, state: ExecState, desired: DesiredState)
  {
    function Line(): seq<string> { [command] + args }
  }

  /** `command_equal`: the executable, the number of arguments and each argument agree. */
  predicate CommandEqual(cmd: string, args: seq<string>, line: seq<string>) {
    line != [] && cmd == line[0] && |args| == |line| - 1
    && forall i | 0 <= i < |args| :: args[i] == line[i + 1]
  }

  lemma CommandEqualIsEquality(cmd: string, args: seq<string>, line: seq<string>)
    ensures CommandEqual(cmd, args, line) <==> line == [cmd] + args
  {
    if CommandEqual(cmd, args, line) {
      assert forall i | 0 <= i < |line| :: line[i] == ([cmd] + args)[i];
    }
  }

  predicate Matches(h: Host, pid: Pid, line: seq<string>) {
    pid in h.procs && h.procs[pid] == line
  }

  // Pid files.

  function PidStem(id: string): string
    requires forall i | 0 <= i < |id| :: id[i] as int < 256
  {
    "fx-" + HexBytes(id)
  }

  function PidFileName(id: Bytes): string { PidStem(id) + ".pid" }

  function PidFilePath(directory: string, id: Bytes): string {
    Paths.Push(directory, PidFileName(id))
  }

  /** `pid_file_stem`: the bytes of the displayed id in hexadecimal. */
  method PidFileStem(id: Bytes) returns (stem: string)
    ensures stem == PidStem(id)
    ensures |stem| >= 3 && DecodeHexBytes(stem[3..]) == Some(id)
  {
    stem := "fx-";
    for i := 0 to |id|
      invariant stem == "fx-" + HexBytes(id[..i])
    {
      var b := id[i] as int;
      HexBytesSnoc(id[..i], id[i]);
      assert id[..i + 1] == id[..i] + [id[i]];
      stem := stem + [HexChar(b / 16), HexChar(b % 16)];
    }
    assert id[..|id|] == id;
    HexBytesRoundTrip(id);
  }

  lemma {:induction false} HexBytesSnoc(s: Bytes, c: char)
    requires c as int < 256
    ensures HexBytes(s + [c]) == HexBytes(s) + [HexChar(c as int / 16), HexChar(c as int % 16)]
  {
    var t := s + [c];
    if s == "" {
      assert t[1..] == "";
    } else {
      HexBytesSnoc(s[1..], c);
      assert t[1..] == s[1..] + [c];
    }
  }

  lemma {:induction false} HexBytesPlain(s: Bytes)
    ensures '/' !in HexBytes(s)
  {
    if s != "" {
      HexBytesPlain(s[1..]);
    }
  }

  /** The pid file is named after the id, in hexadecimal. */
  lemma PidFileNameShape(id: Bytes)
    ensures var n := PidFileName(id);
            |n| >= 7 && n[..3] == "fx-" && n[|n| - 4..] == ".pid" && DecodeHexBytes(n[3..|n| - 4]) == Some(id)
  {
    var n := PidFileName(id);
    assert n[3..|n| - 4] == HexBytes(id);
    HexBytesRoundTrip(id);
  }

  /** Different ids never share a pid file, in any directory. */
  lemma PidFilePathInjective(directory: string, a: Bytes, b: Bytes)
    ensures PidFilePath(directory, a) == PidFilePath(directory, b) <==> a == b
  {
    if PidFilePath(directory, a) == PidFilePath(directory, b) {
      HexBytesPlain(a);
      HexBytesPlain(b);
      var na, nb := PidFileName(a), PidFileName(b);
      Paths.PushInjective(directory, na, nb);
      assert na[3..|na| - 4] == HexBytes(a) && nb[3..|nb| - 4] == HexBytes(b);
      HexBytesRoundTrip(a);
      HexBytesRoundTrip(b);
    }
  }

  /** The pid a pid file names, if it can be read as one. */
  function Recorded(h: Host, path: string): Option<Pid> {
    if path in h.files then ParsePid(h.files[path]) else None
  }

  function WriteResult(h: Host, path: string, pid: Pid, w: WriteOutcome): Host {
    match w
    case Written => h.(files := h.files[path := Decimal(pid) + "\n"])
    case Unopened => h
    case Truncated => h.(files := h.files[path := ""])
  }

  lemma WriteRecords(h: Host, path: string, pid: Pid, w: WriteOutcome)
    ensures Recorded(WriteResult(h, path, pid, w), path)
            == match w { case Written => Some(pid) case Unopened => Recorded(h, path) case Truncated => None }
  {
    PidTextRoundTrip(pid);
    EmptyIsNoPid();
  }

  /** The first process in visiting order with the given command line. */
  function FirstMatch(visit: seq<Pid>, h: Host, line: seq<string>): Option<Pid> {
    if visit == [] then None
    else if Matches(h, visit[0], line) then Some(visit[0])
    else FirstMatch(visit[1..], h, line)
  }

  lemma {:induction false} FirstMatchFinds(visit: seq<Pid>, h: Host, line: seq<string>)
    ensures match FirstMatch(visit, h, line)
            case Some(p) => Matches(h, p, line) && exists k: nat :: FirstAt(visit, h, line, p, k)
            case None => forall p | p in visit :: !Matches(h, p, line)
  {
    if visit != [] {
      FirstMatchFinds(visit[1..], h, line);
      if Matches(h, visit[0], line) {
        assert FirstAt(visit, h, line, visit[0], 0);
      } else if FirstMatch(visit, h, line).Some? {
        var p := FirstMatch(visit, h, line).value;
        var k: nat :| FirstAt(visit[1..], h, line, p, k);
        assert forall i | 0 <= i < |visit[1..]| :: visit[1..][i] == visit[i + 1];
        assert FirstAt(visit, h, line, p, k + 1);
      }
    }
  }

  /** `p` is visited at `k`, and nothing visited before it matches. */
  predicate FirstAt(visit: seq<Pid>, h: Host, line: seq<string>, p: Pid, k: nat) {
    k < |visit| && visit[k] == p && forall i | 0 <= i < k :: !Matches(h, visit[i], line)
  }

  // What one start does, as a function of the state before it.

  datatype Outcome = Outcome(cmd: Command, host: Host, result: Result<Handle, CommandError>)

  /** `running_pid_from_pid_file`: the live matching pid of the file; a file naming any other
      pid is removed. */
  function ReattachFromFile(h: Host, path: string, line: seq<string>, env: StartEnv)
    : (Host, Result<Option<Pid>, CommandError>)
  {
    if env.readFails then (h, Err(IO))
    else
      match Recorded(h, path)
      case None => (h, Ok(None))
      case Some(pid) =>
        if Matches(h, pid, line) then (h, Ok(Some(pid)))
        else if env.removeFails then (h, Err(IO))
        else (h.(files := h.files - {path}), Ok(None))
  }

  /** The pid that the recorded state, or without a pid directory the process table, gives. */
  function KnownPid(c: Command, h: Host, hasFile: bool, visit: seq<Pid>): Option<Pid> {
    if c.state.Running? then
      if Matches(h, c.state.pid, c.Line()) then Some(c.state.pid) else None
    else if hasFile then None
    else FirstMatch(visit, h, c.Line())
  }

  function Spawn(c: Command, h: Host, path: Option<string>, env: StartEnv): Outcome {
    if env.stdioFails then Outcome(c, h, Err(IO))
    else
      match env.spawn
      case SpawnFails => Outcome(c, h, Err(IO))
      case ExitsAtOnce => Outcome(c.(state := Unknown), h, Err(PidIsNone))
      case Spawns(pid) =>
        var c' := c.(state := Running(pid));
        var h' := h.(procs := h.procs[pid := c.Line()]);
        if path.None? then Outcome(c', h', Ok(Child(pid)))
        else
          Outcome(c', WriteResult(h', path.value, pid, env.write),
                  if env.write.Written? then Ok(Child(pid)) else Err(IO))
  }

  function Start(c0: Command, h0: Host, path: Option<string>, env: StartEnv): Outcome {
    var c := c0.(desired := WantRunning);
    var (h, reattached) :=
      if path.Some? then ReattachFromFile(h0, path.value, c.Line(), env) else (h0, Ok(None));
    match reattached
    case Err(e) => Outcome(c, h, Err(e))
    case Ok(Some(pid)) => Outcome(c.(state := Running(pid)), h, Ok(Attached(pid)))
    case Ok(None) =>
      match KnownPid(c, h, path.Some?, env.visit)
      case None => Spawn(c, h, path, env)
      case Some(pid) =>
        var c' := c.(state := Running(pid));
        if path.None? then Outcome(c', h, Ok(Attached(pid)))
        else
          Outcome(c', WriteResult(h, path.value, pid, env.write),
                  if env.write.Written? then Ok(Attached(pid)) else Err(IO))
  }

  // When a start succeeds, and with what.

  /** A live process runs the line under the pid the file names. */
  predicate FileNames(h: Host, path: string, line: seq<string>) {
    Recorded(h, path).Some? && Recorded(h, path).value in h.procs && h.procs[Recorded(h, path).value] == line
  }

  /** The recorded state names a live process that runs the line. */
  predicate StateNames(c: Command, h: Host) {
    c.state.Running? && c.state.pid in h.procs && h.procs[c.state.pid] == c.Line()
  }

  /** The file names nobody who runs the line and does not stand in the way. */
  predicate FileGivesNothing(h: Host, path: string, line: seq<string>, env: StartEnv) {
    !env.readFails && !FileNames(h, path, line) && (Recorded(h, path).Some? ==> !env.removeFails)
  }

  predicate SpawnsChild(env: StartEnv) { !env.stdioFails && env.spawn.Spawns? }

  /** With a pid directory: the process the file names, or else the one the recorded state names, or
      else a new child; the last two only if the pid can be written. */
  lemma StartWithFileExactly(c: Command, h: Host, path: string, env: StartEnv)
    ensures var o := Start(c, h, Some(path), env);
            (o.result.Ok? <==>
               !env.readFails
               && (FileNames(h, path, c.Line())
                   || (FileGivesNothing(h, path, c.Line(), env) && (StateNames(c, h) || SpawnsChild(env))
                       && env.write.Written?)))
            && (o.result == Err(PidIsNone) <==>
                  FileGivesNothing(h, path, c.Line(), env) && !StateNames(c, h) && !env.stdioFails
                  && env.spawn.ExitsAtOnce?)
            && (o.result.Ok? ==>
                  o.result.value
                  == if FileNames(h, path, c.Line()) then Attached(Recorded(h, path).value)
                     else if StateNames(c, h) then Attached(c.state.pid) else Child(env.spawn.pid))
  {
  }

  /** Without one: the process the recorded state names; if no running process is recorded, the first
      one of the process table; or else a new child. */
  lemma StartWithoutFileExactly(c: Command, h: Host, env: StartEnv)
    ensures var o := Start(c, h, None, env);
            var found := !c.state.Running? && exists p :: p in env.visit && p in h.procs && h.procs[p] == c.Line();
            (o.result.Ok? <==> StateNames(c, h) || found || SpawnsChild(env))
            && (o.result == Err(PidIsNone) <==>
                  !StateNames(c, h) && !found && !env.stdioFails && env.spawn.ExitsAtOnce?)
            && (o.result.Ok? ==>
                  if StateNames(c, h) then o.result.value == Attached(c.state.pid)
                  else if found then
                    o.result.value.Attached?
                    && exists k: nat :: FirstAt(env.visit, h, c.Line(), o.result.value.pid, k)
                  else o.result.value == Child(env.spawn.pid))
  {
    FirstMatchFinds(env.visit, h, c.Line());
  }

  /** What a start records: that running is wanted, and the pid it returns or could not write. */
  lemma StartRecordsState(c: Command, h: Host, path: Option<string>, env: StartEnv)
    ensures var o := Start(c, h, path, env);
            o.cmd.command == c.command && o.cmd.args == c.args && o.cmd.desired == WantRunning
            && (o.result.Ok? ==> o.cmd.state == Running(o.result.value.pid))
            && (o.result == Err(PidIsNone) ==> o.cmd.state == Unknown)
            && (o.result == Err(IO) ==>
                  o.cmd.state == c.state || (path.Some? && SpawnsChild(env) && o.cmd.state == Running(env.spawn.pid)))
  {
  }

  // Destroying.

  datatype DestroyError = ProcessNotRunning | SignalFailedToSend | WaitFailed | ProcessDidNotExit

  /** `sent`: the kill signal was delivered.  `waitFails`: waiting for the child failed after that.
      `gone`: what the observations after the signal found, for a process known by pid only. */
  datatype DestroyEnv = DestroyEnv(sent: bool, waitFails: bool, gone: bool)

  /** A killed child is reaped; of another process the exit is only observed. */
  predicate Ends(handle: Handle, h: Host, env: DestroyEnv) {
    handle.pid in h.procs && env.sent && (handle.Child? || env.gone)
  }

  function DestroyProcess(handle: Handle, h: Host, env: DestroyEnv): (Host, Result<(), DestroyError>) {
    if handle.pid !in h.procs then (h, Err(ProcessNotRunning))
    else if !env.sent then (h, Err(SignalFailedToSend))
    else
      match handle
      case Child(pid) => (h.(procs := h.procs - {pid}), if env.waitFails then Err(WaitFailed) else Ok(()))
      case Attached(pid) =>
        if env.gone then (h.(procs := h.procs - {pid}), Ok(())) else (h, Err(ProcessDidNotExit))
  }

  /** Destroy succeeds if and only if the process was there, the signal was delivered and it went;
      each error says what was missing, and only the wait's comes after the process is gone.  No
      other process and no file is touched. */
  lemma DestroyedMeansGone(handle: Handle, h: Host, env: DestroyEnv)
    ensures var (g, r) := DestroyProcess(handle, h, env);
            g.files == h.files
            && g.procs == (if Ends(handle, h, env) then h.procs - {handle.pid} else h.procs)
            && (r.Ok? <==> Ends(handle, h, env) && (handle.Child? ==> !env.waitFails))
            && (r == Err(ProcessNotRunning) <==> handle.pid !in h.procs)
            && (r == Err(SignalFailedToSend) <==> handle.pid in h.procs && !env.sent)
            && (r == Err(WaitFailed) <==> Ends(handle, h, env) && handle.Child? && env.waitFails)
            && (r == Err(ProcessDidNotExit) <==>
                  handle.pid in h.procs && env.sent && handle.Attached? && !env.gone)
  {
  }

  // The provider's objects.

  class Machine {
    var procs: map<Pid, seq<string>>
    var files: map<string, string>

    constructor (h: Host)
      ensures View() == h
    {
      procs := h.procs;
      files := h.files;
    }

    ghost function View(): Host
      reads this
    {
      Host(procs, files)
    }

    /** `read_pid_file`: an absent or unreadable number is no pid. */
    method ReadPidFile(path: string, fails: bool) returns (r: Result<Option<Pid>, CommandError>)
      ensures r == if fails then Err(IO) else Ok(Recorded(View(), path))
    {
      if fails {
        return Err(IO);
      }
      if path !in files {
        return Ok(None);
      }
      r := Ok(ParsePid(files[path]));
    }

    method WritePidFile(path: string, pid: Pid, w: WriteOutcome) returns (r: Result<(), CommandError>)
      modifies this`files
      ensures View() == WriteResult(old(View()), path, pid, w)
      ensures r == if w.Written? then Ok(()) else Err(IO)
    {
      match w {
        case Written =>
          files := files[path := Decimal(pid) + "\n"];
          r := Ok(());
        case Unopened =>
          r := Err(IO);
        case Truncated =>
          files := files[path := ""];
          r := Err(IO);
      }
    }

    method RemovePidFile(path: string, fails: bool) returns (r: Result<(), CommandError>)
      modifies this`files
      ensures files == if fails then old(files) else old(files) - {path}
      ensures r == if fails then Err(IO) else Ok(())
    {
      if fails {
        return Err(IO);
      }
      files := files - {path};
      r := Ok(());
    }

    method PidMatchesCommand(pid: Pid, cmd: string, args: seq<string>) returns (r: bool)
      ensures r == Matches(View(), pid, [cmd] + args)
    {
      if pid in procs {
        CommandEqualIsEquality(cmd, args, procs[pid]);
        r := CommandEqual(cmd, args, procs[pid]);
      } else {
        r := false;
      }
    }

    method RunningPidFromPidFile(path: string, cmd: string, args: seq<string>, env: StartEnv)
      returns (r: Result<Option<Pid>, CommandError>)
      modifies this`files
      ensures (View(), r) == ReattachFromFile(old(View()), path, [cmd] + args, env)
    {
      var read := ReadPidFile(path, env.readFails);
      if read.Err? || read.value.None? {
        return read;
      }
      var pid := read.value.value;
      var matches := PidMatchesCommand(pid, cmd, args);
      if matches {
        return Ok(Some(pid));
      }
      var removed := RemovePidFile(path, env.removeFails);
      if removed.Err? {
        return Err(removed.error);
      }
      r := Ok(None);
    }

    /** Whether the pid is gone after at most a hundred waits between observations. */
    method WaitForPidExit(pid: Pid, gone: seq<bool>) returns (exited: bool)
      requires |gone| > 100
      ensures exited <==> exists i | 0 <= i <= 100 :: gone[i]
    {
      for i := 0 to 100
        invariant forall j | 0 <= j < i :: !gone[j]
      {
        if gone[i] {
          return true;
        }
      }
      exited := gone[100];
    }
  }

  class FxSystemProcessRunning {
    const handle: Handle

    constructor (handle: Handle)
      ensures this.handle == handle
    {
      this.handle := handle;
    }

    method Destroy(m: Machine, env: DestroyEnv) returns (r: Result<(), DestroyError>)
      modifies m`procs
      ensures (m.View(), r) == DestroyProcess(handle, old(m.View()), env)
    {
      var pid := handle.pid;
      if pid !in m.procs {
        return Err(ProcessNotRunning);
      }
      if !env.sent {
        return Err(SignalFailedToSend);
      }
      match handle {
        case Child(_) =>
          m.procs := m.procs - {pid};
          r := if env.waitFails then Err(WaitFailed) else Ok(());
        case Attached(_) =>
          if !env.gone {
            return Err(ProcessDidNotExit);
          }
          m.procs := m.procs - {pid};
          r := Ok(());
      }
    }
  }

  class FxSystemCommand {
    const command: string
    const args: seq<string>
    const pidDirectory: Option<string>
    var state: ExecState
    var desired: DesiredState

    constructor (command: string, args: seq<string>, pidDirectory: Option<string>, desired: DesiredState)
      ensures this.command == command && this.args == args && this.pidDirectory == pidDirectory
      ensures View() == Command(command, args, NotStarted, desired)
    {
      this.command, this.args, this.pidDirectory := command, args, pidDirectory;
      this.state, this.desired := NotStarted, desired;
    }

    constructor Clone(c: Command, pidDirectory: Option<string>)
      ensures this.pidDirectory == pidDirectory && View() == c
    {
      this.command, this.args, this.pidDirectory := c.command, c.args, pidDirectory;
      this.state, this.desired := c.state, c.desired;
    }

    function View(): Command
      reads this
    {
      Command(command, args, state, desired)
    }

    function Path(id: Bytes): Option<string> {
      match pidDirectory
      case None => None
      case Some(d) => Some(PidFilePath(d, id))
    }

    /** `current_system_state`, as the running pid it reports. */
    method CurrentRunningPid(m: Machine, visit: seq<Pid>) returns (r: Option<Pid>)
      ensures r == KnownPid(View(), m.View(), false, visit)
    {
      if state.Running? {
        var matches := m.PidMatchesCommand(state.pid, command, args);
        return if matches then Some(state.pid) else None;
      }
      var i := 0;
      while i < |visit|
        invariant i <= |visit|
        invariant FirstMatch(visit, m.View(), [command] + args) == FirstMatch(visit[i..], m.View(), [command] + args)
      {
        var matches := m.PidMatchesCommand(visit[i], command, args);
        if matches {
          return Some(visit[i]);
        }
        i := i + 1;
      }
      r := None;
    }

    method FxStart(m: Machine, id: Bytes, env: StartEnv) returns (r: Result<Handle, CommandError>)
      modifies this`state, this`desired, m
      ensures Outcome(View(), m.View(), r) == Start(old(View()), old(m.View()), Path(id), env)
    {
      desired := WantRunning;
      var path := Path(id);

      if path.Some? {
        var reattached := m.RunningPidFromPidFile(path.value, command, args, env);
        if reattached.Err? {
          return Err(reattached.error);
        }
        if reattached.value.Some? {
          state := Running(reattached.value.value);
          return Ok(Attached(reattached.value.value));
        }
      }

      var current: Option<Pid> := None;
      if path.Some? {
        if state.Running? {
          var matches := m.PidMatchesCommand(state.pid, command, args);
          current := if matches then Some(state.pid) else None;
        }
      } else {
        current := CurrentRunningPid(m, env.visit);
      }

      if current.Some? {
        state := Running(current.value);
        if path.Some? {
          var written := m.WritePidFile(path.value, current.value, env.write);
          if written.Err? {
            return Err(written.error);
          }
        }
        return Ok(Attached(current.value));
      }

      if env.stdioFails {
        return Err(IO);
      }
      match env.spawn {
        case SpawnFails =>
          return Err(IO);
        case ExitsAtOnce =>
          state := Unknown;
          return Err(PidIsNone);
        case Spawns(pid) =>
          m.procs := m.procs[pid := [command] + args];
          state := Running(pid);
          if path.Some? {
            var written := m.WritePidFile(path.value, pid, env.write);
            if written.Err? {
              return Err(written.error);
            }
          }
          return Ok(Child(pid));
      }
    }
  }
}
