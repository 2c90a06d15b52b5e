/** A fleet of commands sharing one pid directory (`examples/bare/src/engine.rs`). */
module Fleet {
  import opened Wrappers
  import opened Text
  import opened States
  import opened SystemCommand

  /** `format!("{fx_id}-{id}")`, for the displayed engine id `name`. */
  function InstanceId(name: Bytes, id: nat): Bytes {
    DecimalIsBytes(id);
    name + "-" + Decimal(id)
  }

  lemma {:induction false} DecimalIsBytes(n: nat)
    ensures forall i | 0 <= i < |Decimal(n)| :: Decimal(n)[i] as int < 256
  {
    if n >= 10 {
      DecimalIsBytes(n / 10);
    }
  }

  /** Where a fleet's pid files are: its directory and the displayed engine id. */
  datatype Place = Place(directory: string, name: Bytes)

  function PathOf(place: Place, id: nat): string {
    PidFilePath(place.directory, InstanceId(place.name, id))
  }

  /** Copies never share a pid file: hexadecimal, concatenation and decimal are injective. */
  lemma PathsDiffer(place: Place, i: nat, j: nat)
    ensures PathOf(place, i) == PathOf(place, j) <==> i == j
  {
    var a, b := InstanceId(place.name, i), InstanceId(place.name, j);
    PidFilePathInjective(place.directory, a, b);
    if a == b {
      var k := |place.name| + 1;
      assert a[k..] == Decimal(i) && b[k..] == Decimal(j);
      DecimalInjective(i, j);
    }
  }

  datatype FleetState = FleetState(cmds: map<nat, Command>, tasks: map<nat, Handle>, host: Host)

  function StartCopy(f: FleetState, place: Place, id: nat, env: StartEnv): Outcome
    requires id in f.cmds
  {
    Start(f.cmds[id], f.host, Some(PathOf(place, id)), env)
  }

  /** A copy that started is recorded with its new state and handle; one that failed keeps its
      old specification. */
  function StartOne(f: FleetState, place: Place, id: nat, env: StartEnv): FleetState
    requires id in f.cmds
  {
    var o := StartCopy(f, place, id, env);
    match o.result
    case Ok(handle) => FleetState(f.cmds[id := o.cmd], f.tasks[id := handle], o.host)
    case Err(_) => f.(host := o.host)
  }

  /** Starting copies one by one; `envs[k]` is what the start of `order[k]` meets. */
  function StartAll(f: FleetState, place: Place, order: seq<nat>, envs: seq<StartEnv>): FleetState
    requires |order| == |envs| && forall id | id in order :: id in f.cmds
    decreases |order|
  {
    if order == [] then f
    else StartAll(StartOne(f, place, order[0], envs[0]), place, order[1..], envs[1..])
  }

  /** A pid is claimed by a copy if its pid file names it or its recorded state does. */
  predicate Claims(f: FleetState, place: Place, id: nat, pid: Pid) {
    id in f.cmds && (Recorded(f.host, PathOf(place, id)) == Some(pid) || f.cmds[id].state == Running(pid))
  }

  ghost predicate ClaimsDistinct(f: FleetState, place: Place) {
    forall i, j, p :: Claims(f, place, i, p) && Claims(f, place, j, p) ==> i == j
  }

  /** A spawned pid is neither live nor claimed. */
  ghost predicate FreshEnv(f: FleetState, place: Place, env: StartEnv) {
    ValidEnv(env, f.host) && (env.spawn.Spawns? ==> forall id :: !Claims(f, place, id, env.spawn.pid))
  }

  ghost predicate FreshEnvs(f: FleetState, place: Place, order: seq<nat>, envs: seq<StartEnv>)
    requires |order| == |envs| && forall id | id in order :: id in f.cmds
    decreases |order|
  {
    order == []
    || (FreshEnv(f, place, envs[0])
        && FreshEnvs(StartOne(f, place, order[0], envs[0]), place, order[1..], envs[1..]))
  }

  predicate NoRepeats(order: seq<nat>) {
    forall i, j | 0 <= i < j < |order| :: order[i] != order[j]
  }

  /** Every task holds the live pid its pid file names. */
  ghost predicate TasksRecorded(f: FleetState, place: Place) {
    forall id :: id in f.tasks ==>
      id in f.cmds && Recorded(f.host, PathOf(place, id)) == Some(f.tasks[id].pid)
      && Matches(f.host, f.tasks[id].pid, f.cmds[id].Line())
  }

  lemma ReattachTouchesOwnFile(h: Host, path: string, line: seq<string>, env: StartEnv)
    ensures var (g, r) := ReattachFromFile(h, path, line, env);
            g.procs == h.procs
            && (forall p | p != path :: Recorded(g, p) == Recorded(h, p))
            && (match r
                case Err(_) => g == h
                case Ok(None) => Recorded(g, path) == None
                case Ok(Some(pid)) => g == h && Recorded(h, path) == Some(pid) && Matches(h, pid, line))
  {
  }

  lemma WriteTouchesOwnFile(h: Host, path: string, pid: Pid, w: WriteOutcome)
    ensures var g := WriteResult(h, path, pid, w);
            g.procs == h.procs
            && (forall p | p != path :: Recorded(g, p) == Recorded(h, p))
            && (w.Written? ==> Recorded(g, path) == Some(pid))
            && Recorded(g, path) in {None, Some(pid), Recorded(h, path)}
  {
    WriteRecords(h, path, pid, w);
  }

  /** The pid a start of a command with pid file `path` may return. */
  predicate Candidate(c: Command, h: Host, path: string, env: StartEnv, pid: Pid) {
    Recorded(h, path) == Some(pid) || c.state == Running(pid) || env.spawn == Spawns(pid)
  }

  /** One start touches its own pid file only, keeps every process, and on success leaves the
      returned pid live and in the file. */
  lemma StartTouchesOwnFile(c: Command, h: Host, path: string, env: StartEnv)
    requires env.spawn.Spawns? ==> env.spawn.pid !in h.procs
    ensures var o := Start(c, h, Some(path), env);
            (forall p | p != path :: Recorded(o.host, p) == Recorded(h, p))
            && (forall p | p in h.procs :: p in o.host.procs && o.host.procs[p] == h.procs[p])
            && o.cmd.Line() == c.Line()
            && (o.result.Ok? ==>
                  Recorded(o.host, path) == Some(o.result.value.pid)
                  && o.cmd.state == Running(o.result.value.pid)
                  && Matches(o.host, o.result.value.pid, c.Line())
                  && Candidate(c, h, path, env, o.result.value.pid))
            && (o.result.Err? && Recorded(o.host, path).Some? ==>
                  Candidate(c, h, path, env, Recorded(o.host, path).value))
  {
    var (before, reattached) := ReattachFromFile(h, path, c.Line(), env);
    ReattachTouchesOwnFile(h, path, c.Line(), env);
    if reattached == Ok(None) {
      if KnownPid(c, before, true, env.visit).Some? {
        WriteTouchesOwnFile(before, path, c.state.pid, env.write);
      } else if env.spawn.Spawns? && !env.stdioFails {
        var spawned := before.(procs := before.procs[env.spawn.pid := c.Line()]);
        assert forall p :: Recorded(spawned, p) == Recorded(before, p);
        WriteTouchesOwnFile(spawned, path, env.spawn.pid, env.write);
      }
    }
  }

  lemma StartOneKeeps(f: FleetState, place: Place, id: nat, env: StartEnv)
    requires id in f.cmds && FreshEnv(f, place, env)
    requires ClaimsDistinct(f, place) && TasksRecorded(f, place) && id !in f.tasks
    ensures ClaimsDistinct(StartOne(f, place, id, env), place)
    ensures TasksRecorded(StartOne(f, place, id, env), place)
  {
    var g := StartOne(f, place, id, env);
    StartTouchesOwnFile(f.cmds[id], f.host, PathOf(place, id), env);
    forall j | j != id ensures PathOf(place, j) != PathOf(place, id) {
      PathsDiffer(place, id, j);
    }
    forall j, p | Claims(g, place, j, p)
      ensures Claims(f, place, j, p) || (j == id && env.spawn.Spawns? && p == env.spawn.pid)
    {
    }
  }

  /** Every started copy gets its own pid: it is live, runs the copy's command, and is the pid
      its own file names. */
  lemma {:induction false} StartedCopiesAreDistinct(f: FleetState, place: Place, order: seq<nat>, envs: seq<StartEnv>)
    requires |order| == |envs| && NoRepeats(order) && forall id | id in order :: id in f.cmds && id !in f.tasks
    requires ClaimsDistinct(f, place) && TasksRecorded(f, place) && FreshEnvs(f, place, order, envs)
    ensures var g := StartAll(f, place, order, envs);
            TasksRecorded(g, place) && ClaimsDistinct(g, place)
            && forall i, j :: i in g.tasks && j in g.tasks && g.tasks[i].pid == g.tasks[j].pid ==> i == j
    decreases |order|
  {
    if order == [] {
      forall i, j | i in f.tasks && j in f.tasks && f.tasks[i].pid == f.tasks[j].pid ensures i == j {
        assert Claims(f, place, i, f.tasks[i].pid) && Claims(f, place, j, f.tasks[j].pid);
      }
    } else {
      StartOneKeeps(f, place, order[0], envs[0]);
      StartedCopiesAreDistinct(StartOne(f, place, order[0], envs[0]), place, order[1..], envs[1..]);
    }
  }

  /** The starts of the other copies neither move a copy's pid file nor end its process. */
  lemma {:induction false} OthersKeepCopy(f: FleetState, place: Place, order: seq<nat>, envs: seq<StartEnv>, id: nat)
    requires |order| == |envs| && (forall k | k in order :: k in f.cmds)
    requires id !in order && FreshEnvs(f, place, order, envs)
    ensures var g := StartAll(f, place, order, envs);
            Recorded(g.host, PathOf(place, id)) == Recorded(f.host, PathOf(place, id))
            && (id in g.tasks <==> id in f.tasks) && (id in f.tasks ==> g.tasks[id] == f.tasks[id])
            && (id in g.cmds <==> id in f.cmds) && (id in f.cmds ==> g.cmds[id] == f.cmds[id])
            && (forall p | p in f.host.procs :: p in g.host.procs && g.host.procs[p] == f.host.procs[p])
    decreases |order|
  {
    if order != [] {
      PathsDiffer(place, id, order[0]);
      StartTouchesOwnFile(f.cmds[order[0]], f.host, PathOf(place, order[0]), envs[0]);
      OthersKeepCopy(StartOne(f, place, order[0], envs[0]), place, order[1..], envs[1..], id);
    }
  }

  /** The copy at `k` has a live process that its pid file names, and can read that file. */
  ghost predicate CanReattach(f: FleetState, place: Place, order: seq<nat>, envs: seq<StartEnv>, k: nat, pid: Pid) {
    |order| == |envs| && NoRepeats(order) && k < |order|
    && (forall id | id in order :: id in f.cmds) && FreshEnvs(f, place, order, envs)
    && Recorded(f.host, PathOf(place, order[k])) == Some(pid)
    && Matches(f.host, pid, f.cmds[order[k]].Line())
    && !envs[k].readFails
  }

  lemma LaterCanReattach(f: FleetState, place: Place, order: seq<nat>, envs: seq<StartEnv>, k: nat, pid: Pid)
    requires CanReattach(f, place, order, envs, k, pid) && k > 0
    ensures CanReattach(StartOne(f, place, order[0], envs[0]), place, order[1..], envs[1..], k - 1, pid)
  {
    var g := StartOne(f, place, order[0], envs[0]);
    StartLeavesOther(f, place, order[0], envs[0], order[k]);
    assert order[1..][k - 1] == order[k] && envs[1..][k - 1] == envs[k];
    assert FreshEnvs(g, place, order[1..], envs[1..]);
  }

  /** Starting again gives a copy the pid its file names as long as that process is alive: in
      the same manager or, since recorded states play no part, in a new one. */
  lemma {:induction false} StartAgainReturnsSamePid(f: FleetState, place: Place, order: seq<nat>, envs: seq<StartEnv>,
                                                    k: nat, pid: Pid)
    requires CanReattach(f, place, order, envs, k, pid)
    ensures var g := StartAll(f, place, order, envs);
            order[k] in g.tasks && g.tasks[order[k]] == Attached(pid)
    decreases |order|
  {
    if k == 0 {
      FirstReattaches(f, place, order, envs, pid);
    } else {
      LaterCanReattach(f, place, order, envs, k, pid);
      StartAgainReturnsSamePid(StartOne(f, place, order[0], envs[0]), place, order[1..], envs[1..], k - 1, pid);
    }
  }

  lemma FirstReattaches(f: FleetState, place: Place, order: seq<nat>, envs: seq<StartEnv>, pid: Pid)
    requires CanReattach(f, place, order, envs, 0, pid)
    ensures var g := StartAll(f, place, order, envs);
            order[0] in g.tasks && g.tasks[order[0]] == Attached(pid)
  {
    StartReattaches(f, place, order[0], envs[0], pid);
    OthersKeepCopy(StartOne(f, place, order[0], envs[0]), place, order[1..], envs[1..], order[0]);
  }

  lemma StartReattaches(f: FleetState, place: Place, id: nat, env: StartEnv, pid: Pid)
    requires id in f.cmds && Recorded(f.host, PathOf(place, id)) == Some(pid)
    requires Matches(f.host, pid, f.cmds[id].Line()) && !env.readFails
    ensures var g := StartOne(f, place, id, env);
            id in g.tasks && g.tasks[id] == Attached(pid) && g.host == f.host && g.cmds.Keys == f.cmds.Keys
  {
  }

  lemma StartLeavesOther(f: FleetState, place: Place, id: nat, env: StartEnv, other: nat)
    requires id in f.cmds && other in f.cmds && other != id && ValidEnv(env, f.host)
    ensures var g := StartOne(f, place, id, env);
            g.cmds.Keys == f.cmds.Keys && g.cmds[other] == f.cmds[other]
            && Recorded(g.host, PathOf(place, other)) == Recorded(f.host, PathOf(place, other))
            && forall p | p in f.host.procs :: p in g.host.procs && g.host.procs[p] == f.host.procs[p]
  {
    PathsDiffer(place, other, id);
    StartTouchesOwnFile(f.cmds[id], f.host, PathOf(place, id), env);
  }

  /** The whole story over two starts: copies started once keep their pids when the fleet is
      started again, by this manager or a new one, whatever processes came and went between. */
  lemma FleetReattaches(f: FleetState, place: Place, order: seq<nat>, envs: seq<StartEnv>, g: FleetState,
                        again: FleetState, order2: seq<nat>, envs2: seq<StartEnv>, k: nat)
    requires |order| == |envs| && NoRepeats(order) && forall id | id in order :: id in f.cmds && id !in f.tasks
    requires ClaimsDistinct(f, place) && TasksRecorded(f, place) && FreshEnvs(f, place, order, envs)
    requires g == StartAll(f, place, order, envs)
    requires again.host.files == g.host.files
    requires |order2| == |envs2| && NoRepeats(order2) && (forall id | id in order2 :: id in again.cmds)
    requires FreshEnvs(again, place, order2, envs2)
    requires k < |order2| && order2[k] in g.tasks && !envs2[k].readFails
    requires Matches(again.host, g.tasks[order2[k]].pid, again.cmds[order2[k]].Line())
    ensures var second := StartAll(again, place, order2, envs2).tasks;
            order2[k] in second && second[order2[k]].pid == g.tasks[order2[k]].pid
  {
    StartedCopiesAreDistinct(f, place, order, envs);
    assert Recorded(again.host, PathOf(place, order2[k])) == Some(g.tasks[order2[k]].pid);
    StartAgainReturnsSamePid(again, place, order2, envs2, k, g.tasks[order2[k]].pid);
  }

  /** A copy's fresh process stays claimed exactly when its pid file was written: on an error the
      engine drops the specification that recorded the pid. */
  lemma SpawnIsClaimedExactly(f: FleetState, place: Place, id: nat, env: StartEnv)
    requires id in f.cmds && FreshEnv(f, place, env)
    requires StartOne(f, place, id, env).host.procs != f.host.procs
    ensures env.spawn.Spawns?
    ensures Claims(StartOne(f, place, id, env), place, id, env.spawn.pid) <==> env.write.Written?
  {
    var c, path := f.cmds[id], PathOf(place, id);
    var before := ReattachFromFile(f.host, path, c.Line(), env).0;
    ReattachTouchesOwnFile(f.host, path, c.Line(), env);
    if env.spawn.Spawns? {
      assert !Claims(f, place, id, env.spawn.pid);
      var spawned := before.(procs := before.procs[env.spawn.pid := c.Line()]);
      assert Recorded(spawned, path) == Recorded(before, path);
      WriteRecords(spawned, path, env.spawn.pid, env.write);
    }
  }

  // Status.

  /** What `try_wait` reports for a child. */
  datatype Poll = StillRunning | HasExited(status: int) | PollFails(message: string)

  /** `FxSystemCommand::fx_status` */
  function StatusOf(c: Command, handle: Handle, h: Host, poll: Poll): Result<ExecState, ExecState> {
    match handle
    case Child(pid) =>
      (match poll
       case StillRunning => Ok(Running(pid))
       case HasExited(status) => Ok(Exited(status))
       case PollFails(message) => Err(Error(message)))
    case Attached(pid) =>
      if pid !in h.procs then Ok(NotStarted)
      else if CommandEqual(c.command, c.args, h.procs[pid]) then Ok(Running(pid))
      else Ok(Unknown)
  }

  function StateOf(r: Result<ExecState, ExecState>): ExecState {
    match r
    case Ok(s) => s
    case Err(s) => s
  }

  function Observed(cmds: map<nat, Command>, tasks: map<nat, Handle>, h: Host, polls: map<nat, Poll>,
                    id: nat): Result<ExecState, ExecState>
    requires id in cmds && id in tasks
  {
    StatusOf(cmds[id], tasks[id], h, if id in polls then polls[id] else StillRunning)
  }

  predicate Keeps(cmds: map<nat, Command>, tasks: map<nat, Handle>, h: Host, polls: map<nat, Poll>, id: nat)
    requires id in tasks
  {
    id !in cmds || (Observed(cmds, tasks, h, polls, id).Ok? && Observed(cmds, tasks, h, polls, id).value.Running?)
  }

  /** What a status pass leaves of the tasks, once those in `seen` have been visited. */
  function KeptTasks(cmds: map<nat, Command>, tasks: map<nat, Handle>, h: Host, polls: map<nat, Poll>,
                     seen: set<nat>): map<nat, Handle>
  {
    map id | id in tasks && (id !in seen || Keeps(cmds, tasks, h, polls, id)) :: tasks[id]
  }

  function RefreshedCommands(cmds: map<nat, Command>, tasks: map<nat, Handle>, h: Host, polls: map<nat, Poll>,
                             seen: set<nat>): map<nat, Command>
  {
    map id | id in cmds ::
      if id in seen && id in tasks then cmds[id].(state := StateOf(Observed(cmds, tasks, h, polls, id))) else cmds[id]
  }

  lemma VisitOne(cmds: map<nat, Command>, tasks: map<nat, Handle>, h: Host, polls: map<nat, Poll>, seen: set<nat>,
                 id: nat)
    requires id in tasks && id !in seen
    ensures KeptTasks(cmds, tasks, h, polls, seen + {id})
            == KeptTasks(cmds, tasks, h, polls, seen) - if Keeps(cmds, tasks, h, polls, id) then {} else {id}
    ensures RefreshedCommands(cmds, tasks, h, polls, seen + {id})
            == var before := RefreshedCommands(cmds, tasks, h, polls, seen);
               if id in cmds then before[id := cmds[id].(state := StateOf(Observed(cmds, tasks, h, polls, id)))]
               else before
  {
  }

  // Destroying.

  function DestroyAll(h: Host, tasks: map<nat, Handle>, order: seq<nat>, envs: map<nat, DestroyEnv>): Host
    requires forall id | id in order :: id in tasks && id in envs
    decreases |order|
  {
    if order == [] then h
    else DestroyAll(DestroyProcess(tasks[order[0]], h, envs[order[0]]).0, tasks, order[1..], envs)
  }

  /** The kill of this copy's process takes effect. */
  predicate Killed(tasks: map<nat, Handle>, envs: map<nat, DestroyEnv>, id: nat, p: Pid) {
    id in tasks && id in envs && tasks[id].pid == p && envs[id].sent && (tasks[id].Child? || envs[id].gone)
  }

  /** Exactly the processes end whose pid some task holds and whose kill takes effect, whatever
      happens to the other tasks; all others and all files stay as they were. */
  lemma {:induction false} DestroyAllExactly(h: Host, tasks: map<nat, Handle>, order: seq<nat>,
                                             envs: map<nat, DestroyEnv>, p: Pid)
    requires forall id | id in order :: id in tasks && id in envs
    ensures var g := DestroyAll(h, tasks, order, envs);
            g.files == h.files
            && (p in g.procs <==> p in h.procs && forall id | id in order :: !Killed(tasks, envs, id, p))
            && (p in g.procs ==> g.procs[p] == h.procs[p])
    decreases |order|
  {
    if order != [] {
      DestroyedMeansGone(tasks[order[0]], h, envs[order[0]]);
      assert order == [order[0]] + order[1..];
      DestroyAllExactly(DestroyProcess(tasks[order[0]], h, envs[order[0]]).0, tasks, order[1..], envs, p);
    }
  }

  lemma NextCopy(order: seq<nat>, k: nat)
    requires NoRepeats(order) && k < |order|
    ensures order[k..][0] == order[k] && order[k..][1..] == order[k + 1..]
    ensures order[k] in order && order[k] in order[k..]
    ensures forall id :: id in order[k + 1..] <==> id in order[k..] && id != order[k]
  {
    assert order[k..] == [order[k]] + order[k + 1..];
  }

  lemma PutBack(tasks: map<nat, Handle>, id: nat)
    requires id in tasks
    ensures (tasks - {id})[id := tasks[id]] == tasks == tasks - {}
  {
  }

  /** A start that succeeds enters the handle and the specification with its new state, one that
      fails leaves both as they were. */
  lemma StartOneExactly(f: FleetState, place: Place, id: nat, env: StartEnv)
    requires id in f.cmds
    ensures var o, g := Start(f.cmds[id], f.host, Some(PathOf(place, id)), env), StartOne(f, place, id, env);
            g.host == o.host
            && g.tasks == (if o.result.Ok? then f.tasks[id := o.result.value] else f.tasks)
            && g.cmds == (if o.result.Ok? then f.cmds[id := o.cmd] else f.cmds)
  {
  }

  /** The pid runs this copy's command line. */
  predicate RunsLine(c: Command, h: Host, pid: Pid) { pid in h.procs && h.procs[pid] == [c.command] + c.args }

  /** A child is running if its poll says so, a process known by pid only if it runs the line. */
  predicate ObservedRunning(c: Command, task: Handle, h: Host, polls: map<nat, Poll>, id: nat) {
    match task
    case Child(_) => id in polls ==> polls[id] == StillRunning
    case Attached(pid) => RunsLine(c, h, pid)
  }

  /** What a pass keeps and records of one copy, in terms of polls and the process table: running
      tasks stay and are recorded as running, an exited child by its status or the poll's error, a
      vanished process as not started, and one that runs something else as unknown. */
  lemma StatusPassExactly(cmds: map<nat, Command>, tasks: map<nat, Handle>, h: Host, polls: map<nat, Poll>, id: nat)
    ensures var kept := KeptTasks(cmds, tasks, h, polls, tasks.Keys);
            (id in kept <==>
               id in tasks && (id in cmds ==> ObservedRunning(cmds[id], tasks[id], h, polls, id)))
            && (id in kept ==> kept[id] == tasks[id])
    ensures var after := RefreshedCommands(cmds, tasks, h, polls, tasks.Keys);
            (id in after <==> id in cmds)
            && (id in cmds && id !in tasks ==> after[id] == cmds[id])
            && (id in cmds && id in tasks ==>
                  var c, task := cmds[id], tasks[id];
                  var s := after[id].state;
                  after[id] == c.(state := s)
                  && (s == Running(task.pid) <==> ObservedRunning(c, task, h, polls, id))
                  && (task.Child? && id in polls && polls[id].HasExited? ==> s == Exited(polls[id].status))
                  && (task.Child? && id in polls && polls[id].PollFails? ==> s == Error(polls[id].message))
                  && (task.Attached? && task.pid !in h.procs ==> s == NotStarted)
                  && (task.Attached? && task.pid in h.procs && !RunsLine(c, h, task.pid) ==> s == Unknown))
  {
    if id in cmds && id in tasks && tasks[id].pid in h.procs {
      CommandEqualIsEquality(cmds[id].command, cmds[id].args, h.procs[tasks[id].pid]);
    }
  }

  class BareEngine {
    const place: Place
    var cmds: map<nat, Command>

    constructor (place: Place, cmds: map<nat, Command>)
      ensures this.place == place && this.cmds == cmds
    {
      this.place, this.cmds := place, cmds;
    }

    method StartCopy(m: Machine, id: nat, spec: Command, env: StartEnv, tasks: map<nat, Handle>)
      returns (r: map<nat, Handle>)
      requires id in cmds && cmds[id] == spec
      modifies this`cmds, m
      ensures cmds.Keys == old(cmds.Keys)
      ensures forall other | other in cmds && other != id :: cmds[other] == old(cmds)[other]
      ensures FleetState(cmds, r, m.View())
              == StartOne(FleetState(old(cmds), tasks, old(m.View())), place, id, env)
    {
      var command := new FxSystemCommand.Clone(spec, Some(place.directory));
      var started := command.FxStart(m, InstanceId(place.name, id), env);
      if started.Err? {
        return tasks;
      }
      cmds := cmds[id := command.View()];
      r := tasks[id := started.value];
    }

    /** `order` is the iteration order of the command map. */
    method FxStart(m: Machine, order: seq<nat>, envs: seq<StartEnv>) returns (tasks: map<nat, Handle>)
      requires |order| == |envs| && NoRepeats(order) && forall id :: id in order <==> id in cmds
      modifies this`cmds, m
      ensures FleetState(cmds, tasks, m.View())
              == StartAll(FleetState(old(cmds), map[], old(m.View())), place, order, envs)
    {
      var specs := cmds;
      tasks := map[];
      ghost var f := FleetState(cmds, map[], m.View());
      var k := 0;
      while k < |order|
        invariant 0 <= k <= |order|
        invariant cmds.Keys == specs.Keys
        invariant forall j | k <= j < |order| :: cmds[order[j]] == specs[order[j]]
        invariant StartAll(f, place, order, envs)
                  == StartAll(FleetState(cmds, tasks, m.View()), place, order[k..], envs[k..])
      {
        var id := order[k];
        assert forall j | k < j < |order| :: order[j] != id && order[j] in cmds;
        tasks := StartCopy(m, id, specs[id], envs[k], tasks);
        assert order[k..][1..] == order[k + 1..] && envs[k..][1..] == envs[k + 1..];
        k := k + 1;
      }
    }

    /** Observes one task's process and records the result; true if the task goes back. */
    method VisitTask(m: Machine, process: Handle, polls: map<nat, Poll>, id: nat) returns (keep: bool)
      modifies this`cmds
      ensures id !in old(cmds) ==> keep && cmds == old(cmds)
      ensures id in old(cmds) ==>
                var poll := if id in polls then polls[id] else StillRunning;
                var status := StatusOf(old(cmds)[id], process, m.View(), poll);
                keep == (status.Ok? && status.value.Running?)
                && cmds == old(cmds)[id := old(cmds)[id].(state := StateOf(status))]
    {
      if id !in cmds {
        return true;
      }
      match StatusOf(cmds[id], process, Host(m.procs, m.files), if id in polls then polls[id] else StillRunning) {
        case Ok(status) =>
          cmds := cmds[id := cmds[id].(state := status)];
          keep := status.Running?;
        case Err(status) =>
          cmds := cmds[id := cmds[id].(state := status)];
          keep := false;
      }
    }

    /** One status pass: exactly the tasks observed running, or without a specification, stay,
        with their handles; every visited specification records what was observed. */
    method FxStatus(m: Machine, tasks: map<nat, Handle>, order: seq<nat>, polls: map<nat, Poll>)
      returns (kept: map<nat, Handle>)
      requires NoRepeats(order) && forall id :: id in order <==> id in tasks
      modifies this`cmds
      ensures kept == KeptTasks(old(cmds), tasks, m.View(), polls, tasks.Keys)
      ensures cmds == RefreshedCommands(old(cmds), tasks, m.View(), polls, tasks.Keys)
      ensures cmds.Keys == old(cmds).Keys
    {
      kept := tasks;
      ghost var h := m.View();
      ghost var seen: set<nat> := {};
      assert kept == KeptTasks(cmds, tasks, h, polls, seen);
      assert cmds == RefreshedCommands(cmds, tasks, h, polls, seen);
      var k := 0;
      while k < |order|
        invariant 0 <= k <= |order|
        invariant forall id :: id in seen <==> id in order[..k]
        invariant kept == KeptTasks(old(cmds), tasks, h, polls, seen)
        invariant cmds == RefreshedCommands(old(cmds), tasks, h, polls, seen)
      {
        var id := order[k];
        assert order[..k + 1] == order[..k] + [id];
        assert id in tasks && id !in seen;
        VisitOne(old(cmds), tasks, h, polls, seen, id);
        PutBack(kept, id);
        var process := kept[id];
        kept := kept - {id};
        var keep := VisitTask(m, process, polls, id);
        if keep {
          kept := kept[id := process];
        }
        seen := seen + {id};
        k := k + 1;
      }
      assert order[..k] == order;
      assert seen == tasks.Keys;
    }

    /** Every task is taken out and its process destroyed; errors are only logged. */
    method FxDestroy(m: Machine, tasks: map<nat, Handle>, order: seq<nat>, envs: map<nat, DestroyEnv>)
      returns (left: map<nat, Handle>)
      requires NoRepeats(order) && (forall id :: id in order <==> id in tasks) && tasks.Keys <= envs.Keys
      modifies m`procs
      ensures left == map[]
      ensures m.View() == DestroyAll(old(m.View()), tasks, order, envs)
    {
      left := tasks;
      ghost var all := DestroyAll(m.View(), tasks, order, envs);
      var k := 0;
      assert order[0..] == order;
      while k < |order|
        invariant 0 <= k <= |order|
        invariant left.Keys <= tasks.Keys && forall id | id in left :: left[id] == tasks[id]
        invariant forall id :: id in order[k..] <==> id in left
        invariant all == DestroyAll(m.View(), tasks, order[k..], envs)
      {
        var id := order[k];
        NextCopy(order, k);
        var process := new FxSystemProcessRunning(left[id]);
        left := left - {id};
        var destroyed := process.Destroy(m, envs[id]);
        k := k + 1;
      }
    }
  }
}
