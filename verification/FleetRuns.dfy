/** At most one live process of its own per copy, over every run of fleet starts, status passes,
    destroys, exits, foreign processes and new managers. */
module FleetRuns {
  import opened Wrappers
  import opened States
  import opened SystemCommand
  import opened Fleet

  /** `own`: the live processes that starts spawned, each with its copy. */
  datatype World = World(place: Place, f: FleetState, own: set<(nat, Pid)>)

  datatype Event =
    | Starts(order: seq<nat>, envs: seq<StartEnv>)
    | StatusPass(polls: map<nat, Poll>)
    | Destroys(order: seq<nat>, kills: map<nat, DestroyEnv>)
    | Exits(pid: Pid)
    | Foreign(pid: Pid, line: seq<string>)
    | NewManager

  // One start.

  predicate SpawnFresh(env: StartEnv, h: Host) { env.spawn.Spawns? ==> env.spawn.pid !in h.procs }

  /** The start gets as far as a child: the pid file names nobody who runs the command, nor does
      the recorded state. */
  predicate ReachesSpawn(c: Command, h: Host, path: string, env: StartEnv) {
    var (g, reattached) := ReattachFromFile(h, path, c.Line(), env);
    reattached == Ok(None) && KnownPid(c, g, true, env.visit) == None && !env.stdioFails && env.spawn.Spawns?
  }

  /** The failing branch: a child was spawned and its pid could not be written. */
  predicate LeavesOrphan(c: Command, h: Host, path: string, env: StartEnv) {
    ReachesSpawn(c, h, path, env) && !env.write.Written?
  }

  /** A start adds its child or no process, and records the child unless the write fails. */
  lemma StartAdds(c: Command, h: Host, path: string, env: StartEnv)
    requires SpawnFresh(env, h)
    ensures var g := Start(c, h, Some(path), env).host;
            if ReachesSpawn(c, h, path, env)
            then g.procs == h.procs[env.spawn.pid := c.Line()]
                 && Recorded(g, path) == (if env.write.Written? then Some(env.spawn.pid) else None)
            else g.procs == h.procs
  {
    var (before, reattached) := ReattachFromFile(h, path, c.Line(), env);
    ReattachTouchesOwnFile(h, path, c.Line(), env);
    if ReachesSpawn(c, h, path, env) {
      var spawned := before.(procs := before.procs[env.spawn.pid := c.Line()]);
      assert Recorded(spawned, path) == Recorded(before, path) == None;
      WriteRecords(spawned, path, env.spawn.pid, env.write);
    }
  }

  /** While the process its file names is alive, starting a copy changes neither processes nor
      files. */
  lemma StartOfRecorded(c: Command, h: Host, path: string, env: StartEnv, p: Pid)
    requires Recorded(h, path) == Some(p) && Matches(h, p, c.Line())
    ensures Start(c, h, Some(path), env).host == h && !ReachesSpawn(c, h, path, env)
  {
  }

  function StartNext(w: World, id: nat, env: StartEnv): World
    requires id in w.f.cmds
  {
    var g := StartOne(w.f, w.place, id, env);
    World(w.place, g, w.own + set p | p in g.host.procs && p !in w.f.host.procs :: (id, p))
  }

  function StartEach(w: World, order: seq<nat>, envs: seq<StartEnv>): World
    requires |order| == |envs| && forall id | id in order :: id in w.f.cmds
    decreases |order|
  {
    if order == [] then w else StartEach(StartNext(w, order[0], envs[0]), order[1..], envs[1..])
  }

  lemma {:induction false} StartEachIsStartAll(w: World, order: seq<nat>, envs: seq<StartEnv>)
    requires |order| == |envs| && forall id | id in order :: id in w.f.cmds
    ensures StartEach(w, order, envs).f == StartAll(w.f, w.place, order, envs)
    ensures StartEach(w, order, envs).place == w.place
    decreases |order|
  {
    if order != [] {
      StartEachIsStartAll(StartNext(w, order[0], envs[0]), order[1..], envs[1..]);
    }
  }

  /** Every pid given to a child is not live at that moment. */
  predicate SpawnsFresh(w: World, order: seq<nat>, envs: seq<StartEnv>)
    requires |order| == |envs| && forall id | id in order :: id in w.f.cmds
    decreases |order|
  {
    order == []
    || (SpawnFresh(envs[0], w.f.host) && SpawnsFresh(StartNext(w, order[0], envs[0]), order[1..], envs[1..]))
  }

  function PathIn(w: World, id: nat): string { PathOf(w.place, id) }

  /** Some start of this fleet start leaves an orphan. */
  predicate SomeOrphan(w: World, order: seq<nat>, envs: seq<StartEnv>)
    requires |order| == |envs| && forall id | id in order :: id in w.f.cmds
    decreases |order|
  {
    order != []
    && (LeavesOrphan(w.f.cmds[order[0]], w.f.host, PathIn(w, order[0]), envs[0])
        || SomeOrphan(StartNext(w, order[0], envs[0]), order[1..], envs[1..]))
  }

  // Runs.

  /** A fleet start begins with an empty task map. */
  function Cleared(w: World): World { w.(f := w.f.(tasks := map[])) }

  /** The specifications are started in some order, each once. */
  predicate IsFleetStart(w: World, order: seq<nat>, envs: seq<StartEnv>) {
    |order| == |envs| && NoRepeats(order)
    && (forall id | id in order :: id in w.f.cmds) && (forall id | id in w.f.cmds :: id in order)
  }

  predicate Possible(w: World, e: Event) {
    match e
    case Starts(order, envs) => IsFleetStart(w, order, envs) && SpawnsFresh(Cleared(w), order, envs)
    case StatusPass(_) => true
    case Destroys(order, kills) => forall id | id in order :: id in w.f.tasks && id in kills
    case Exits(pid) => pid in w.f.host.procs
    case Foreign(pid, _) => pid !in w.f.host.procs
    case NewManager => true
  }

  /** Possible, and no spawn's pid write fails. */
  predicate Allowed(w: World, e: Event) {
    Possible(w, e) && (e.Starts? ==> !SomeOrphan(Cleared(w), e.order, e.envs))
  }

  function Alive(w: World, h: Host): World {
    w.(f := w.f.(host := h), own := set o | o in w.own && o.1 in h.procs)
  }

  function Apply(w: World, e: Event): World
    requires Possible(w, e)
  {
    match e
    case Starts(order, envs) => StartEach(Cleared(w), order, envs)
    case StatusPass(polls) =>
      var f := w.f;
      w.(f := FleetState(RefreshedCommands(f.cmds, f.tasks, f.host, polls, f.tasks.Keys),
                         KeptTasks(f.cmds, f.tasks, f.host, polls, f.tasks.Keys), f.host))
    case Destroys(order, kills) =>
      Alive(Cleared(w), DestroyAll(w.f.host, w.f.tasks, order, kills))
    case Exits(pid) => Alive(w, w.f.host.(procs := w.f.host.procs - {pid}))
    case Foreign(pid, line) => w.(f := w.f.(host := w.f.host.(procs := w.f.host.procs[pid := line])))
    case NewManager =>
      w.(f := FleetState(map id | id in w.f.cmds :: w.f.cmds[id].(state := NotStarted), map[], w.f.host))
  }

  ghost predicate IsRun(w: World, es: seq<Event>)
    decreases |es|
  {
    es == [] || (Allowed(w, es[0]) && IsRun(Apply(w, es[0]), es[1..]))
  }

  ghost function End(w: World, es: seq<Event>): World
    requires IsRun(w, es)
    decreases |es|
  {
    if es == [] then w else End(Apply(w, es[0]), es[1..])
  }

  // What runs keep.

  predicate Runs(w: World, id: nat, p: Pid) {
    id in w.f.cmds && Matches(w.f.host, p, w.f.cmds[id].Line())
  }

  predicate Named(w: World, id: nat, p: Pid) { Recorded(w.f.host, PathIn(w, id)) == Some(p) }

  /** Every process of a copy runs the copy's command and is named by the copy's pid file. */
  predicate AllRecorded(w: World) {
    forall o | o in w.own :: Runs(w, o.0, o.1) && Named(w, o.0, o.1)
  }

  predicate OnePerCopy(w: World) {
    forall a, b | a in w.own && b in w.own && a.0 == b.0 :: a == b
  }

  /** One process per copy at most, running the copy's command, recorded or not. */
  predicate Sound(w: World) {
    OnePerCopy(w) && forall o | o in w.own :: Runs(w, o.0, o.1)
  }

  lemma RecordedIsSound(w: World)
    requires AllRecorded(w)
    ensures Sound(w)
  {
    forall a, b | a in w.own && b in w.own && a.0 == b.0 ensures a == b {
      assert Named(w, a.0, a.1) && Named(w, b.0, b.1);
    }
  }

  /** What one start leaves of another copy, and of its own. */
  lemma StartNextEffect(w: World, id: nat, env: StartEnv)
    requires id in w.f.cmds && SpawnFresh(env, w.f.host)
    ensures var c, path := w.f.cmds[id], PathIn(w, id);
            var v := StartNext(w, id, env);
            v.place == w.place && v.f.cmds.Keys == w.f.cmds.Keys
            && (forall other | other in w.f.cmds :: v.f.cmds[other].Line() == w.f.cmds[other].Line())
            && (forall other | other != id ::
                  Recorded(v.f.host, PathIn(v, other)) == Recorded(w.f.host, PathIn(w, other)))
            && (forall p | p in w.f.host.procs :: p in v.f.host.procs && v.f.host.procs[p] == w.f.host.procs[p])
            && v.own == w.own + (if ReachesSpawn(c, w.f.host, path, env) then {(id, env.spawn.pid)} else {})
  {
    var c, path := w.f.cmds[id], PathIn(w, id);
    StartTouchesOwnFile(c, w.f.host, path, env);
    StartAdds(c, w.f.host, path, env);
    forall other | other != id ensures PathIn(w, other) != path {
      PathsDiffer(w.place, id, other);
    }
  }

  lemma StartKeepsRecorded(w: World, id: nat, env: StartEnv)
    requires AllRecorded(w) && id in w.f.cmds && SpawnFresh(env, w.f.host)
    requires !LeavesOrphan(w.f.cmds[id], w.f.host, PathIn(w, id), env)
    ensures AllRecorded(StartNext(w, id, env))
  {
    var c, path, v := w.f.cmds[id], PathIn(w, id), StartNext(w, id, env);
    StartNextEffect(w, id, env);
    StartAdds(c, w.f.host, path, env);
    forall o | o in v.own ensures Runs(v, o.0, o.1) && Named(v, o.0, o.1) {
      if o in w.own {
        assert Runs(w, o.0, o.1) && Named(w, o.0, o.1);
        if o.0 == id {
          StartOfRecorded(c, w.f.host, path, env, o.1);
        }
      }
    }
  }

  /** A process that its copy's file does not name. */
  predicate Orphan(w: World, id: nat, p: Pid) { (id, p) in w.own && Runs(w, id, p) && !Named(w, id, p) }

  lemma StartMakesOrphan(w: World, id: nat, env: StartEnv)
    requires id in w.f.cmds && SpawnFresh(env, w.f.host)
    requires LeavesOrphan(w.f.cmds[id], w.f.host, PathIn(w, id), env)
    ensures Orphan(StartNext(w, id, env), id, env.spawn.pid)
  {
    StartNextEffect(w, id, env);
    StartAdds(w.f.cmds[id], w.f.host, PathIn(w, id), env);
  }

  lemma {:induction false} OrphanStays(w: World, order: seq<nat>, envs: seq<StartEnv>, id: nat, p: Pid)
    requires Orphan(w, id, p) && id !in order
    requires |order| == |envs| && (forall i | i in order :: i in w.f.cmds) && SpawnsFresh(w, order, envs)
    ensures Orphan(StartEach(w, order, envs), id, p)
    decreases |order|
  {
    if order != [] {
      StartNextEffect(w, order[0], envs[0]);
      OrphanStays(StartNext(w, order[0], envs[0]), order[1..], envs[1..], id, p);
    }
  }

  lemma {:induction false} StartsKeepRecorded(w: World, order: seq<nat>, envs: seq<StartEnv>)
    requires AllRecorded(w) && |order| == |envs| && (forall i | i in order :: i in w.f.cmds)
    requires SpawnsFresh(w, order, envs) && !SomeOrphan(w, order, envs)
    ensures AllRecorded(StartEach(w, order, envs))
    decreases |order|
  {
    if order != [] {
      StartNextEffect(w, order[0], envs[0]);
      StartKeepsRecorded(w, order[0], envs[0]);
      StartsKeepRecorded(StartNext(w, order[0], envs[0]), order[1..], envs[1..]);
    }
  }

  lemma {:induction false} SomeOrphanRemains(w: World, order: seq<nat>, envs: seq<StartEnv>) returns (id: nat, p: Pid)
    requires |order| == |envs| && NoRepeats(order) && (forall i | i in order :: i in w.f.cmds)
    requires SpawnsFresh(w, order, envs) && SomeOrphan(w, order, envs)
    ensures Orphan(StartEach(w, order, envs), id, p)
    decreases |order|
  {
    var v := StartNext(w, order[0], envs[0]);
    StartNextEffect(w, order[0], envs[0]);
    if LeavesOrphan(w.f.cmds[order[0]], w.f.host, PathIn(w, order[0]), envs[0]) {
      id, p := order[0], envs[0].spawn.pid;
      StartMakesOrphan(w, id, envs[0]);
      OrphanStays(v, order[1..], envs[1..], id, p);
    } else {
      id, p := SomeOrphanRemains(v, order[1..], envs[1..]);
    }
  }

  lemma DyingKeepsRecorded(w: World, h: Host)
    requires AllRecorded(w) && h.files == w.f.host.files
    requires forall p | p in h.procs :: p in w.f.host.procs && h.procs[p] == w.f.host.procs[p]
    ensures AllRecorded(Alive(w, h))
  {
    var v := Alive(w, h);
    forall o | o in v.own ensures Runs(v, o.0, o.1) && Named(v, o.0, o.1) {
      assert Runs(w, o.0, o.1) && Named(w, o.0, o.1);
    }
  }

  /** Nothing that runs and pid files depend on changes. */
  lemma SameHostKeepsRecorded(w: World, v: World)
    requires AllRecorded(w) && v.own == w.own && v.place == w.place && v.f.cmds.Keys == w.f.cmds.Keys
    requires forall id | id in w.f.cmds :: v.f.cmds[id].Line() == w.f.cmds[id].Line()
    requires v.f.host.files == w.f.host.files
    requires forall p | p in w.f.host.procs :: p in v.f.host.procs && v.f.host.procs[p] == w.f.host.procs[p]
    ensures AllRecorded(v)
  {
    forall o | o in v.own ensures Runs(v, o.0, o.1) && Named(v, o.0, o.1) {
      assert Runs(w, o.0, o.1) && Named(w, o.0, o.1);
    }
  }

  /** A fleet start leaves every process recorded if and only if none of its spawns' pid writes
      failed. */
  lemma StartsRecordExactly(w: World, order: seq<nat>, envs: seq<StartEnv>)
    requires AllRecorded(w) && Possible(w, Starts(order, envs))
    ensures AllRecorded(Apply(w, Starts(order, envs))) <==> !SomeOrphan(Cleared(w), order, envs)
  {
    SameHostKeepsRecorded(w, Cleared(w));
    if SomeOrphan(Cleared(w), order, envs) {
      var id, p := SomeOrphanRemains(Cleared(w), order, envs);
    } else {
      StartsKeepRecorded(Cleared(w), order, envs);
    }
  }

  lemma StepKeepsRecorded(w: World, e: Event)
    requires AllRecorded(w) && Allowed(w, e)
    ensures AllRecorded(Apply(w, e))
  {
    match e
    case Starts(order, envs) =>
      SameHostKeepsRecorded(w, Cleared(w));
      StartsKeepRecorded(Cleared(w), order, envs);
    case Destroys(order, kills) =>
      var h := DestroyAll(w.f.host, w.f.tasks, order, kills);
      forall p: Pid | p in h.procs ensures p in w.f.host.procs && h.procs[p] == w.f.host.procs[p] {
        DestroyAllExactly(w.f.host, w.f.tasks, order, kills, p);
      }
      assert h.files == w.f.host.files by {
        DestroyAllExactly(w.f.host, w.f.tasks, order, kills, 0);
      }
      SameHostKeepsRecorded(w, Cleared(w));
      DyingKeepsRecorded(Cleared(w), h);
    case Exits(pid) => DyingKeepsRecorded(w, w.f.host.(procs := w.f.host.procs - {pid}));
    case _ => SameHostKeepsRecorded(w, Apply(w, e));
  }

  /** Main result, from any state in which every copy's process is recorded, such as an empty pid
      directory: as long as no spawn's pid write fails, each copy has at most one live process
      of its own, and its pid file names it. */
  lemma {:induction false} AtMostOnePerCopy(w: World, es: seq<Event>)
    requires AllRecorded(w) && IsRun(w, es)
    ensures AllRecorded(End(w, es)) && OnePerCopy(End(w, es))
    decreases |es|
  {
    if es == [] {
      RecordedIsSound(w);
    } else {
      StepKeepsRecorded(w, es[0]);
      AtMostOnePerCopy(Apply(w, es[0]), es[1..]);
    }
  }

  // What a failed write leads to.

  ghost predicate NeverTwo(w: World) {
    forall es | IsRun(w, es) :: OnePerCopy(End(w, es))
  }

  /** Nothing fails and spawning gives `pid`. */
  function Flawless(pid: Pid): StartEnv { StartEnv(false, false, [], false, Spawns(pid), Written) }

  /** The pid file cannot be read. */
  function Unreadable(): StartEnv { StartEnv(true, false, [], false, SpawnFails, Written) }

  lemma {:induction false} OrderOf(ids: set<nat>) returns (order: seq<nat>)
    ensures NoRepeats(order) && forall id :: id in order <==> id in ids
  {
    if ids == {} {
      order := [];
    } else {
      var id :| id in ids;
      var rest := OrderOf(ids - {id});
      order := [id] + rest;
    }
  }

  lemma {:induction false} UnreadableChangesNothing(w: World, order: seq<nat>)
    requires forall id | id in order :: id in w.f.cmds
    ensures var envs := seq(|order|, _ => Unreadable());
            StartEach(w, order, envs) == w && SpawnsFresh(w, order, envs) && !SomeOrphan(w, order, envs)
    decreases |order|
  {
    if order != [] {
      var envs := seq(|order|, _ => Unreadable());
      assert envs[1..] == seq(|order[1..]|, _ => Unreadable());
      assert StartOne(w.f, w.place, order[0], Unreadable()) == w.f;
      assert StartNext(w, order[0], Unreadable()).own == w.own;
      UnreadableChangesNothing(w, order[1..]);
    }
  }

  /** The orphan's copy is started flawlessly: a second process stands beside it. */
  lemma SecondSpawn(w: World, id: nat, p: Pid, q: Pid)
    requires Orphan(w, id, p) && q !in w.f.host.procs && !w.f.cmds[id].state.Running?
    requires Recorded(w.f.host, PathIn(w, id)).Some?
             ==> !Matches(w.f.host, Recorded(w.f.host, PathIn(w, id)).value, w.f.cmds[id].Line())
    ensures !LeavesOrphan(w.f.cmds[id], w.f.host, PathIn(w, id), Flawless(q))
    ensures var v := StartNext(w, id, Flawless(q));
            v.f.cmds.Keys == w.f.cmds.Keys && !OnePerCopy(v)
  {
    StartNextEffect(w, id, Flawless(q));
    assert ReachesSpawn(w.f.cmds[id], w.f.host, PathIn(w, id), Flawless(q));
    var v := StartNext(w, id, Flawless(q));
    assert (id, p) in v.own && (id, q) in v.own;
  }

  /** A fleet start can begin with any copy and fail for all others. */
  lemma OnlyFirstStarts(w: World, id: nat, env: StartEnv) returns (e: Event)
    requires id in w.f.cmds && w.f.tasks == map[] && SpawnFresh(env, w.f.host)
    requires !LeavesOrphan(w.f.cmds[id], w.f.host, PathIn(w, id), env)
    requires StartNext(w, id, env).f.cmds.Keys == w.f.cmds.Keys
    ensures Allowed(w, e) && Apply(w, e) == StartNext(w, id, env)
  {
    assert Cleared(w) == w;
    var rest := OrderOf(w.f.cmds.Keys - {id});
    var order, others := [id] + rest, seq(|rest|, _ => Unreadable());
    var envs := [env] + others;
    assert order[1..] == rest && envs[1..] == others;
    UnreadableChangesNothing(StartNext(w, id, env), rest);
    e := Starts(order, envs);
  }

  /** A start of a new manager that spawns beside the orphan. */
  lemma SecondStart(w: World, id: nat, p: Pid, q: Pid) returns (e: Event)
    requires Orphan(w, id, p) && q !in w.f.host.procs && !w.f.cmds[id].state.Running? && w.f.tasks == map[]
    requires Recorded(w.f.host, PathIn(w, id)).Some?
             ==> !Matches(w.f.host, Recorded(w.f.host, PathIn(w, id)).value, w.f.cmds[id].Line())
    ensures Allowed(w, e) && !OnePerCopy(Apply(w, e))
  {
    SecondSpawn(w, id, p, q);
    e := OnlyFirstStarts(w, id, Flawless(q));
  }

  lemma Prepend(w: World, e: Event, es: seq<Event>)
    requires Allowed(w, e) && IsRun(Apply(w, e), es)
    ensures IsRun(w, [e] + es) && End(w, [e] + es) == End(Apply(w, e), es)
  {
    assert ([e] + es)[1..] == es;
  }

  lemma ExitLeavesOrphan(w: World, id: nat, p: Pid, r: Pid)
    requires Orphan(w, id, p) && r in w.f.host.procs && r != p
    ensures Orphan(Apply(w, Exits(r)), id, p)
  {
  }

  /** A new manager, the exit of whatever else the pid file names, and a second start. */
  lemma TwoAfterOrphan(w: World, id: nat, p: Pid, q: Pid) returns (es: seq<Event>)
    requires Orphan(w, id, p) && q !in w.f.host.procs
    ensures IsRun(w, es) && !OnePerCopy(End(w, es))
  {
    var w1 := Apply(w, NewManager);
    assert Orphan(w1, id, p);
    es := TwoAfterRestart(w1, id, p, q);
    Prepend(w, NewManager, es);
    es := [NewManager] + es;
  }

  lemma TwoAfterRestart(w: World, id: nat, p: Pid, q: Pid) returns (es: seq<Event>)
    requires Orphan(w, id, p) && q !in w.f.host.procs && !w.f.cmds[id].state.Running? && w.f.tasks == map[]
    ensures IsRun(w, es) && !OnePerCopy(End(w, es))
  {
    var named := Recorded(w.f.host, PathIn(w, id));
    var none: seq<Event> := [];
    if named.Some? && Matches(w.f.host, named.value, w.f.cmds[id].Line()) {
      var exit := Exits(named.value);
      ExitLeavesOrphan(w, id, p, named.value);
      var e := SecondStart(Apply(w, exit), id, p, q);
      Prepend(Apply(w, exit), e, none);
      Prepend(w, exit, [e] + none);
      es := [exit] + ([e] + none);
    } else {
      var e := SecondStart(w, id, p, q);
      Prepend(w, e, none);
      es := [e] + none;
    }
  }

  /** From then on no copy can have two processes if and only if every live process of a copy is
      named by its pid file, that is, none lives whose pid write failed.  (`q` is a pid the system
      can still hand out.) */
  lemma NeverTwoExactly(w: World, q: Pid)
    requires Sound(w) && q !in w.f.host.procs
    ensures NeverTwo(w) <==> AllRecorded(w)
  {
    if AllRecorded(w) {
      forall es | IsRun(w, es) ensures OnePerCopy(End(w, es)) {
        AtMostOnePerCopy(w, es);
      }
    } else {
      var o :| o in w.own && !(Runs(w, o.0, o.1) && Named(w, o.0, o.1));
      assert (o.0, o.1) == o;
      var es := TwoAfterOrphan(w, o.0, o.1, q);
    }
  }

  lemma {:induction false} StartsKeepSound(w: World, order: seq<nat>, envs: seq<StartEnv>)
    requires |order| == |envs| && NoRepeats(order) && (forall i | i in order :: i in w.f.cmds)
    requires SpawnsFresh(w, order, envs) && Sound(w)
    requires forall o | o in w.own && o.0 in order :: Named(w, o.0, o.1)
    ensures Sound(StartEach(w, order, envs))
    decreases |order|
  {
    if order != [] {
      var id, env := order[0], envs[0];
      var v := StartNext(w, id, env);
      StartNextEffect(w, id, env);
      StartAdds(w.f.cmds[id], w.f.host, PathIn(w, id), env);
      forall o | o in w.own && o.0 == id ensures v.own == w.own {
        assert Runs(w, o.0, o.1) && Named(w, o.0, o.1);
        StartOfRecorded(w.f.cmds[id], w.f.host, PathIn(w, id), env, o.1);
      }
      forall o | o in v.own ensures Runs(v, o.0, o.1) {
        assert o in w.own ==> Runs(w, o.0, o.1);
      }
      assert OnePerCopy(v);
      forall o | o in v.own && o.0 in order[1..] ensures Named(v, o.0, o.1) {
        assert o.0 != id && o in w.own && o.0 in order;
      }
      StartsKeepSound(v, order[1..], envs[1..]);
    }
  }

  /** After a fleet start no copy can ever have two processes of its own if and only if none of the
      start's spawns failed to write its pid. */
  lemma FleetStartSafeExactly(w: World, order: seq<nat>, envs: seq<StartEnv>, q: Pid)
    requires AllRecorded(w) && Possible(w, Starts(order, envs))
    requires q !in Apply(w, Starts(order, envs)).f.host.procs
    ensures NeverTwo(Apply(w, Starts(order, envs))) <==> !SomeOrphan(Cleared(w), order, envs)
  {
    SameHostKeepsRecorded(w, Cleared(w));
    RecordedIsSound(Cleared(w));
    StartsKeepSound(Cleared(w), order, envs);
    NeverTwoExactly(Apply(w, Starts(order, envs)), q);
    StartsRecordExactly(w, order, envs);
  }
}
