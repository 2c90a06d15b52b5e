/** At most one live process per command, over every run of starts, exits, foreign processes
    and manager restarts. */
module SystemCommandRuns {
  import opened Wrappers
  import opened States
  import opened SystemCommand

  /** `own`: the live processes that starts of this command spawned. */
  datatype World = World(cmd: Command, host: Host, path: Option<string>, own: set<Pid>)

  datatype Event =
    | StartCall(env: StartEnv)
    | Exits(pid: Pid)
    | Foreign(pid: Pid, line: seq<string>)
    | Restart

  function StartOutcome(w: World, env: StartEnv): Outcome {
    Start(w.cmd, w.host, w.path, env)
  }

  /** A pid given to a new process is not live.  A manager that restarts knows nothing but the
      pid file. */
  ghost predicate Allowed(w: World, e: Event) {
    match e
    case StartCall(env) => ValidEnv(env, w.host)
    case Exits(pid) => pid in w.host.procs
    case Foreign(pid, _) => pid !in w.host.procs
    case Restart => RestartIsSafe(w)
  }

  function Apply(w: World, e: Event): World {
    match e
    case StartCall(env) =>
      var o := StartOutcome(w, env);
      World(o.cmd, o.host, w.path, w.own + (o.host.procs.Keys - w.host.procs.Keys))
    case Exits(pid) => w.(host := w.host.(procs := w.host.procs - {pid}), own := w.own - {pid})
    case Foreign(pid, line) => w.(host := w.host.(procs := w.host.procs[pid := line]))
    case Restart => w.(cmd := w.cmd.(state := NotStarted))
  }

  predicate RestartIsSafe(w: World) {
    w.own == {} || (w.path.Some? && exists p :: p in w.own && Recorded(w.host, w.path.value) == Some(p))
  }

  /** The process is known to the recorded state or to the pid file, and the pid file names no
      other process. */
  predicate Known(w: World, p: Pid) {
    Matches(w.host, p, w.cmd.Line())
    && (w.cmd.state == Running(p) || (w.path.Some? && Recorded(w.host, w.path.value) == Some(p)))
    && (w.path.Some? ==> Recorded(w.host, w.path.value) in {None, Some(p)})
  }

  ghost predicate Inv(w: World) {
    (forall p, q :: p in w.own && q in w.own ==> p == q)
    && (forall p :: p in w.own ==> Known(w, p))
  }

  ghost predicate IsRun(w: World, es: seq<Event>)
    decreases |es|
  {
    es == [] || (Allowed(w, es[0]) && IsRun(Apply(w, es[0]), es[1..]))
  }

  ghost function End(w: World, es: seq<Event>): World
    decreases |es|
  {
    if es == [] then w else End(Apply(w, es[0]), es[1..])
  }

  /** A start while the command's process is alive never spawns, keeps it known, and returns
      its pid if it succeeds; it succeeds whenever the file operations do. */
  lemma StartWhileAlive(w: World, env: StartEnv, p: Pid)
    requires Inv(w) && p in w.own && ValidEnv(env, w.host)
    ensures var o := StartOutcome(w, env);
            o.host.procs == w.host.procs
            && Known(World(o.cmd, o.host, w.path, w.own), p)
            && (o.result.Ok? ==> o.result == Ok(Attached(p)))
            && (!env.readFails && !env.removeFails && env.write.Written? ==> o.result.Ok?)
  {
    assert Known(w, p);
    if w.path.Some? {
      WriteRecords(w.host, w.path.value, p, env.write);
    }
  }

  /** Every start either leaves the process table alone or adds one process, which the command
      then knows even if its pid file could not be written. */
  lemma StartSpawnsAtMostOne(c: Command, h: Host, path: Option<string>, env: StartEnv)
    requires ValidEnv(env, h)
    ensures var o := Start(c, h, path, env);
            if o.host.procs == h.procs
            then o.result.Ok? ==> o.result.value.Attached? && Matches(h, o.result.value.pid, c.Line())
            else env.spawn.Spawns?
                 && o.host.procs == h.procs[env.spawn.pid := c.Line()]
                 && o.cmd.state == Running(env.spawn.pid)
                 && (o.result.Ok? ==> o.result.value == Child(env.spawn.pid))
                 && (path.Some? ==> Recorded(o.host, path.value) in {None, Some(env.spawn.pid)})
  {
    if path == None {
      FirstMatchFinds(env.visit, h, c.Line());
      if KnownPid(c.(desired := WantRunning), h, false, env.visit) == None {
        SpawnAddsOne(c.(desired := WantRunning), h, path, env);
      }
    } else {
      var (before, reattached) := ReattachFromFile(h, path.value, c.Line(), env);
      if reattached == Ok(None) && KnownPid(c.(desired := WantRunning), before, true, env.visit) == None {
        assert Recorded(before, path.value) == None;
        SpawnAddsOne(c.(desired := WantRunning), before, path, env);
      }
    }
  }

  lemma SpawnAddsOne(c: Command, h: Host, path: Option<string>, env: StartEnv)
    requires env.spawn.Spawns? ==> env.spawn.pid !in h.procs
    requires path.Some? ==> Recorded(h, path.value) == None
    ensures var o := Spawn(c, h, path, env);
            if o.host.procs == h.procs
            then o.result.Err?
            else env.spawn.Spawns?
                 && o.host.procs == h.procs[env.spawn.pid := c.Line()]
                 && o.cmd.state == Running(env.spawn.pid)
                 && (o.result.Ok? ==> o.result.value == Child(env.spawn.pid))
                 && (path.Some? ==> Recorded(o.host, path.value) in {None, Some(env.spawn.pid)})
  {
    if path.Some? && env.spawn.Spawns? {
      var spawned := h.(procs := h.procs[env.spawn.pid := c.Line()]);
      assert Recorded(spawned, path.value) == None;
      WriteRecords(spawned, path.value, env.spawn.pid, env.write);
    }
  }

  lemma StartWhileDead(w: World, env: StartEnv)
    requires w.own == {} && ValidEnv(env, w.host)
    ensures Inv(Apply(w, StartCall(env)))
  {
    StartSpawnsAtMostOne(w.cmd, w.host, w.path, env);
    var o := StartOutcome(w, env);
    if o.host.procs != w.host.procs {
      assert o.host.procs.Keys - w.host.procs.Keys == {env.spawn.pid};
    }
  }

  lemma StepKeepsInv(w: World, e: Event)
    requires Inv(w) && Allowed(w, e)
    ensures Inv(Apply(w, e))
  {
    match e
    case StartCall(env) =>
      if w.own == {} {
        StartWhileDead(w, env);
      } else {
        var p :| p in w.own;
        StartWhileAlive(w, env, p);
        assert Apply(w, e).own == w.own;
      }
    case Exits(pid) =>
      var w' := Apply(w, e);
      forall p | p in w'.own ensures Known(w', p) {
        assert Known(w, p);
      }
    case Foreign(pid, _) =>
      var w' := Apply(w, e);
      forall p | p in w'.own ensures Known(w', p) {
        assert Known(w, p);
      }
    case Restart =>
      forall p | p in w.own ensures Known(Apply(w, e), p) {
        assert Known(w, p);
      }
  }

  /** Main result: from any state in which none of the command's processes is alive, whatever
      its recorded state, its pid file and the process table hold, at most one process it
      spawned is ever alive, and it stays known. */
  lemma {:induction false} AtMostOneProcess(w: World, es: seq<Event>)
    requires Inv(w) && IsRun(w, es)
    ensures Inv(End(w, es)) && |End(w, es).own| <= 1
    decreases |es|
  {
    if es == [] {
      if w.own != {} {
        var p :| p in w.own;
        assert w.own == {p};
      }
    } else {
      StepKeepsInv(w, es[0]);
      AtMostOneProcess(Apply(w, es[0]), es[1..]);
    }
  }

  ghost predicate NeverTwo(w: World) {
    forall es | IsRun(w, es) :: |End(w, es).own| <= 1
  }

  /** An environment in which nothing fails and spawning gives `pid`. */
  function Flawless(visit: seq<Pid>, pid: Pid): StartEnv {
    StartEnv(false, false, visit, false, Spawns(pid), Written)
  }

  lemma {:induction false} SomeOrder(s: set<Pid>, first: Option<Pid>) returns (visit: seq<Pid>)
    requires first.Some? ==> first.value in s
    ensures forall p :: p in visit <==> p in s
    ensures first.Some? ==> visit != [] && visit[0] == first.value
  {
    if s == {} {
      visit := [];
    } else {
      var p := if first.Some? then first.value else var x :| x in s; x;
      var rest := SomeOrder(s - {p}, None);
      visit := [p] + rest;
    }
  }

  /** A restart is safe exactly when no process of the command is alive or the pid file names
      it.  The file may have missed the pid because its write failed, or there is none: without
      a pid directory a foreign process with the same command line can take the command's place
      and exit.  (`q` and `r` are pids the system can still hand out.) */
  lemma RestartSafeExactly(w: World, q: Pid, r: Pid)
    requires Inv(w)
    requires q != r && q !in w.host.procs && r !in w.host.procs
    ensures NeverTwo(w.(cmd := w.cmd.(state := NotStarted))) <==> RestartIsSafe(w)
  {
    var w0 := w.(cmd := w.cmd.(state := NotStarted));
    if RestartIsSafe(w) {
      assert Apply(w, Restart) == w0;
      StepKeepsInv(w, Restart);
      forall es | IsRun(w0, es) ensures |End(w0, es).own| <= 1 {
        AtMostOneProcess(w0, es);
      }
    } else {
      var p :| p in w.own;
      assert w.own == {p} && Known(w, p);
      var es, end := TwoAfterRestart(w0, p, q, r);
      assert {p, r} <= end.own;
      assert |end.own| >= |{p, r}| == 2 by {
        SubsetSize({p, r}, end.own);
      }
    }
  }

  lemma {:induction false} SubsetSize(a: set<Pid>, b: set<Pid>)
    requires a <= b
    ensures |a| <= |b|
  {
    if a != {} {
      var x :| x in a;
      SubsetSize(a - {x}, b - {x});
    }
  }

  lemma TwoAfterRestart(w0: World, p: Pid, q: Pid, r: Pid) returns (es: seq<Event>, end: World)
    requires w0.cmd.state == NotStarted && p in w0.own && Matches(w0.host, p, w0.cmd.Line())
    requires w0.path.Some? ==> Recorded(w0.host, w0.path.value) == None
    requires q != r && q !in w0.host.procs && r !in w0.host.procs
    ensures IsRun(w0, es) && end == End(w0, es) && {p, r} <= end.own
  {
    if w0.path.Some? {
      var visit := SomeOrder(w0.host.procs.Keys, None);
      var start := StartCall(Flawless(visit, r));
      es := [start];
      assert es[1..] == [];
      end := Apply(w0, start);
      assert r in StartOutcome(w0, start.env).host.procs;
    } else {
      var e1 := Foreign(q, w0.cmd.Line());
      var w1 := Apply(w0, e1);
      var visit1 := SomeOrder(w1.host.procs.Keys, Some(q));
      var e2 := StartCall(Flawless(visit1, r));
      var w2 := Apply(w1, e2);
      assert w2.cmd.state == Running(q) && w2.host == w1.host;
      var e3 := Exits(q);
      var w3 := Apply(w2, e3);
      var visit3 := SomeOrder(w3.host.procs.Keys, None);
      var e4 := StartCall(Flawless(visit3, r));
      end := Apply(w3, e4);
      assert r in StartOutcome(w3, e4.env).host.procs;
      es := [e1, e2, e3, e4];
      assert es[1..] == [e2, e3, e4] && [e2, e3, e4][1..] == [e3, e4] && [e3, e4][1..] == [e4] && [e4][1..] == [];
      assert IsRun(end, []) && IsRun(w3, [e4]) && IsRun(w2, [e3, e4]) && IsRun(w1, [e2, e3, e4]);
      assert End(end, []) == end && End(w3, [e4]) == end && End(w2, [e3, e4]) == end && End(w1, [e2, e3, e4]) == end;
    }
  }
}
