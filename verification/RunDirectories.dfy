/** The run directories of QEMU instances: allocating them, and finding the instances again from
    the directory names after a manager restart (`becky-fx-qemu/src/instance.rs` and
    `manager.rs`). */
module RunDirectories {
  import opened Wrappers
  import opened Text
  import opened States
  import opened FxIds
  import opened Paths
  import SystemCommand
  import QemuManager

  function RunDir(root: string, id: FxId): string { Push(root, Display(id)) }

  function Inside(root: string, id: FxId, dir: string): string { Push(RunDir(root, id), dir) }

  function PidPathOf(dir: string): string { Push(Push(dir, "run"), "qemu.pid") }

  function PidPath(root: string, id: FxId): string { PidPathOf(RunDir(root, id)) }

  function CtlSocketPath(root: string, id: FxId): string { Push(Inside(root, id, "run"), "ctl.sock") }

  function GaSocketPath(root: string, id: FxId): string { Push(Inside(root, id, "run"), "ga.sock") }

  /** Identifiers that a directory entry can name. */
  predicate Discoverable(id: FxId) {
    Parsed(id) && PlainComponent(Display(id))
  }

  lemma NonStringsArePlain(id: FxId)
    requires !id.Str?
    ensures PlainComponent(Display(id))
  {
    match id
    case Number(n) => DecimalRoundTrip(n);
    case UuidV4(u) =>
      var t := HexText(u);
      assert forall i | 0 <= i < 32 :: t[i] != '/';
      var s := Hyphenate(t);
      assert |s| == 36;
      assert '/' !in t[..8] && '/' !in t[8..12] && '/' !in t[12..16] && '/' !in t[16..20] && '/' !in t[20..];
    case Str(_) => assert false;
  }

  /** An identifier can be found again from some directory name exactly when it is a result of
      parsing and its text is a plain path component. */
  lemma DiscoverableExactly(id: FxId)
    ensures (exists name: string :: PlainComponent(name) && Parse(name) == id) <==> Discoverable(id)
  {
    if Discoverable(id) {
      assert PlainComponent(Display(id)) && Parse(Display(id)) == id;
    }
    if name: string :| PlainComponent(name) && Parse(name) == id {
      ParseIsStable(name);
      if !id.Str? {
        NonStringsArePlain(id);
      }
    }
  }

  lemma DisplayInjective(a: FxId, b: FxId)
    requires Parsed(a) && Parsed(b) && Display(a) == Display(b)
    ensures a == b
  {
  }

  lemma PushPlain(base: string, t: string)
    requires PlainComponent(t)
    ensures var p := Push(base, t);
            |p| > |base| && |p| >= |t| && p[|p| - 1] == t[|t| - 1] != '/' && AfterSlash(p) == |p| - |t|
            && |p| <= |base| + 1 + |t|
  {
    var p := Push(base, t);
    var n := |p| - |t|;
    assert p[n..] == t;
    forall i | n <= i < |p| ensures p[i] != '/' {
      assert p[i] == t[i - n];
    }
    SlashPosition(p, n);
  }

  /** Below a directory whose name does not end in a slash, pushing loses nothing. */
  lemma PushKeepsBase(a: string, b: string, t: string)
    requires PlainComponent(t) && a != "" && b != "" && a[|a| - 1] != '/' && b[|b| - 1] != '/'
    requires Push(a, t) == Push(b, t)
    ensures a == b
  {
    assert Push(a, t) == a + "/" + t && Push(b, t) == b + "/" + t;
    assert (a + "/" + t)[..|a|] == a && (b + "/" + t)[..|b|] == b;
  }

  lemma PidPathOfInjective(a: string, b: string)
    requires a != "" && b != "" && a[|a| - 1] != '/' && b[|b| - 1] != '/'
    requires PidPathOf(a) == PidPathOf(b)
    ensures a == b
  {
    PushPlain(a, "run");
    PushPlain(b, "run");
    PushKeepsBase(Push(a, "run"), Push(b, "run"), "qemu.pid");
    PushKeepsBase(a, b, "run");
  }

  lemma RunDirInjective(root: string, a: FxId, b: FxId)
    requires Discoverable(a) && Discoverable(b) && RunDir(root, a) == RunDir(root, b)
    ensures a == b
  {
    PushInjective(root, Display(a), Display(b));
    DisplayInjective(a, b);
  }

  /** Distinct identifiers have distinct run directories and distinct pid files. */
  lemma RunDirectoriesAreDistinct(root: string, a: FxId, b: FxId)
    requires Discoverable(a) && Discoverable(b)
    ensures RunDir(root, a) == RunDir(root, b) <==> a == b
    ensures PidPath(root, a) == PidPath(root, b) <==> a == b
  {
    if RunDir(root, a) == RunDir(root, b) {
      RunDirInjective(root, a, b);
    }
    if PidPath(root, a) == PidPath(root, b) {
      PushPlain(root, Display(a));
      PushPlain(root, Display(b));
      PidPathOfInjective(RunDir(root, a), RunDir(root, b));
      RunDirInjective(root, a, b);
    }
  }

  lemma NamesDiffer(a: string, x: string, b: string, y: string)
    requires PlainComponent(x) && PlainComponent(y) && x != y
    ensures Push(a, x) != Push(b, y)
  {
    FileNameOfPush(a, x);
    FileNameOfPush(b, y);
  }

  lemma RunFileNames()
    ensures PlainComponent("qemu.pid") && PlainComponent("ctl.sock") && PlainComponent("ga.sock")
    ensures "qemu.pid" != "ctl.sock"
  {
    assert "qemu.pid"[0] != "ctl.sock"[0];
  }

  /** An instance's pid file is nobody's socket. */
  lemma PidFileIsNoSocket(root: string, a: FxId, b: FxId)
    ensures PidPath(root, a) != CtlSocketPath(root, b) && PidPath(root, a) != GaSocketPath(root, b)
  {
    RunFileNames();
    NamesDiffer(Inside(root, a, "run"), "qemu.pid", Inside(root, b, "run"), "ctl.sock");
    NamesDiffer(Inside(root, a, "run"), "qemu.pid", Inside(root, b, "run"), "ga.sock");
  }

  predicate InBytes(id: FxId) {
    forall i | 0 <= i < |Display(id)| :: Display(id)[i] as int < 256
  }

  /** The hexadecimal pid-file stem of a system command names its identifier. */
  lemma StemNamesId(id: FxId)
    requires Parsed(id) && InBytes(id)
    ensures var stem := SystemCommand.PidStem(Display(id));
            var text := DecodeHexBytes(stem[3..]);
            stem[..3] == "fx-" && text == Some(Display(id)) && Parse(text.value) == id
  {
    var stem := SystemCommand.PidStem(Display(id));
    assert stem[3..] == HexBytes(Display(id));
    HexBytesRoundTrip(Display(id));
  }

  // Allocation.

  /** The directories `create_dir_all` leaves in place: the path and its parents. */
  function WithParents(p: string): set<string>
    decreases |p|
  {
    var n := AfterSlash(p);
    if n <= 1 then {p} else {p} + WithParents(p[..n - 1])
  }

  /** What `create_dir_all` was able to make under the run root before the first failure: the run
      directory, then `log`, then `run`. */
  function MadeDirs(root: string, id: FxId, made: nat): set<string> {
    (if made > 0 then WithParents(RunDir(root, id)) else {})
    + (if made > 1 then WithParents(Inside(root, id, "log")) else {})
    + (if made > 2 then WithParents(Inside(root, id, "run")) else {})
  }

  lemma NextDir(root: string, id: FxId, k: nat, before: set<string>, sub: string)
    requires k < 2 && sub == ["log", "run"][k]
    ensures before + MadeDirs(root, id, k + 2)
            == before + MadeDirs(root, id, k + 1) + WithParents(Push(RunDir(root, id), sub))
  {
  }

  lemma AllDirs(root: string, id: FxId, made: nat)
    requires made > 2
    ensures MadeDirs(root, id, made) == MadeDirs(root, id, 3)
  {
  }

  datatype AllocateError = Io | StorageNotOk

  /** Directories under the run root and those under the data root. */
  class RunTree {
    const root: string
    const dataRoot: string
    var dirs: set<string>
    var dataDirs: set<string>

    constructor (root: string, dataRoot: string)
      ensures this.root == root && this.dataRoot == dataRoot
      ensures dirs == WithParents(root) && dataDirs == WithParents(dataRoot)
    {
      this.root, this.dataRoot := root, dataRoot;
      dirs, dataDirs := WithParents(root), WithParents(dataRoot);
    }

    method CreateDirAll(path: string)
      modifies this`dirs
      ensures dirs == old(dirs) + WithParents(path)
    {
      var p := path;
      while AfterSlash(p) > 1
        invariant dirs + WithParents(p) == old(dirs) + WithParents(path)
        decreases |p|
      {
        dirs := dirs + {p};
        p := p[..AfterSlash(p) - 1];
      }
      dirs := dirs + {p};
    }

    /** `made` directories can be made; `stored` says whether `sys_storage_create` then reports no
        error. */
    method FxAllocate(id: FxId, made: nat, stored: bool) returns (r: Result<(), AllocateError>)
      modifies this
      ensures dirs == old(dirs) + MadeDirs(root, id, made)
      ensures dataDirs == old(dataDirs) + if made > 3 then WithParents(Push(dataRoot, Display(id))) else {}
      ensures r == if made <= 3 then Err(Io) else if stored then Ok(()) else Err(StorageNotOk)
    {
      if made == 0 {
        return Err(Io);
      }
      var rootPath := Push(root, Display(id));
      CreateDirAll(rootPath);
      var subs := ["log", "run"];
      for k := 0 to 2
        invariant k < made
        invariant dataDirs == old(dataDirs)
        invariant dirs == old(dirs) + MadeDirs(root, id, k + 1)
      {
        if made == k + 1 {
          return Err(Io);
        }
        CreateDirAll(Push(rootPath, subs[k]));
        NextDir(root, id, k, old(dirs), subs[k]);
      }
      AllDirs(root, id, made);
      if made == 3 {
        return Err(Io);
      }
      dataDirs := dataDirs + WithParents(Push(dataRoot, Display(id)));
      r := if stored then Ok(()) else Err(StorageNotOk);
    }
  }

  lemma {:induction false} ParentsAreShorter(p: string, q: string)
    requires q in WithParents(p)
    ensures q == p || |q| < AfterSlash(p)
    decreases |p|
  {
    var n := AfterSlash(p);
    if n > 1 && q != p {
      ParentsAreShorter(p[..n - 1], q);
    }
  }

  /** Allocating one instance, however far it gets, adds exactly its own directory to the run
      root. */
  lemma AllocationAddsOneChild(root: string, id: FxId, made: nat, name: string)
    requires PlainComponent(Display(id)) && PlainComponent(name)
    ensures Push(root, name) in MadeDirs(root, id, made) <==> made > 0 && name == Display(id)
  {
    var dir, child := RunDir(root, id), Push(root, name);
    PushPlain(root, Display(id));
    PushPlain(root, name);
    if child in WithParents(dir) && child != dir {
      ParentsAreShorter(dir, child);
      assert false;
    }
    if child == dir {
      PushInjective(root, name, Display(id));
    }
    NoDeeperChild(root, id, name, "log");
    NoDeeperChild(root, id, name, "run");
  }

  lemma DeeperIsNoChild(root: string, t: string, name: string, sub: string)
    requires PlainComponent(t) && PlainComponent(name) && PlainComponent(sub)
    ensures Push(root, name) != Push(Push(root, t), sub)
  {
    PushPlain(root, t);
    PushPlain(root, name);
    PushPlain(Push(root, t), sub);
    FileNameOfPush(root, name);
    FileNameOfPush(Push(root, t), sub);
  }

  lemma PushUnder(dir: string, sub: string)
    requires dir != "" && dir[|dir| - 1] != '/' && PlainComponent(sub)
    ensures var p := Push(dir, sub);
            |p| > |dir| && AfterSlash(p) == |dir| + 1 && p[..|dir|] == dir
  {
    var p := dir + "/" + sub;
    assert p[..|dir|] == dir;
    PushPlain(dir, sub);
  }

  lemma ParentsUnfold(p: string, dir: string)
    requires |p| > |dir| > 0 && AfterSlash(p) == |dir| + 1 && p[..|dir|] == dir
    ensures WithParents(p) == {p} + WithParents(dir)
  {
  }

  lemma ParentIsNext(dir: string, sub: string)
    requires dir != "" && dir[|dir| - 1] != '/' && PlainComponent(sub)
    ensures WithParents(Push(dir, sub)) == {Push(dir, sub)} + WithParents(dir)
  {
    PushUnder(dir, sub);
    ParentsUnfold(Push(dir, sub), dir);
  }

  lemma NoDeeperChild(root: string, id: FxId, name: string, sub: string)
    requires PlainComponent(Display(id)) && PlainComponent(name) && PlainComponent(sub)
    ensures Push(root, name) in WithParents(Inside(root, id, sub)) ==> Push(root, name) in WithParents(RunDir(root, id))
  {
    PushPlain(root, Display(id));
    ParentIsNext(RunDir(root, id), sub);
    DeeperIsNoChild(root, Display(id), name, sub);
  }

  datatype Attempt = Attempt(id: FxId, made: nat)

  function AllocateAll(root: string, attempts: seq<Attempt>): set<string> {
    if attempts == [] then WithParents(root)
    else
      var last := attempts[|attempts| - 1];
      AllocateAll(root, attempts[..|attempts| - 1]) + MadeDirs(root, last.id, last.made)
  }

  /** Some allocation of the instance made at least its run directory. */
  predicate Begun(attempts: seq<Attempt>, id: FxId) {
    exists a :: a in attempts && a.id == id && a.made > 0
  }

  predicate BegunAs(attempts: seq<Attempt>, name: string) {
    exists a :: a in attempts && Display(a.id) == name && a.made > 0
  }

  /** After any number of allocations, complete or not, the entries of the run root are the texts of
      the identifiers whose run directory was made. */
  lemma {:induction false} AllocationsAreTheChildren(root: string, attempts: seq<Attempt>, name: string)
    requires PlainComponent(name) && forall a | a in attempts :: PlainComponent(Display(a.id))
    ensures Push(root, name) in AllocateAll(root, attempts) <==> BegunAs(attempts, name)
    decreases |attempts|
  {
    PushPlain(root, name);
    if attempts == [] {
      if Push(root, name) in WithParents(root) {
        ParentsAreShorter(root, Push(root, name));
        assert false;
      }
    } else {
      var front, last := attempts[..|attempts| - 1], attempts[|attempts| - 1];
      assert attempts == front + [last];
      AllocationsAreTheChildren(root, front, name);
      AllocationAddsOneChild(root, last.id, last.made, name);
    }
  }

  // Discovery.

  function LivePid(h: Host, path: string): Option<Pid> {
    match SystemCommand.Recorded(h, path)
    case None => None
    case Some(pid) => if pid in h.procs then Some(pid) else None
  }

  /** `reconcile_existing_files`; files in `stuck` cannot be removed. */
  function Reconcile(h: Host, root: string, id: FxId, stuck: set<string>): Host {
    if LivePid(h, PidPath(root, id)).Some? then h
    else h.(files := h.files - ({PidPath(root, id), CtlSocketPath(root, id), GaSocketPath(root, id)} - stuck))
  }

  /** What discovery reads at each directory entry while it removes the stale files of the
      instances it probes. */
  function Scan(h: Host, root: string, names: seq<string>, stuck: set<string>): (Host, seq<QemuManager.Entry>)
    decreases |names|
  {
    if names == [] then (h, [])
    else
      var id := Parse(names[0]);
      var h1 := Reconcile(h, root, id, stuck);
      var entry := QemuManager.Entry(Ok(true), Some(names[0]), Ok(LivePid(h1, PidPath(root, id))));
      var (h2, rest) := Scan(h1, root, names[1..], stuck);
      (h2, [entry] + rest)
  }

  /** The entries of the run root after these allocations, in any order, each once. */
  ghost predicate Lists(names: seq<string>, root: string, attempts: seq<Attempt>) {
    (forall i, j | 0 <= i < j < |names| :: names[i] != names[j])
    && (forall name :: name in names <==> PlainComponent(name) && Push(root, name) in AllocateAll(root, attempts))
  }

  /** Reconciling removes the three files of an instance that is not alive, except what cannot be
      removed, and touches nothing of a live one and nobody else's files. */
  lemma ReconcileExactly(h: Host, root: string, id: FxId, stuck: set<string>)
    ensures var g := Reconcile(h, root, id, stuck);
            var run := Push(Push(root, Display(id)), "run");
            var stale := {Push(run, "qemu.pid"), Push(run, "ctl.sock"), Push(run, "ga.sock")};
            g.procs == h.procs
            && (LivePid(h, Push(run, "qemu.pid")).Some? ==> g == h)
            && (LivePid(h, Push(run, "qemu.pid")).None? ==>
                  forall p :: (p in g.files <==> p in h.files && (p in stale ==> p in stuck))
                              && (p in g.files ==> g.files[p] == h.files[p]))
  {
  }

  /** The pid is alive if and only if the file can be read as one and a process has it. */
  lemma LivePidExactly(h: Host, path: string, pid: Pid)
    ensures LivePid(h, path) == Some(pid) <==> path in h.files && ParsePid(h.files[path]) == Some(pid) && pid in h.procs
  {
  }

  /** A complete allocation leaves the run directory with its log and run directories. */
  lemma AllocatedHasLogAndRun(root: string, id: FxId, made: nat)
    ensures var dir, dirs := Push(root, Display(id)), MadeDirs(root, id, made);
            (made > 0 ==> dir in dirs) && (made > 1 ==> Push(dir, "log") in dirs)
            && (made > 2 ==> Push(dir, "run") in dirs) && (made == 0 ==> dirs == {})
  {
  }

  lemma RemovalKeepsLivePid(h: Host, gone: set<string>, path: string)
    requires path !in gone || LivePid(h, path) == None
    ensures LivePid(h.(files := h.files - gone), path) == LivePid(h, path)
  {
  }

  lemma ReconcileKeepsNoSocket(h: Host, root: string, id: FxId, stuck: set<string>, path: string)
    requires path != CtlSocketPath(root, id) && path != GaSocketPath(root, id)
    ensures LivePid(Reconcile(h, root, id, stuck), path) == LivePid(h, path)
  {
    var own := PidPath(root, id);
    if LivePid(h, own) == None {
      RemovalKeepsLivePid(h, {own, CtlSocketPath(root, id), GaSocketPath(root, id)} - stuck, path);
    }
  }

  lemma ReconcileKeepsLivePid(h: Host, root: string, id: FxId, other: FxId, stuck: set<string>)
    ensures LivePid(Reconcile(h, root, id, stuck), PidPath(root, other)) == LivePid(h, PidPath(root, other))
  {
    PidFileIsNoSocket(root, other, id);
    ReconcileKeepsNoSocket(h, root, id, stuck, PidPath(root, other));
  }

  /** Registering one instance by its pid file, with the stale files removed first: it is entered
      exactly when the file names a live process, with that pid. */
  lemma RegisterFollowsPidFile(m: QemuManager.Registry, h: Host, root: string, id: FxId, stuck: set<string>)
    ensures var probe := LivePid(Reconcile(h, root, id, stuck), PidPath(root, id));
            QemuManager.Register(m, id, Ok(probe))
            == match LivePid(h, PidPath(root, id)) {
                 case None => (m, Ok(None))
                 case Some(pid) => (m.(vms := m.vms[id := pid]), Ok(Some(pid)))
               }
  {
    var gone := {PidPath(root, id), CtlSocketPath(root, id), GaSocketPath(root, id)} - stuck;
    if LivePid(h, PidPath(root, id)) == None {
      RemovalKeepsLivePid(h, gone, PidPath(root, id));
    }
  }

  /** What discovery should find: the live instances among the named ones. */
  function Live(h: Host, root: string, names: seq<string>): seq<(FxId, Pid)> {
    if names == [] then []
    else
      var id := Parse(names[0]);
      (if LivePid(h, PidPath(root, id)).Some? then [(id, LivePid(h, PidPath(root, id)).value)] else [])
      + Live(h, root, names[1..])
  }

  lemma {:induction false} LiveIgnoresReconcile(h: Host, root: string, id: FxId, names: seq<string>, stuck: set<string>)
    ensures Live(Reconcile(h, root, id, stuck), root, names) == Live(h, root, names)
  {
    if names != [] {
      ReconcileKeepsLivePid(h, root, id, Parse(names[0]), stuck);
      LiveIgnoresReconcile(h, root, id, names[1..], stuck);
    }
  }

  /** Removing stale files on the way never changes what is found, and live instances keep their
      pid files. */
  lemma {:induction false} ScanFindsLive(m: QemuManager.Registry, h: Host, root: string, names: seq<string>,
                                         stuck: set<string>, found: seq<(FxId, Pid)>)
    requires forall name | name in names :: PlainComponent(name)
    ensures var (_, entries) := Scan(h, root, names, stuck);
            QemuManager.Discover(m, entries, found)
            == (m.(vms := QemuManager.Registered(m.vms, Live(h, root, names))), Ok(found + Live(h, root, names)))
    decreases |names|
  {
    var (_, entries) := Scan(h, root, names, stuck);
    if names == [] {
      assert found + [] == found;
    } else {
      var id := Parse(names[0]);
      var h1 := Reconcile(h, root, id, stuck);
      ReconcileKeepsLivePid(h, root, id, id, stuck);
      LiveIgnoresReconcile(h, root, id, names[1..], stuck);
      var pid := LivePid(h, PidPath(root, id));
      assert entries[1..] == Scan(h1, root, names[1..], stuck).1;
      if pid.Some? {
        var m1 := m.(vms := m.vms[id := pid.value]);
        var more := found + [(id, pid.value)];
        ScanFindsLive(m1, h1, root, names[1..], stuck, more);
        assert Live(h, root, names) == [(id, pid.value)] + Live(h, root, names[1..]);
        assert Live(h, root, names)[1..] == Live(h, root, names[1..]);
        assert more + Live(h, root, names[1..]) == found + Live(h, root, names);
      } else {
        ScanFindsLive(m, h1, root, names[1..], stuck, found);
        assert Live(h, root, names) == Live(h, root, names[1..]);
      }
    }
  }

  predicate Named(names: seq<string>, id: FxId) {
    exists name | name in names :: Parse(name) == id
  }

  lemma NamedFirst(names: seq<string>, id: FxId)
    requires names != []
    ensures Named(names, id) <==> Parse(names[0]) == id || Named(names[1..], id)
  {
    assert forall name | name in names :: name == names[0] || name in names[1..];
    assert names[0] in names && forall name | name in names[1..] :: name in names;
  }

  lemma {:induction false} LiveIsExact(h: Host, root: string, names: seq<string>, id: FxId, pid: Pid)
    ensures (id, pid) in Live(h, root, names) <==> Named(names, id) && LivePid(h, PidPath(root, id)) == Some(pid)
  {
    if names != [] {
      NamedFirst(names, id);
      LiveIsExact(h, root, names[1..], id, pid);
    }
  }

  /** Main result: after allocations, complete or not, of any identifiers that parsing can give and
      whose texts are plain components, a restarted manager's discovery returns exactly those
      whose pid file names a live process, with that pid, whatever order the directory is read
      in and whichever stale files it fails to remove. */
  lemma AllocationThenDiscovery(m: QemuManager.Registry, h: Host, root: string, attempts: seq<Attempt>,
                                names: seq<string>, stuck: set<string>)
    requires forall a | a in attempts :: Discoverable(a.id)
    requires Lists(names, root, attempts)
    ensures var (_, entries) := Scan(h, root, names, stuck);
            var (after, r) := QemuManager.DiscoverRoot(m, Ok(Some(entries)));
            r.Ok?
            && (forall id, pid: Pid ::
                  (id, pid) in r.value <==> Begun(attempts, id) && LivePid(h, PidPath(root, id)) == Some(pid))
            && after == m.(vms := QemuManager.Registered(m.vms, r.value))
  {
    ScanFindsLive(m, h, root, names, stuck, []);
    assert [] + Live(h, root, names) == Live(h, root, names);
    forall id, pid: Pid
      ensures (id, pid) in Live(h, root, names) <==> Begun(attempts, id) && LivePid(h, PidPath(root, id)) == Some(pid)
    {
      LiveIsExact(h, root, names, id, pid);
      NamedExactly(root, attempts, names, id);
    }
  }

  lemma NamedExactly(root: string, attempts: seq<Attempt>, names: seq<string>, id: FxId)
    requires forall a | a in attempts :: Discoverable(a.id)
    requires Lists(names, root, attempts)
    ensures Named(names, id) <==> Begun(attempts, id)
  {
    if Begun(attempts, id) {
      AllocationsAreTheChildren(root, attempts, Display(id));
      assert BegunAs(attempts, Display(id)) && Display(id) in names;
    }
    if name :| name in names && Parse(name) == id {
      AllocationsAreTheChildren(root, attempts, name);
      var a :| a in attempts && Display(a.id) == name && a.made > 0;
      assert a.id == id;
    }
  }
}
