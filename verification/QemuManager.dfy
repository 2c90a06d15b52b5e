/** The QEMU manager: its registry, its worker handles, its event queue and the metadata it
    writes (`becky-fx-qemu/src/manager.rs`).

    QEMU, its sockets and the metadata backend appear through what they answer: each call takes
    an argument saying how far bringing an instance up got, whether a worker joined, and
    which metadata writes succeeded. */
module QemuManager {
  import opened Wrappers
  import opened States
  import opened FxIds
  import opened WorkerEvents

  /** `vms`: pid per registered instance.  `vmctl`: worker per controlled instance.
      `workers`: the live worker tasks and the instance each serves.
      `states` and `pids`: the stored execution state and the stored record's pid. */
  datatype Registry = Registry(
    vms: map<FxId, Pid>,
    vmctl: map<FxId, nat>,
    queue: seq<QueuedEvent>,
    workers: map<nat, FxId>,
    next: nat,
    states: map<FxId, ExecState>,
    pids: map<FxId, Option<Pid>>)

  /** How far attaching to or starting an instance got.  `RecordWriteFails` comes after the
      state was written, `FailsLate` after state and record were. */
  datatype Bring =
    | FailsEarly
    | StateWriteFails
    | RecordWriteFails(pid: Pid)
    | FailsLate(pid: Pid)
    | Up(pid: Pid)

  datatype CreateError = ConfigError | SpawnError | VerifyError | MetadataError | IoError

  datatype StopError = NotFound | SendFailed | Timeout(pid: Pid) | JoinFailed | MetadataFailed

  /** Whether the two metadata writes of a pair succeed. */
  datatype Writes = Writes(state: bool, record: bool)

  // Pure effects.

  function PutState(m: Registry, id: FxId, s: ExecState): Registry {
    m.(states := m.states[id := s])
  }

  function PutRecord(m: Registry, id: FxId, pid: Option<Pid>): Registry {
    m.(pids := m.pids[id := pid])
  }

  /** The metadata written while an instance is brought up. */
  function Bringing(m: Registry, id: FxId, b: Bring): Registry {
    match b
    case FailsEarly => m
    case StateWriteFails => m
    case RecordWriteFails(pid) => PutState(m, id, Running(pid))
    case FailsLate(pid) => PutRecord(PutState(m, id, Running(pid)), id, Some(pid))
    case Up(pid) => PutRecord(PutState(m, id, Running(pid)), id, Some(pid))
  }

  /** A new worker for the instance; an earlier handle under the same id is replaced. */
  function Controlled(m: Registry, id: FxId, pid: Pid): Registry {
    m.(vms := m.vms[id := pid], vmctl := m.vmctl[id := m.next], workers := m.workers[m.next := id], next := m.next + 1)
  }

  function BroughtUp(m: Registry, id: FxId, b: Bring): Registry {
    if b.Up? then Controlled(Bringing(m, id, b), id, b.pid) else Bringing(m, id, b)
  }

  /** One instance of `run_watchers`: attach, and start if there was nothing to attach to. */
  function WatchOne(m: Registry, id: FxId, attach: Option<Bring>, start: Bring): Registry {
    if id in m.vmctl then m
    else BroughtUp(m, id, if attach.Some? then attach.value else start)
  }

  datatype Watch = Watch(id: FxId, attach: Option<Bring>, start: Bring)

  function WatchAll(m: Registry, watches: seq<Watch>): Registry
    decreases |watches|
  {
    if watches == [] then m
    else WatchAll(WatchOne(m, watches[0].id, watches[0].attach, watches[0].start), watches[1..])
  }

  predicate Starts(m: Registry, w: Watch) {
    w.id !in m.vmctl && (if w.attach.Some? then w.attach.value.Up? else w.start.Up?)
  }

  /** The ids `run_watchers` reports as started. */
  function StartedIds(m: Registry, watches: seq<Watch>): seq<FxId>
    decreases |watches|
  {
    if watches == [] then []
    else (if Starts(m, watches[0]) then [watches[0].id] else [])
         + StartedIds(WatchOne(m, watches[0].id, watches[0].attach, watches[0].start), watches[1..])
  }

  lemma StartedIdsFirst(m: Registry, watches: seq<Watch>, started: seq<FxId>)
    requires watches != []
    ensures var w := watches[0];
            started + StartedIds(m, watches)
            == (if Starts(m, w) then started + [w.id] else started)
               + StartedIds(WatchOne(m, w.id, w.attach, w.start), watches[1..])
  {
    var w := watches[0];
    var rest := StartedIds(WatchOne(m, w.id, w.attach, w.start), watches[1..]);
    Associate(started, [w.id], rest);
    assert [] + rest == rest;
  }

  lemma Associate(a: seq<FxId>, b: seq<FxId>, c: seq<FxId>)
    ensures a + (b + c) == (a + b) + c
  {
  }

  function CreateVm(m: Registry, id: FxId, configured: bool, b: Bring, verified: bool)
    : (Registry, Result<(), CreateError>)
  {
    if !configured then (m, Err(ConfigError))
    else if !b.Up? then (Bringing(m, id, b), Err(SpawnError))
    else if !verified then (Bringing(m, id, b), Err(VerifyError))
    else (BroughtUp(m, id, b), Ok(()))
  }

  function StopVm(m: Registry, id: FxId, exits: bool, joins: bool, writes: Writes): (Registry, Result<(), StopError>) {
    if id !in m.vms || id !in m.vmctl then (m, Err(NotFound))
    else if m.vmctl[id] !in m.workers then (m, Err(SendFailed))
    else if !exits then (m, Err(Timeout(m.vms[id])))
    else
      var m1 := m.(vmctl := m.vmctl - {id}, workers := m.workers - {m.vmctl[id]});
      if !joins then (m1, Err(JoinFailed))
      else if !writes.state then (m1, Err(MetadataFailed))
      else if !writes.record then (PutState(m1, id, Stopped), Err(MetadataFailed))
      else (PutRecord(PutState(m1, id, Stopped), id, None).(vms := m1.vms - {id}), Ok(()))
  }

  /** What a shutdown meets at one worker: did it join, is the VM process still there. */
  datatype Fate = Fate(id: FxId, joins: bool, alive: bool, writes: Writes)

  function ShutdownOne(m: Registry, worker: nat, f: Fate): Registry {
    var m1 := m.(workers := m.workers - {worker});
    if !f.joins || f.id !in m.vms then m1
    else
      var pid := m.vms[f.id];
      var m2 := m1.(vms := m1.vms - {f.id});
      var m3 := if f.writes.state then PutState(m2, f.id, if f.alive then Running(pid) else Stopped) else m2;
      if f.writes.record then PutRecord(m3, f.id, if f.alive then Some(pid) else None) else m3
  }

  function ShutdownFrom(m: Registry, ctl: map<FxId, nat>, fates: seq<Fate>): Registry
    requires forall f | f in fates :: f.id in ctl
    decreases |fates|
  {
    if fates == [] then m
    else ShutdownFrom(ShutdownOne(m, ctl[fates[0].id], fates[0]), ctl, fates[1..])
  }

  function ShutdownAll(m: Registry, fates: seq<Fate>): Registry
    requires forall f | f in fates :: f.id in m.vmctl
  {
    ShutdownFrom(m.(vmctl := map[]), m.vmctl, fates)
  }

  /** The fates are those of the controlled instances, each once. */
  ghost predicate FatesCover(m: Registry, fates: seq<Fate>) {
    (forall i, j | 0 <= i < j < |fates| :: fates[i].id != fates[j].id)
    && (forall f | f in fates :: f.id in m.vmctl)
    && (forall id | id in m.vmctl :: exists f :: f in fates && f.id == id)
  }

  /** One event taken off the queue; false if persisting it failed. */
  function DrainOne(m: Registry, w: Writes): (Registry, bool)
    requires m.queue != []
  {
    var e := m.queue[0];
    var m1 := m.(queue := m.queue[1..]);
    if !w.state then (m1, false)
    else
      var m2 := PutState(m1, e.fxId, e.state);
      if e.fxId !in m.vms then (m2, true)
      else if !w.record then (m2, false)
      else (PutRecord(m2, e.fxId, RuntimePid(e.state)), true)
  }

  function Drain(m: Registry, writes: seq<Writes>, n: nat): (Registry, Result<nat, CreateError>)
    requires |m.queue| <= |writes|
    decreases |m.queue|
  {
    if m.queue == [] then (m, Ok(n))
    else
      var (m1, ok) := DrainOne(m, writes[0]);
      if ok then Drain(m1, writes[1..], n + 1) else (m1, Err(MetadataError))
  }

  /** A directory entry as discovery sees it; `probe` is the pid of a live instance, or an
      unusable configuration. */
  datatype Entry = Entry(isDir: Result<bool, ()>, name: Option<string>, probe: Result<Option<Pid>, ()>)

  function Register(m: Registry, id: FxId, probe: Result<Option<Pid>, ()>): (Registry, Result<Option<Pid>, CreateError>)
  {
    match probe
    case Err(_) => (m, Err(ConfigError))
    case Ok(None) => (m, Ok(None))
    case Ok(Some(pid)) => (m.(vms := m.vms[id := pid]), Ok(Some(pid)))
  }

  function Discover(m: Registry, entries: seq<Entry>, found: seq<(FxId, Pid)>)
    : (Registry, Result<seq<(FxId, Pid)>, CreateError>)
    decreases |entries|
  {
    if entries == [] then (m, Ok(found))
    else
      var e := entries[0];
      if e.isDir.Err? then (m, Err(IoError))
      else if !e.isDir.value || e.name.None? then Discover(m, entries[1..], found)
      else
        var id := Parse(e.name.value);
        var (m1, r) := Register(m, id, e.probe);
        match r
        case Err(error) => (m1, Err(error))
        case Ok(None) => Discover(m1, entries[1..], found)
        case Ok(Some(pid)) => Discover(m1, entries[1..], found + [(id, pid)])
  }

  /** Discovery over the run root: None when it does not exist, Err when it cannot be opened. */
  function DiscoverRoot(m: Registry, listing: Result<Option<seq<Entry>>, ()>)
    : (Registry, Result<seq<(FxId, Pid)>, CreateError>)
  {
    match listing
    case Err(_) => (m, Err(IoError))
    case Ok(None) => (m, Ok([]))
    case Ok(Some(entries)) => Discover(m, entries, [])
  }

  /** A stored record: unreadable, or with the live pid its pid file names.  Without one only
      the state is written. */
  datatype Inventory = Inventory(id: FxId, probe: Result<Option<Pid>, ()>, writes: bool)

  function DiscoverMetadata(m: Registry, records: seq<Inventory>, found: seq<(FxId, Pid)>)
    : (Registry, Result<seq<(FxId, Pid)>, CreateError>)
    decreases |records|
  {
    if records == [] then (m, Ok(found))
    else
      var r := records[0];
      match r.probe
      case Err(_) => (m, Err(ConfigError))
      case Ok(None) =>
        if !r.writes then (m, Err(MetadataError)) else DiscoverMetadata(PutState(m, r.id, Stopped), records[1..], found)
      case Ok(Some(pid)) => DiscoverMetadata(m.(vms := m.vms[r.id := pid]), records[1..], found + [(r.id, pid)])
  }

  /** Discovery over the stored records, if they can be listed. */
  function DiscoverStored(m: Registry, listing: Result<seq<Inventory>, ()>)
    : (Registry, Result<seq<(FxId, Pid)>, CreateError>)
  {
    match listing
    case Err(_) => (m, Err(MetadataError))
    case Ok(records) => DiscoverMetadata(m, records, [])
  }

  /** The registry with the discovered instances entered in order. */
  function Registered(vms: map<FxId, Pid>, found: seq<(FxId, Pid)>): map<FxId, Pid>
    decreases |found|
  {
    if found == [] then vms else Registered(vms[found[0].0 := found[0].1], found[1..])
  }

  /** `allocate` writes the record alone, with the pid of a live instance if there is one. */
  function Allocate(m: Registry, id: FxId, prepared: bool, pid: Option<Pid>, writes: bool)
    : (Registry, Result<(), CreateError>)
  {
    if !prepared then (m, Err(IoError))
    else if !writes then (m, Err(MetadataError))
    else (PutRecord(m, id, pid), Ok(()))
  }

  // The manager object.

  class Manager {
    var vms: map<FxId, Pid>
    var vmctl: map<FxId, nat>
    var queue: seq<QueuedEvent>
    var workers: map<nat, FxId>
    var next: nat
    var states: map<FxId, ExecState>
    var pids: map<FxId, Option<Pid>>

    constructor (states: map<FxId, ExecState>, pids: map<FxId, Option<Pid>>)
      ensures View() == Registry(map[], map[], [], map[], 0, states, pids)
    {
      vms, vmctl, queue, workers, next := map[], map[], [], map[], 0;
      this.states, this.pids := states, pids;
    }

    ghost function View(): Registry
      reads this
    {
      Registry(vms, vmctl, queue, workers, next, states, pids)
    }

    method RegisterExisting(id: FxId, probe: Result<Option<Pid>, ()>) returns (r: Result<Option<Pid>, CreateError>)
      modifies this`vms
      ensures (View(), r) == Register(old(View()), id, probe)
    {
      match probe {
        case Err(_) => r := Err(ConfigError);
        case Ok(None) => r := Ok(None);
        case Ok(Some(pid)) =>
          vms := vms[id := pid];
          r := Ok(Some(pid));
      }
    }

    method DiscoverExistingFromRuntimeDir(listing: Result<Option<seq<Entry>>, ()>)
      returns (r: Result<seq<(FxId, Pid)>, CreateError>)
      modifies this`vms
      ensures (View(), r) == DiscoverRoot(old(View()), listing)
    {
      if listing.Err? {
        return Err(IoError);
      }
      if listing.value.None? {
        return Ok([]);
      }
      var entries := listing.value.value;
      var found: seq<(FxId, Pid)> := [];
      ghost var all := Discover(View(), entries, []);
      for k := 0 to |entries|
        invariant all == Discover(View(), entries[k..], found)
      {
        var e := entries[k];
        assert entries[k..][1..] == entries[k + 1..];
        if e.isDir.Err? {
          return Err(IoError);
        }
        if !e.isDir.value || e.name.None? {
          continue;
        }
        var id := Parse(e.name.value);
        var registered := RegisterExisting(id, e.probe);
        if registered.Err? {
          return Err(registered.error);
        }
        if registered.value.Some? {
          found := found + [(id, registered.value.value)];
        }
      }
      r := Ok(found);
    }

    method DiscoverExistingFromMetadata(listing: Result<seq<Inventory>, ()>)
      returns (r: Result<seq<(FxId, Pid)>, CreateError>)
      modifies this`vms, this`states
      ensures (View(), r) == DiscoverStored(old(View()), listing)
    {
      if listing.Err? {
        return Err(MetadataError);
      }
      var records := listing.value;
      var found: seq<(FxId, Pid)> := [];
      ghost var all := DiscoverMetadata(View(), records, []);
      for k := 0 to |records|
        invariant all == DiscoverMetadata(View(), records[k..], found)
      {
        var rec := records[k];
        assert records[k..][1..] == records[k + 1..];
        match rec.probe {
          case Err(_) =>
            return Err(ConfigError);
          case Ok(None) =>
            if !rec.writes {
              return Err(MetadataError);
            }
            states := states[rec.id := Stopped];
          case Ok(Some(pid)) =>
            vms := vms[rec.id := pid];
            found := found + [(rec.id, pid)];
        }
      }
      r := Ok(found);
    }

    /** `try_attach_existing` and `fx_start`, seen from the manager: Ok gives the pid. */
    method BringUp(id: FxId, b: Bring) returns (r: Option<Pid>)
      modifies this`states, this`pids
      ensures View() == Bringing(old(View()), id, b)
      ensures r == if b.Up? then Some(b.pid) else None
    {
      match b {
        case FailsEarly => return None;
        case StateWriteFails => return None;
        case RecordWriteFails(pid) =>
          states := states[id := Running(pid)];
          return None;
        case FailsLate(pid) =>
          states, pids := states[id := Running(pid)], pids[id := Some(pid)];
          return None;
        case Up(pid) =>
          states, pids := states[id := Running(pid)], pids[id := Some(pid)];
          return Some(pid);
      }
    }

    method SpawnWorker(id: FxId) returns (worker: nat)
      modifies this`workers, this`next
      ensures worker == old(next) && next == old(next) + 1 && workers == old(workers)[worker := id]
    {
      worker := next;
      workers := workers[worker := id];
      next := next + 1;
    }

    method WatchInstance(w: Watch) returns (started: bool)
      modifies this
      ensures View() == WatchOne(old(View()), w.id, w.attach, w.start)
      ensures started <==> Starts(old(View()), w)
    {
      if w.id in vmctl {
        return false;
      }
      var handle;
      if w.attach.Some? {
        handle := BringUp(w.id, w.attach.value);
      } else {
        handle := BringUp(w.id, w.start);
      }
      if handle.None? {
        return false;
      }
      vms := vms[w.id := handle.value];
      var worker := SpawnWorker(w.id);
      vmctl := vmctl[w.id := worker];
      started := true;
    }

    method RunWatchers(watches: seq<Watch>) returns (started: seq<FxId>)
      requires forall w | w in watches :: w.id in vms
      modifies this
      ensures View() == WatchAll(old(View()), watches)
      ensures started == StartedIds(old(View()), watches)
    {
      started := [];
      ghost var before := View();
      assert watches[0..] == watches;
      for k := 0 to |watches|
        invariant WatchAll(before, watches) == WatchAll(View(), watches[k..])
        invariant StartedIds(before, watches) == started + StartedIds(View(), watches[k..])
      {
        assert watches[k..][1..] == watches[k + 1..];
        StartedIdsFirst(View(), watches[k..], started);
        var up := WatchInstance(watches[k]);
        if up {
          started := started + [watches[k].id];
        }
      }
    }

    method Create(id: FxId, configured: bool, b: Bring, verified: bool) returns (r: Result<(), CreateError>)
      modifies this
      ensures (View(), r) == CreateVm(old(View()), id, configured, b, verified)
    {
      if !configured {
        return Err(ConfigError);
      }
      var handle := BringUp(id, b);
      if handle.None? {
        return Err(SpawnError);
      }
      if !verified {
        return Err(VerifyError);
      }
      var worker := SpawnWorker(id);
      vmctl := vmctl[id := worker];
      vms := vms[id := handle.value];
      r := Ok(());
    }

    method Stop(id: FxId, exits: bool, joins: bool, writes: Writes) returns (r: Result<(), StopError>)
      modifies this
      ensures (View(), r) == StopVm(old(View()), id, exits, joins, writes)
    {
      if id !in vms {
        return Err(NotFound);
      }
      var pid := vms[id];
      if id !in vmctl {
        return Err(NotFound);
      }
      if vmctl[id] !in workers {
        return Err(SendFailed);
      }
      if !exits {
        return Err(Timeout(pid));
      }
      var worker := vmctl[id];
      vmctl := vmctl - {id};
      workers := workers - {worker};
      if !joins {
        return Err(JoinFailed);
      }
      if !writes.state {
        return Err(MetadataFailed);
      }
      states := states[id := Stopped];
      if !writes.record {
        return Err(MetadataFailed);
      }
      pids := pids[id := None];
      vms := vms - {id};
      r := Ok(());
    }

    method AwaitWorker(worker: nat, f: Fate)
      modifies this
      ensures View() == ShutdownOne(old(View()), worker, f)
    {
      workers := workers - {worker};
      if !f.joins {
        return;
      }
      if f.id in vms {
        var pid := vms[f.id];
        vms := vms - {f.id};
        if f.writes.state {
          states := states[f.id := if f.alive then Running(pid) else Stopped];
        }
        if f.writes.record {
          pids := pids[f.id := if f.alive then Some(pid) else None];
        }
      }
    }

    method Shutdown(fates: seq<Fate>)
      requires FatesCover(View(), fates)
      modifies this
      ensures View() == ShutdownAll(old(View()), fates)
    {
      var taken := vmctl;
      vmctl := map[];
      ghost var all := ShutdownFrom(View(), taken, fates);
      for k := 0 to |fates|
        invariant all == ShutdownFrom(View(), taken, fates[k..])
      {
        assert fates[k..][1..] == fates[k + 1..];
        assert fates[k] in fates;
        AwaitWorker(taken[fates[k].id], fates[k]);
      }
    }

    method DrainWorkerEvents(writes: seq<Writes>) returns (r: Result<nat, CreateError>)
      requires |queue| <= |writes|
      modifies this`queue, this`states, this`pids
      ensures (View(), r) == Drain(old(View()), writes, 0)
    {
      var updated := 0;
      while queue != []
        invariant updated <= |writes| && |queue| <= |writes| - updated
        invariant Drain(old(View()), writes, 0) == Drain(View(), writes[updated..], updated)
        decreases |queue|
      {
        var e, w := queue[0], writes[updated];
        assert writes[updated..][1..] == writes[updated + 1..];
        queue := queue[1..];
        if !w.state {
          return Err(MetadataError);
        }
        states := states[e.fxId := e.state];
        if e.fxId in vms {
          var runtimePid := RuntimePid(e.state);
          if !w.record {
            return Err(MetadataError);
          }
          pids := pids[e.fxId := runtimePid];
        }
        updated := updated + 1;
      }
      r := Ok(updated);
    }

    method AllocateVm(id: FxId, prepared: bool, pid: Option<Pid>, writes: bool) returns (r: Result<(), CreateError>)
      modifies this`pids
      ensures (View(), r) == Allocate(old(View()), id, prepared, pid, writes)
    {
      if !prepared {
        return Err(IoError);
      }
      if !writes {
        return Err(MetadataError);
      }
      pids := pids[id := pid];
      r := Ok(());
    }
  }
}
