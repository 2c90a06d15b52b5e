/** What every run of manager calls and worker steps keeps, including all error returns. */
module ManagerRuns {
  import opened Wrappers
  import opened States
  import opened FxIds
  import opened WorkerEvents
  import opened QemuManager

  datatype Step =
    | RegisterCall(id: FxId, probe: Result<Option<Pid>, ()>)
    | DiscoverCall(listing: Result<Option<seq<Entry>>, ()>)
    | InventoryCall(records: Result<seq<Inventory>, ()>)
    | WatchCall(watches: seq<Watch>)
    | CreateCall(id: FxId, configured: bool, bring: Bring, verified: bool)
    | StopCall(id: FxId, exits: bool, joins: bool, pair: Writes)
    | ShutdownCall(fates: seq<Fate>)
    | DrainCall(writes: seq<Writes>)
    | AllocateCall(id: FxId, prepared: bool, pid: Option<Pid>, written: bool)
    | WorkerReturns(worker: nat)
    | EventQueued(event: QueuedEvent)

  ghost predicate Allowed(m: Registry, s: Step) {
    match s
    case WatchCall(watches) => forall w | w in watches :: w.id in m.vms
    case ShutdownCall(fates) => FatesCover(m, fates)
    case DrainCall(writes) => |m.queue| <= |writes|
    case WorkerReturns(worker) => worker in m.workers
    case EventQueued(_) => |m.queue| < EVENT_CAPACITY
    case _ => true
  }

  function Apply(m: Registry, s: Step): Registry
    requires Allowed(m, s)
  {
    match s
    case RegisterCall(id, probe) => Register(m, id, probe).0
    case DiscoverCall(listing) => DiscoverRoot(m, listing).0
    case InventoryCall(records) => DiscoverStored(m, records).0
    case WatchCall(watches) => WatchAll(m, watches)
    case CreateCall(id, configured, bring, verified) => CreateVm(m, id, configured, bring, verified).0
    case StopCall(id, exits, joins, pair) => StopVm(m, id, exits, joins, pair).0
    case ShutdownCall(fates) => ShutdownAll(m, fates)
    case DrainCall(writes) => Drain(m, writes, 0).0
    case AllocateCall(id, prepared, pid, written) => Allocate(m, id, prepared, pid, written).0
    case WorkerReturns(worker) => m.(workers := m.workers - {worker})
    case EventQueued(event) => m.(queue := m.queue + [event])
  }

  ghost predicate IsRun(m: Registry, steps: seq<Step>)
    decreases |steps|
  {
    steps == [] || (Allowed(m, steps[0]) && IsRun(Apply(m, steps[0]), steps[1..]))
  }

  ghost function End(m: Registry, steps: seq<Step>): Registry
    requires IsRun(m, steps)
    decreases |steps|
  {
    if steps == [] then m else End(Apply(m, steps[0]), steps[1..])
  }

  // Registry and worker handles.

  /** Every controlled instance is registered. */
  predicate CtlRegistered(m: Registry) { m.vmctl.Keys <= m.vms.Keys }

  /** Every live worker is the one its instance's handle controls. */
  predicate WorkersControlled(m: Registry) {
    (forall w | w in m.workers :: w < m.next && m.workers[w] in m.vmctl && m.vmctl[m.workers[w]] == w)
    && (forall id | id in m.vmctl ::
          m.vmctl[id] < m.next && (m.vmctl[id] in m.workers ==> m.workers[m.vmctl[id]] == id))
  }

  predicate AtMostOneWorkerPerVm(m: Registry) {
    forall v, w | v in m.workers && w in m.workers && m.workers[v] == m.workers[w] :: v == w
  }

  /** The instance is under the control of a live worker. */
  predicate LiveControl(m: Registry, id: FxId) { id in m.vmctl && m.vmctl[id] in m.workers }

  lemma {:induction false} DiscoverKeeps(m: Registry, entries: seq<Entry>, found: seq<(FxId, Pid)>)
    ensures var m' := Discover(m, entries, found).0;
            m'.vms.Keys >= m.vms.Keys && m' == m.(vms := m'.vms)
    decreases |entries|
  {
    if entries != [] {
      var e := entries[0];
      if e.isDir.Ok? && e.isDir.value && e.name.Some? {
        var (m1, r) := Register(m, Parse(e.name.value), e.probe);
        if r.Ok? {
          var more := if r.value.Some? then found + [(Parse(e.name.value), r.value.value)] else found;
          DiscoverKeeps(m1, entries[1..], more);
        }
      } else {
        DiscoverKeeps(m, entries[1..], found);
      }
    }
  }

  lemma {:induction false} InventoryKeeps(m: Registry, records: seq<Inventory>, found: seq<(FxId, Pid)>)
    ensures var m' := DiscoverMetadata(m, records, found).0;
            m'.vms.Keys >= m.vms.Keys && m' == m.(vms := m'.vms, states := m'.states)
    decreases |records|
  {
    if records != [] {
      var r := records[0];
      match r.probe {
        case Err(_) =>
        case Ok(None) => InventoryKeeps(PutState(m, r.id, Stopped), records[1..], found);
        case Ok(Some(pid)) => InventoryKeeps(m.(vms := m.vms[r.id := pid]), records[1..], found + [(r.id, pid)]);
      }
    }
  }

  lemma DiscoverRootKeeps(m: Registry, listing: Result<Option<seq<Entry>>, ()>)
    ensures var m' := DiscoverRoot(m, listing).0;
            m'.vms.Keys >= m.vms.Keys && m' == m.(vms := m'.vms)
  {
    if listing.Ok? && listing.value.Some? {
      DiscoverKeeps(m, listing.value.value, []);
    }
  }

  lemma DiscoverStoredKeeps(m: Registry, listing: Result<seq<Inventory>, ()>)
    ensures var m' := DiscoverStored(m, listing).0;
            m'.vms.Keys >= m.vms.Keys && m' == m.(vms := m'.vms, states := m'.states)
  {
    if listing.Ok? {
      InventoryKeeps(m, listing.value, []);
    }
  }

  lemma BringingUpKeeps(m: Registry, id: FxId, b: Bring)
    requires !LiveControl(m, id)
    ensures BroughtUp(m, id, b).vms.Keys >= m.vms.Keys
    ensures CtlRegistered(m) ==> CtlRegistered(BroughtUp(m, id, b))
    ensures WorkersControlled(m) ==> WorkersControlled(BroughtUp(m, id, b))
  {
  }

  lemma {:induction false} WatchKeeps(m: Registry, watches: seq<Watch>)
    ensures CtlRegistered(m) ==> CtlRegistered(WatchAll(m, watches))
    ensures WorkersControlled(m) ==> WorkersControlled(WatchAll(m, watches))
    decreases |watches|
  {
    if watches != [] {
      var w := watches[0];
      if w.id !in m.vmctl {
        BringingUpKeeps(m, w.id, if w.attach.Some? then w.attach.value else w.start);
      }
      WatchKeeps(WatchOne(m, w.id, w.attach, w.start), watches[1..]);
    }
  }

  /** One pass reports an id as started exactly when it newly controls it, through a new worker;
      handles that were there stay. */
  lemma WatchOneStarts(m: Registry, w: Watch)
    ensures var m' := WatchOne(m, w.id, w.attach, w.start);
            (forall id :: id in m.vmctl ==> id in m'.vmctl && m'.vmctl[id] == m.vmctl[id])
            && (forall id :: id in m'.vmctl && id !in m.vmctl <==> id == w.id && Starts(m, w))
            && (forall worker | worker in m.workers && worker < m.next ::
                  worker in m'.workers && m'.workers[worker] == m.workers[worker])
            && m.next <= m'.next
            && (Starts(m, w) ==>
                  m'.vmctl[w.id] == m.next && m'.next == m.next + 1
                  && m.next in m'.workers && m'.workers[m.next] == w.id)
  {
    if w.id !in m.vmctl {
      BroughtUpStarts(m, w.id, if w.attach.Some? then w.attach.value else w.start);
    }
  }

  lemma BroughtUpStarts(m: Registry, id: FxId, b: Bring)
    ensures var m' := BroughtUp(m, id, b);
            m'.vmctl == (if b.Up? then m.vmctl[id := m.next] else m.vmctl)
            && m'.workers == (if b.Up? then m.workers[m.next := id] else m.workers)
            && m'.next == (if b.Up? then m.next + 1 else m.next)
  {
  }

  /** The started ids are, each once, exactly those that have a handle now and had none before;
      each has a live worker of its own.  Earlier handles stay as they were. */
  lemma {:induction false} StartedExactly(m: Registry, watches: seq<Watch>)
    ensures var m', started := WatchAll(m, watches), StartedIds(m, watches);
            (forall id :: id in started <==> id in m'.vmctl && id !in m.vmctl)
            && (forall i, k | 0 <= i < k < |started| :: started[i] != started[k])
            && (forall id :: id in m.vmctl ==> id in m'.vmctl && m'.vmctl[id] == m.vmctl[id])
            && (forall id | id in started ::
                  m.next <= m'.vmctl[id] && m'.vmctl[id] in m'.workers && m'.workers[m'.vmctl[id]] == id)
            && (forall worker | worker in m.workers && worker < m.next ::
                  worker in m'.workers && m'.workers[worker] == m.workers[worker])
    decreases |watches|
  {
    if watches != [] {
      var w := watches[0];
      var m1 := WatchOne(m, w.id, w.attach, w.start);
      WatchOneStarts(m, w);
      StartedExactly(m1, watches[1..]);
      var rest := StartedIds(m1, watches[1..]);
      if Starts(m, w) {
        assert StartedIds(m, watches) == [w.id] + rest && w.id !in rest;
      } else {
        assert StartedIds(m, watches) == rest;
      }
    }
  }

  // What metadata discovery finds.

  function LiveRecords(records: seq<Inventory>): seq<(FxId, Pid)> {
    if records == [] then []
    else
      var r := records[0];
      (if r.probe.Ok? && r.probe.value.Some? then [(r.id, r.probe.value.value)] else [])
         + LiveRecords(records[1..])
  }

  predicate Readable(r: Inventory) { r.probe.Ok? && (r.probe.value == None ==> r.writes) }

  predicate DeadRecord(records: seq<Inventory>, id: FxId) {
    exists r :: r in records && r.id == id && r.probe == Ok(None)
  }

  lemma DeadRecordFirst(records: seq<Inventory>, id: FxId)
    requires records != []
    ensures DeadRecord(records, id)
        <==> (records[0].id == id && records[0].probe == Ok(None)) || DeadRecord(records[1..], id)
  {
    assert records == [records[0]] + records[1..];
  }

  lemma {:induction false} InventoryFinds(m: Registry, records: seq<Inventory>, found: seq<(FxId, Pid)>)
    ensures var (m', r) := DiscoverMetadata(m, records, found);
            (r.Ok? <==> forall q | q in records :: Readable(q))
            && m'.pids == m.pids && m'.vmctl == m.vmctl
            && (r.Ok? ==> r.value == found + LiveRecords(records) && m'.vms == Registered(m.vms, LiveRecords(records)))
    decreases |records|
  {
    if records == [] {
      assert found + [] == found;
    } else {
      var r := records[0];
      assert records == [r] + records[1..];
      if Readable(r) {
        match r.probe.value {
          case None =>
            InventoryFinds(PutState(m, r.id, Stopped), records[1..], found);
            assert LiveRecords(records) == LiveRecords(records[1..]);
          case Some(pid) =>
            InventoryFinds(m.(vms := m.vms[r.id := pid]), records[1..], found + [(r.id, pid)]);
            assert LiveRecords(records) == [(r.id, pid)] + LiveRecords(records[1..]);
            assert LiveRecords(records)[1..] == LiveRecords(records[1..]);
            assert found + [(r.id, pid)] + LiveRecords(records[1..]) == found + LiveRecords(records);
        }
      }
    }
  }

  lemma {:induction false} InventoryStops(m: Registry, records: seq<Inventory>, found: seq<(FxId, Pid)>, id: FxId)
    requires DiscoverMetadata(m, records, found).1.Ok?
    ensures Stored(DiscoverMetadata(m, records, found).0, id)
            == if DeadRecord(records, id) then Some(Stopped) else Stored(m, id)
    decreases |records|
  {
    if records != [] {
      var r := records[0];
      DeadRecordFirst(records, id);
      match r.probe.value {
        case None => InventoryStops(PutState(m, r.id, Stopped), records[1..], found, id);
        case Some(pid) => InventoryStops(m.(vms := m.vms[r.id := pid]), records[1..], found + [(r.id, pid)], id);
      }
    }
  }

  lemma {:induction false} LiveRecordsExactly(records: seq<Inventory>, id: FxId, pid: Pid)
    ensures (id, pid) in LiveRecords(records) <==> exists r :: r in records && r.id == id && r.probe == Ok(Some(pid))
  {
    if records != [] {
      LiveRecordsExactly(records[1..], id, pid);
      assert records == [records[0]] + records[1..];
    }
  }

  /** Metadata discovery succeeds if and only if every record can be used; it then reports and
      registers exactly the instances whose pid is alive, and stores exactly the dead ones as
      stopped. */
  lemma InventoryExactly(m: Registry, records: seq<Inventory>)
    ensures var (m', r) := DiscoverMetadata(m, records, []);
            (r.Ok? <==> forall q | q in records :: Readable(q))
            && (r.Ok? ==>
                  (forall id, pid ::
                     (id, pid) in r.value <==> exists q :: q in records && q.id == id && q.probe == Ok(Some(pid)))
                  && m'.vms == Registered(m.vms, r.value)
                  && forall id :: Stored(m', id) == if DeadRecord(records, id) then Some(Stopped) else Stored(m, id))
  {
    InventoryFinds(m, records, []);
    assert [] + LiveRecords(records) == LiveRecords(records);
    forall id, pid: Pid
      ensures (id, pid) in LiveRecords(records) <==> exists q :: q in records && q.id == id && q.probe == Ok(Some(pid))
    {
      LiveRecordsExactly(records, id, pid);
    }
    if DiscoverMetadata(m, records, []).1.Ok? {
      forall id
        ensures Stored(DiscoverMetadata(m, records, []).0, id)
            == if DeadRecord(records, id) then Some(Stopped) else Stored(m, id)
      {
        InventoryStops(m, records, [], id);
      }
    }
  }

  predicate DistinctIds(found: seq<(FxId, Pid)>) {
    forall i, k | 0 <= i < k < |found| :: found[i].0 != found[k].0
  }

  /** Of distinct instances each is registered with its own pid, and no other changes. */
  lemma {:induction false} RegisteredExactly(vms: map<FxId, Pid>, found: seq<(FxId, Pid)>, id: FxId)
    requires DistinctIds(found)
    ensures forall pid :: (id, pid) in found ==> id in Registered(vms, found) && Registered(vms, found)[id] == pid
    ensures (forall pid :: (id, pid) !in found)
            ==> (id in Registered(vms, found) <==> id in vms) && (id in vms ==> Registered(vms, found)[id] == vms[id])
    decreases |found|
  {
    if found != [] {
      var first := found[0];
      assert found == [first] + found[1..];
      RegisteredExactly(vms[first.0 := first.1], found[1..], id);
      assert forall k | 0 <= k < |found[1..]| :: found[1..][k] == found[k + 1] && found[k + 1].0 != first.0;
    }
  }

  lemma {:induction false} DrainKeeps(m: Registry, writes: seq<Writes>, n: nat)
    requires |m.queue| <= |writes|
    ensures var m' := Drain(m, writes, n).0;
            m' == m.(queue := m'.queue, states := m'.states, pids := m'.pids)
    decreases |m.queue|
  {
    if m.queue != [] {
      var (m1, ok) := DrainOne(m, writes[0]);
      if ok {
        DrainKeeps(m1, writes[1..], n + 1);
      }
    }
  }

  /** The ids whose worker joined. */
  function JoinedIds(fates: seq<Fate>): set<FxId> {
    set f | f in fates && f.joins :: f.id
  }

  function TakenWorkers(ctl: map<FxId, nat>, fates: seq<Fate>): set<nat>
    requires forall f | f in fates :: f.id in ctl
  {
    set f | f in fates :: ctl[f.id]
  }

  lemma FirstFate(ctl: map<FxId, nat>, fates: seq<Fate>)
    requires fates != [] && forall f | f in fates :: f.id in ctl
    ensures forall f | f in fates[1..] :: f.id in ctl
    ensures JoinedIds(fates) == (if fates[0].joins then {fates[0].id} else {}) + JoinedIds(fates[1..])
    ensures fates[0].id in ctl && TakenWorkers(ctl, fates) == {ctl[fates[0].id]} + TakenWorkers(ctl, fates[1..])
  {
    assert fates == [fates[0]] + fates[1..];
  }

  lemma ShutdownOneKeeps(m: Registry, worker: nat, f: Fate)
    ensures var m' := ShutdownOne(m, worker, f);
            m'.vmctl == m.vmctl && m'.queue == m.queue && m'.next == m.next
            && m'.vms == m.vms - (if f.joins then {f.id} else {})
            && m'.workers == m.workers - {worker}
  {
    if !f.joins {
      assert m.vms - {} == m.vms;
    } else if f.id !in m.vms {
      assert m.vms - {f.id} == m.vms;
    } else {
      var m2 := m.(workers := m.workers - {worker}, vms := m.vms - {f.id});
      var m' := ShutdownOne(m, worker, f);
      assert m' == m2.(states := m'.states, pids := m'.pids);
    }
  }

  lemma {:induction false} ShutdownFromKeeps(m: Registry, ctl: map<FxId, nat>, fates: seq<Fate>)
    requires forall f | f in fates :: f.id in ctl
    ensures var m' := ShutdownFrom(m, ctl, fates);
            m'.vmctl == m.vmctl && m'.queue == m.queue && m'.next == m.next
            && m'.vms == m.vms - JoinedIds(fates)
            && m'.workers == m.workers - TakenWorkers(ctl, fates)
    decreases |fates|
  {
    if fates == [] {
      assert JoinedIds([]) == {} && TakenWorkers(ctl, []) == {};
    } else {
      FirstFate(ctl, fates);
      ShutdownOneKeeps(m, ctl[fates[0].id], fates[0]);
      ShutdownFromKeeps(ShutdownOne(m, ctl[fates[0].id], fates[0]), ctl, fates[1..]);
    }
  }

  /** Shutdown empties the handles and drops from the registry exactly the instances whose
      worker joined; afterwards no worker of this manager is alive. */
  lemma ShutdownResult(m: Registry, fates: seq<Fate>)
    requires FatesCover(m, fates)
    ensures var m' := ShutdownAll(m, fates);
            m'.vmctl == map[]
            && m'.vms == m.vms - JoinedIds(fates)
            && (WorkersControlled(m) ==> m'.workers == map[])
  {
    ShutdownFromKeeps(m.(vmctl := map[]), m.vmctl, fates);
    var m' := ShutdownAll(m, fates);
    if WorkersControlled(m) {
      forall w | w in m.workers ensures w !in m'.workers {
        var id := m.workers[w];
        var f :| f in fates && f.id == id;
        assert m.vmctl[f.id] == w;
      }
    }
  }

  /** Ok from stop removes the instance from registry and handles and ends its worker; an error
      leaves the registry as it was.  No other instance is touched. */
  lemma StopResult(m: Registry, id: FxId, exits: bool, joins: bool, pair: Writes)
    ensures var (m', r) := StopVm(m, id, exits, joins, pair);
            (r.Ok? ==> id in m.vms && id in m.vmctl && m'.vms == m.vms - {id} && m'.vmctl == m.vmctl - {id}
                       && m'.workers == m.workers - {m.vmctl[id]})
            && (r.Err? ==> m'.vms == m.vms)
            && (r.Err? && !r.error.JoinFailed? && !r.error.MetadataFailed? ==> m' == m)
            && (r.Ok? <==> id in m.vms && LiveControl(m, id) && exits && joins && pair == Writes(true, true))
            && (r == Err(NotFound) <==> id !in m.vms || id !in m.vmctl)
            && (r == Err(SendFailed) <==> id in m.vms && id in m.vmctl && m.vmctl[id] !in m.workers)
            && (r.Err? && r.error.Timeout? <==> id in m.vms && LiveControl(m, id) && !exits)
            && (r.Err? && r.error.Timeout? ==> r.error.pid == m.vms[id])
            && (r == Err(JoinFailed) <==> id in m.vms && LiveControl(m, id) && exits && !joins)
            && (r == Err(JoinFailed) || r == Err(MetadataFailed) ==>
                  m'.vmctl == m.vmctl - {id} && m'.workers == m.workers - {m.vmctl[id]} && m'.pids == m.pids
                  && m'.states == if r == Err(MetadataFailed) && pair.state then m.states[id := Stopped] else m.states)
            && (forall other | other != id ::
                  (other in m'.vmctl <==> other in m.vmctl) && (other in m.vmctl ==> m'.vmctl[other] == m.vmctl[other])
                  && (other in m'.states <==> other in m.states)
                  && (other in m.states ==> m'.states[other] == m.states[other]))
  {
  }

  lemma StepKeepsRegistry(m: Registry, s: Step)
    requires Allowed(m, s) && CtlRegistered(m)
    ensures CtlRegistered(Apply(m, s))
  {
    match s
    case DiscoverCall(listing) => DiscoverRootKeeps(m, listing);
    case InventoryCall(records) => DiscoverStoredKeeps(m, records);
    case WatchCall(watches) => WatchKeeps(m, watches);
    case DrainCall(writes) => DrainKeeps(m, writes, 0);
    case ShutdownCall(fates) => ShutdownResult(m, fates);
    case _ =>
  }

  /** Over every run each controlled instance is registered. */
  lemma {:induction false} ControlledAreRegistered(m: Registry, steps: seq<Step>)
    requires CtlRegistered(m) && IsRun(m, steps)
    ensures CtlRegistered(End(m, steps))
    decreases |steps|
  {
    if steps != [] {
      StepKeepsRegistry(m, steps[0]);
      ControlledAreRegistered(Apply(m, steps[0]), steps[1..]);
    }
  }

  /** Create is not called on an instance that a live worker controls. */
  ghost predicate CreatesOnlyUncontrolled(m: Registry, steps: seq<Step>)
    requires IsRun(m, steps)
    decreases |steps|
  {
    steps == []
    || ((steps[0].CreateCall? ==> !LiveControl(m, steps[0].id))
        && CreatesOnlyUncontrolled(Apply(m, steps[0]), steps[1..]))
  }

  lemma StopKeepsWorkers(m: Registry, id: FxId, exits: bool, joins: bool, pair: Writes)
    requires WorkersControlled(m)
    ensures WorkersControlled(StopVm(m, id, exits, joins, pair).0)
  {
    StopResult(m, id, exits, joins, pair);
  }

  lemma CreateKeepsWorkers(m: Registry, id: FxId, configured: bool, bring: Bring, verified: bool)
    requires WorkersControlled(m) && !LiveControl(m, id)
    ensures WorkersControlled(CreateVm(m, id, configured, bring, verified).0)
  {
    BringingUpKeeps(m, id, bring);
  }

  lemma StepKeepsWorkers(m: Registry, s: Step)
    requires Allowed(m, s) && WorkersControlled(m)
    requires s.CreateCall? ==> !LiveControl(m, s.id)
    ensures WorkersControlled(Apply(m, s))
  {
    match s
    case CreateCall(id, configured, bring, verified) => CreateKeepsWorkers(m, id, configured, bring, verified);
    case StopCall(id, exits, joins, pair) => StopKeepsWorkers(m, id, exits, joins, pair);
    case DiscoverCall(listing) => DiscoverRootKeeps(m, listing);
    case InventoryCall(records) => DiscoverStoredKeeps(m, records);
    case WatchCall(watches) => WatchKeeps(m, watches);
    case DrainCall(writes) => DrainKeeps(m, writes, 0);
    case ShutdownCall(fates) => ShutdownResult(m, fates);
    case _ =>
  }

  /** Main result: over every run in which create is not called on an instance that a live
      worker controls, no instance ever has two live workers. */
  lemma {:induction false} AtMostOneWorker(m: Registry, steps: seq<Step>)
    requires WorkersControlled(m) && IsRun(m, steps) && CreatesOnlyUncontrolled(m, steps)
    ensures WorkersControlled(End(m, steps)) && AtMostOneWorkerPerVm(End(m, steps))
    decreases |steps|
  {
    if steps != [] {
      StepKeepsWorkers(m, steps[0]);
      AtMostOneWorker(Apply(m, steps[0]), steps[1..]);
    }
  }

  /** The hypothesis is exact: a create that succeeds replaces the handle without stopping the
      old worker, so there are two exactly when the old one was alive. */
  lemma CreateOverControlled(m: Registry, id: FxId, configured: bool, bring: Bring, verified: bool)
    requires WorkersControlled(m) && CreateVm(m, id, configured, bring, verified).1.Ok?
    ensures AtMostOneWorkerPerVm(CreateVm(m, id, configured, bring, verified).0) <==> !LiveControl(m, id)
  {
    var m' := CreateVm(m, id, configured, bring, verified).0;
    if LiveControl(m, id) {
      var replaced := m.vmctl[id];
      assert m'.workers[replaced] == id == m'.workers[m.next] && replaced != m.next;
    } else {
      BringingUpKeeps(m, id, bring);
    }
  }

  // Stored state and stored pid.

  /** A record carries a pid exactly for running and paused states, and that state's. */
  predicate PidGoesWith(state: ExecState, pid: Option<Pid>) {
    match pid
    case None => !state.Running? && !state.Paused?
    case Some(p) => state == Running(p) || state == Paused(p)
  }

  predicate Agree(m: Registry, id: FxId) {
    id in m.states && id in m.pids ==> PidGoesWith(m.states[id], m.pids[id])
  }

  predicate Whole(b: Bring) { !b.RecordWriteFails? }

  predicate WholePair(w: Writes) { w.state ==> w.record }

  /** Writing only this state keeps the instance's state and pid in agreement. */
  predicate StateFits(m: Registry, id: FxId, state: ExecState) {
    id in m.pids ==> PidGoesWith(state, m.pids[id])
  }

  /** Each drained event of the instance is written whole, or only as a state that fits. */
  predicate DrainWholeFor(m: Registry, writes: seq<Writes>, id: FxId)
    requires |m.queue| <= |writes|
    decreases |m.queue|
  {
    m.queue == []
    || ((m.queue[0].fxId == id && writes[0].state ==>
           (if id in m.vms then writes[0].record else StateFits(m, id, m.queue[0].state)))
        && (DrainOne(m, writes[0]).1 ==> DrainWholeFor(DrainOne(m, writes[0]).0, writes[1..], id)))
  }

  /** The step writes state and record of this instance together or not at all; where the code
      writes one side only, that side fits the other.  Other instances are not restricted. */
  predicate WholeFor(m: Registry, s: Step, id: FxId) {
    match s
    case InventoryCall(Ok(records)) =>
      forall r | r in records && r.id == id && r.probe == Ok(None) && r.writes :: StateFits(m, id, Stopped)
    case WatchCall(watches) =>
      forall w | w in watches && w.id == id :: Whole(w.start) && (w.attach.Some? ==> Whole(w.attach.value))
    case CreateCall(other, _, bring, _) => other == id ==> Whole(bring)
    case StopCall(other, _, _, pair) => other == id ==> WholePair(pair)
    case ShutdownCall(fates) => forall f | f in fates && f.id == id :: f.writes.state == f.writes.record
    case DrainCall(writes) => |m.queue| <= |writes| && DrainWholeFor(m, writes, id)
    case AllocateCall(other, prepared, pid, written) =>
      other == id && prepared && written && id in m.states ==> PidGoesWith(m.states[id], pid)
    case _ => true
  }

  /** The stored side of an instance is the same in both. */
  predicate SameStored(m: Registry, m': Registry, id: FxId) {
    (id in m'.states <==> id in m.states) && (id in m.states ==> m'.states[id] == m.states[id])
    && (id in m'.pids <==> id in m.pids) && (id in m.pids ==> m'.pids[id] == m.pids[id])
  }

  lemma BringingUpAgrees(m: Registry, id: FxId, b: Bring, other: FxId)
    requires Agree(m, other) && (id == other ==> Whole(b))
    ensures Agree(Bringing(m, id, b), other) && Agree(BroughtUp(m, id, b), other)
  {
  }

  lemma {:induction false} WatchAgrees(m: Registry, watches: seq<Watch>, id: FxId)
    requires Agree(m, id) && WholeFor(m, WatchCall(watches), id)
    ensures Agree(WatchAll(m, watches), id)
    decreases |watches|
  {
    if watches != [] {
      var w := watches[0];
      assert w in watches && forall v | v in watches[1..] :: v in watches;
      if w.id !in m.vmctl {
        BringingUpAgrees(m, w.id, if w.attach.Some? then w.attach.value else w.start, id);
      }
      WatchAgrees(WatchOne(m, w.id, w.attach, w.start), watches[1..], id);
    }
  }

  lemma {:induction false} InventoryAgrees(m: Registry, records: seq<Inventory>, found: seq<(FxId, Pid)>, id: FxId)
    requires Agree(m, id) && WholeFor(m, InventoryCall(Ok(records)), id)
    ensures Agree(DiscoverMetadata(m, records, found).0, id)
    decreases |records|
  {
    if records != [] {
      var r := records[0];
      assert r in records && forall q | q in records[1..] :: q in records;
      match r.probe {
        case Err(_) =>
        case Ok(None) =>
          if r.writes {
            InventoryAgrees(PutState(m, r.id, Stopped), records[1..], found, id);
          }
        case Ok(Some(pid)) => InventoryAgrees(m.(vms := m.vms[r.id := pid]), records[1..], found + [(r.id, pid)], id);
      }
    }
  }

  lemma ShutdownOneAgrees(m: Registry, worker: nat, f: Fate, id: FxId)
    requires Agree(m, id) && (f.id == id ==> f.writes.state == f.writes.record)
    ensures Agree(ShutdownOne(m, worker, f), id)
  {
  }

  lemma {:induction false} ShutdownAgrees(m: Registry, ctl: map<FxId, nat>, fates: seq<Fate>, id: FxId)
    requires Agree(m, id) && forall f | f in fates :: f.id in ctl
    requires WholeFor(m, ShutdownCall(fates), id)
    ensures Agree(ShutdownFrom(m, ctl, fates), id)
    decreases |fates|
  {
    if fates != [] {
      assert fates[0] in fates && forall f | f in fates[1..] :: f in fates;
      ShutdownOneAgrees(m, ctl[fates[0].id], fates[0], id);
      ShutdownAgrees(ShutdownOne(m, ctl[fates[0].id], fates[0]), ctl, fates[1..], id);
    }
  }

  lemma DrainOneAgrees(m: Registry, w: Writes, id: FxId)
    requires m.queue != [] && Agree(m, id)
    requires m.queue[0].fxId == id && w.state ==> if id in m.vms then w.record else StateFits(m, id, m.queue[0].state)
    ensures Agree(DrainOne(m, w).0, id)
  {
  }

  lemma {:induction false} DrainAgrees(m: Registry, writes: seq<Writes>, n: nat, id: FxId)
    requires Agree(m, id) && |m.queue| <= |writes| && DrainWholeFor(m, writes, id)
    ensures Agree(Drain(m, writes, n).0, id)
    decreases |m.queue|
  {
    if m.queue != [] {
      DrainOneAgrees(m, writes[0], id);
      var (m1, ok) := DrainOne(m, writes[0]);
      if ok {
        DrainAgrees(m1, writes[1..], n + 1, id);
      }
    }
  }

  lemma StopAgrees(m: Registry, id: FxId, exits: bool, joins: bool, pair: Writes, other: FxId)
    requires Agree(m, other) && (id == other ==> WholePair(pair))
    ensures Agree(StopVm(m, id, exits, joins, pair).0, other)
  {
  }

  /** An allocation leaves state and pid in agreement if and only if the pid it found fits the
      state that is stored. */
  lemma AllocateAgreesExactly(m: Registry, id: FxId, pid: Option<Pid>)
    ensures Agree(Allocate(m, id, true, pid, true).0, id)
            <==> (id in m.states ==> PidGoesWith(m.states[id], pid))
  {
  }

  lemma StepAgrees(m: Registry, s: Step, id: FxId)
    requires Allowed(m, s) && Agree(m, id) && WholeFor(m, s, id)
    ensures Agree(Apply(m, s), id)
  {
    match s
    case DiscoverCall(listing) => DiscoverRootKeeps(m, listing);
    case InventoryCall(Ok(records)) => InventoryAgrees(m, records, [], id);
    case WatchCall(watches) => WatchAgrees(m, watches, id);
    case DrainCall(writes) => DrainAgrees(m, writes, 0, id);
    case ShutdownCall(fates) =>
      assert WholeFor(m.(vmctl := map[]), s, id);
      ShutdownAgrees(m.(vmctl := map[]), m.vmctl, fates, id);
    case CreateCall(other, _, bring, _) => BringingUpAgrees(m, other, bring, id);
    case StopCall(other, exits, joins, pair) => StopAgrees(m, other, exits, joins, pair, id);
    case _ => assert SameStored(m, Apply(m, s), id) || s.AllocateCall?;
  }

  ghost predicate RunWholeFor(m: Registry, steps: seq<Step>, id: FxId)
    requires IsRun(m, steps)
    decreases |steps|
  {
    steps == [] || (WholeFor(m, steps[0], id) && RunWholeFor(Apply(m, steps[0]), steps[1..], id))
  }

  /** Over every run, whatever is done to other instances, an instance's stored record carries a
      pid exactly when its stored state is running or paused, and it is that pid, as long as
      the writes to this instance are whole. */
  lemma {:induction false} StateAndPidAgree(m: Registry, steps: seq<Step>, id: FxId)
    requires Agree(m, id) && IsRun(m, steps) && RunWholeFor(m, steps, id)
    ensures Agree(End(m, steps), id)
    decreases |steps|
  {
    if steps != [] {
      StepAgrees(m, steps[0], id);
      StateAndPidAgree(Apply(m, steps[0]), steps[1..], id);
    }
  }

  /** Both sides are stored, the state is this one, and the pid agrees with it. */
  predicate Holds(m: Registry, id: FxId, state: ExecState) {
    id in m.states && m.states[id] == state && id in m.pids && Agree(m, id)
  }

  /** Whatever was stored before, a successful create, attach, start or stop stores its state with
      the pid that goes with it. */
  lemma SuccessRepairs(m: Registry, id: FxId, bring: Bring, other: Bring, pair: Writes)
    ensures CreateVm(m, id, true, bring, true).1.Ok?
            ==> bring.Up? && Holds(CreateVm(m, id, true, bring, true).0, id, Running(bring.pid))
    ensures id !in m.vmctl && bring.Up?
            ==> Holds(WatchOne(m, id, Some(bring), other), id, Running(bring.pid))
                && Holds(WatchOne(m, id, None, bring), id, Running(bring.pid))
    ensures StopVm(m, id, true, true, pair).1.Ok? ==> Holds(StopVm(m, id, true, true, pair).0, id, Stopped)
  {
  }

  /** So do the two writes of a shutdown and a drained event of a registered instance. */
  lemma WritesRepair(m: Registry, worker: nat, f: Fate, w: Writes)
    ensures f.joins && f.id in m.vms && f.writes == Writes(true, true)
            ==> Holds(ShutdownOne(m, worker, f), f.id, if f.alive then Running(m.vms[f.id]) else Stopped)
    ensures m.queue != [] && m.queue[0].fxId in m.vms && DrainOne(m, w).1
            ==> Holds(DrainOne(m, w).0, m.queue[0].fxId, m.queue[0].state)
  {
  }

  // Draining.

  /** The state of the last queued event of an instance, or else the one it had. */
  function LastState(queue: seq<QueuedEvent>, id: FxId, before: Option<ExecState>): (last: Option<ExecState>)
    ensures before.Some? ==> last.Some?
  {
    if queue == [] then before
    else LastState(queue[1..], id, if queue[0].fxId == id then Some(queue[0].state) else before)
  }

  lemma {:induction false} LastStateSplits(queue: seq<QueuedEvent>, id: FxId, before: Option<ExecState>)
    ensures LastState(queue, id, before)
            == if LastState(queue, id, None).Some? then LastState(queue, id, None) else before
  {
    if queue != [] {
      LastStateSplits(queue[1..], id, if queue[0].fxId == id then Some(queue[0].state) else before);
      LastStateSplits(queue[1..], id, if queue[0].fxId == id then Some(queue[0].state) else None);
    }
  }

  /** It is the state of the event at `k` when no later one is of the instance, and the one before
      when none is. */
  lemma {:induction false} LastStateIsLast(queue: seq<QueuedEvent>, id: FxId, before: Option<ExecState>, k: nat)
    requires forall i | k < i < |queue| :: queue[i].fxId != id
    ensures k < |queue| && queue[k].fxId == id ==> LastState(queue, id, before) == Some(queue[k].state)
    ensures (forall i | 0 <= i < |queue| :: queue[i].fxId != id) ==> LastState(queue, id, before) == before
    decreases |queue|
  {
    if queue != [] {
      var rest := queue[1..];
      assert forall i | 0 <= i < |rest| :: rest[i] == queue[i + 1];
      var next := if queue[0].fxId == id then Some(queue[0].state) else before;
      if k == 0 {
        LastStateIsLast(rest, id, next, 0);
      } else {
        LastStateIsLast(rest, id, next, k - 1);
      }
    }
  }

  function Stored(m: Registry, id: FxId): Option<ExecState> {
    if id in m.states then Some(m.states[id]) else None
  }

  lemma DrainOneStores(m: Registry, w: Writes, id: FxId)
    requires m.queue != [] && DrainOne(m, w).1
    ensures var m1, e := DrainOne(m, w).0, m.queue[0];
            m1.vms == m.vms && m1.queue == m.queue[1..]
            && Stored(m1, id) == (if e.fxId == id then Some(e.state) else Stored(m, id))
            && (if id in m.vms && e.fxId == id then id in m1.pids && PidGoesWith(e.state, m1.pids[id])
                else (id in m1.pids <==> id in m.pids) && (id in m.pids ==> m1.pids[id] == m.pids[id]))
  {
  }

  /** A drain that reports `n` has persisted the whole queue, `n` events, and stores for every
      instance the state of its last event. */
  lemma {:induction false} DrainStoresLast(m: Registry, writes: seq<Writes>, n: nat, id: FxId)
    requires |m.queue| <= |writes|
    requires Drain(m, writes, n).1.Ok?
    ensures var (m', r) := Drain(m, writes, n);
            r.value == n + |m.queue| && m'.queue == [] && Stored(m', id) == LastState(m.queue, id, Stored(m, id))
    ensures var m' := Drain(m, writes, n).0;
            if id in m.vms && LastState(m.queue, id, None).Some?
            then id in m'.pids && PidGoesWith(LastState(m.queue, id, None).value, m'.pids[id])
            else (id in m'.pids <==> id in m.pids) && (id in m.pids ==> m'.pids[id] == m.pids[id])
    decreases |m.queue|
  {
    if m.queue != [] {
      DrainOneStores(m, writes[0], id);
      DrainStoresLast(DrainOne(m, writes[0]).0, writes[1..], n + 1, id);
      LastStateSplits(m.queue[1..], id, if m.queue[0].fxId == id then Some(m.queue[0].state) else None);
    }
  }

  predicate Persists(vms: map<FxId, Pid>, e: QueuedEvent, w: Writes) {
    w.state && (e.fxId in vms ==> w.record)
  }

  /** How many events are persisted before the first that is not. */
  function FirstFailure(vms: map<FxId, Pid>, queue: seq<QueuedEvent>, writes: seq<Writes>): nat
    requires |queue| <= |writes|
  {
    if queue == [] || !Persists(vms, queue[0], writes[0]) then 0
    else 1 + FirstFailure(vms, queue[1..], writes[1..])
  }

  /** A drain succeeds exactly when every event can be persisted.  One that fails has taken the
      events before the first that cannot, and that one: it alone is lost. */
  lemma {:induction false} FailedDrainLosesOne(m: Registry, writes: seq<Writes>, n: nat)
    requires |m.queue| <= |writes|
    ensures var (m', r) := Drain(m, writes, n);
            var k := FirstFailure(m.vms, m.queue, writes);
            (r.Ok? <==> k == |m.queue|) && (r.Err? ==> k < |m.queue| && m'.queue == m.queue[k + 1..])
    decreases |m.queue|
  {
    if m.queue != [] {
      var (m1, ok) := DrainOne(m, writes[0]);
      if ok {
        FailedDrainLosesOne(m1, writes[1..], n + 1);
        var k := FirstFailure(m1.vms, m1.queue, writes[1..]);
        if k < |m1.queue| {
          assert m1.queue[k + 1..] == m.queue[k + 2..];
        }
      }
    }
  }

  /** Events queued before a successful stop are still persisted by the next drain, against an
      instance that is no longer registered.  Stored state and pid then agree exactly when the
      last of them leaves the instance without a process. */
  lemma DrainAfterStop(m: Registry, id: FxId, writes: seq<Writes>)
    requires StopVm(m, id, true, true, Writes(true, true)).1.Ok?
    requires |m.queue| <= |writes|
    requires Drain(StopVm(m, id, true, true, Writes(true, true)).0, writes, 0).1.Ok?
    ensures var m' := Drain(StopVm(m, id, true, true, Writes(true, true)).0, writes, 0).0;
            id !in m'.vms
            && Stored(m', id) == LastState(m.queue, id, Some(Stopped))
            && (Agree(m', id) <==> PidGoesWith(LastState(m.queue, id, Some(Stopped)).value, None))
  {
    var m1 := StopVm(m, id, true, true, Writes(true, true)).0;
    DrainStoresLast(m1, writes, 0, id);
    DrainKeeps(m1, writes, 0);
  }
}
