/** What each single manager call answers and leaves behind. */
module ManagerCalls {
  import opened Wrappers
  import opened States
  import opened FxIds
  import opened QemuManager
  import opened ManagerRuns

  /** The metadata that bringing an instance up leaves: nothing, the state alone, or both. */
  predicate Brought(m: Registry, m': Registry, id: FxId, b: Bring) {
    (forall other | other in m.states && other != id :: other in m'.states && m'.states[other] == m.states[other])
    && (forall other | other in m'.states && other != id :: other in m.states)
    && (forall other | other in m.pids && other != id :: other in m'.pids && m'.pids[other] == m.pids[other])
    && (forall other | other in m'.pids && other != id :: other in m.pids)
    && Stored(m', id) == (if b.RecordWriteFails? || b.FailsLate? || b.Up? then Some(Running(b.pid)) else Stored(m, id))
    && (if b.FailsLate? || b.Up? then id in m'.pids && m'.pids[id] == Some(b.pid)
        else (id in m'.pids <==> id in m.pids) && (id in m.pids ==> m'.pids[id] == m.pids[id]))
  }

  predicate SameControl(m: Registry, m': Registry) {
    m'.vms == m.vms && m'.vmctl == m.vmctl && m'.workers == m.workers && m'.queue == m.queue
  }

  /** The instance is registered with this pid and a live worker with the next number controls it;
      others keep their pids, handles and workers. */
  predicate Gained(m: Registry, m': Registry, id: FxId, pid: Pid) {
    m'.vms == m.vms[id := pid] && m'.vmctl == m.vmctl[id := m.next] && m'.workers == m.workers[m.next := id]
    && m'.next == m.next + 1 && m'.queue == m.queue
  }

  /** A watcher pass leaves a controlled instance alone, attaches to one that can be attached to,
      whatever starting would do, and starts one only when there is nothing to attach to. */
  lemma WatchExactly(m: Registry, id: FxId, attach: Option<Bring>, start: Bring)
    ensures var m' := WatchOne(m, id, attach, start);
            id in m.vmctl ==> m' == m && !Starts(m, Watch(id, attach, start))
    ensures var m' := WatchOne(m, id, attach, start);
            id !in m.vmctl && attach.Some? ==>
              Brought(m, m', id, attach.value)
              && (Starts(m, Watch(id, attach, start)) <==> attach.value.Up?)
              && (if attach.value.Up? then Gained(m, m', id, attach.value.pid) else SameControl(m, m'))
    ensures var m' := WatchOne(m, id, attach, start);
            id !in m.vmctl && attach.None? ==>
              Brought(m, m', id, start)
              && (Starts(m, Watch(id, attach, start)) <==> start.Up?)
              && (if start.Up? then Gained(m, m', id, start.pid) else SameControl(m, m'))
  {
    if attach.Some? {
      BroughtUpExactly(m, id, attach.value);
    } else {
      BroughtUpExactly(m, id, start);
    }
  }

  lemma BroughtUpExactly(m: Registry, id: FxId, b: Bring)
    ensures Brought(m, BroughtUp(m, id, b), id, b)
    ensures if b.Up? then Gained(m, BroughtUp(m, id, b), id, b.pid) else SameControl(m, BroughtUp(m, id, b))
  {
    BringingExactly(m, id, b);
  }

  lemma BringingExactly(m: Registry, id: FxId, b: Bring)
    ensures Brought(m, Bringing(m, id, b), id, b) && SameControl(m, Bringing(m, id, b))
  {
  }

  /** Create succeeds if and only if the configuration is usable, the instance came up and was
      verified; then it is registered and controlled.  Each error leaves registry, handles and
      workers as they were. */
  lemma CreateExactly(m: Registry, id: FxId, configured: bool, b: Bring, verified: bool)
    ensures var (m', r) := CreateVm(m, id, configured, b, verified);
            (r.Ok? <==> configured && b.Up? && verified)
            && (r == Err(ConfigError) <==> !configured)
            && (r == Err(SpawnError) <==> configured && !b.Up?)
            && (r == Err(VerifyError) <==> configured && b.Up? && !verified)
            && (if configured then Brought(m, m', id, b) else m' == m)
            && (if r.Ok? then Gained(m, m', id, b.pid) else SameControl(m, m'))
  {
    BringingExactly(m, id, b);
    BroughtUpExactly(m, id, b);
  }

  /** Allocation writes the record and nothing else, if directories, storage and the write were
      all right. */
  lemma AllocateExactly(m: Registry, id: FxId, prepared: bool, pid: Option<Pid>, written: bool)
    ensures var (m', r) := Allocate(m, id, prepared, pid, written);
            (r.Ok? <==> prepared && written)
            && (r == Err(IoError) <==> !prepared)
            && (r == Err(MetadataError) <==> prepared && !written)
            && m' == m.(pids := if r.Ok? then m.pids[id := pid] else m.pids)
  {
  }

  // Shutdown.

  /** What one worker's end leaves stored of its instance: each write for itself, and only if the
      worker joined and the instance is registered. */
  predicate Ended(m: Registry, m': Registry, f: Fate) {
    var counts := f.joins && f.id in m.vms;
    Stored(m', f.id) == (if counts && f.writes.state
                         then Some(if f.alive then Running(m.vms[f.id]) else Stopped) else Stored(m, f.id))
    && (if counts && f.writes.record
        then f.id in m'.pids && m'.pids[f.id] == (if f.alive then Some(m.vms[f.id]) else None)
        else (f.id in m'.pids <==> f.id in m.pids) && (f.id in m.pids ==> m'.pids[f.id] == m.pids[f.id]))
  }

  lemma ShutdownOneExactly(m: Registry, worker: nat, f: Fate, id: FxId)
    ensures var m' := ShutdownOne(m, worker, f);
            Ended(m, m', f)
            && (id != f.id ==> SameStored(m, m', id) && (id in m'.vms <==> id in m.vms)
                               && (id in m.vms ==> m'.vms[id] == m.vms[id]))
  {
    ShutdownOneStores(m, worker, f);
  }

  lemma ShutdownOneStores(m: Registry, worker: nat, f: Fate)
    ensures Ended(m, ShutdownOne(m, worker, f), f)
  {
  }

  /** A shutdown stores for each controlled instance what its own worker's end says, whatever
      happens to the others, and nothing for instances it does not control. */
  lemma {:induction false} ShutdownStores(m: Registry, ctl: map<FxId, nat>, fates: seq<Fate>, id: FxId)
    requires forall f | f in fates :: f.id in ctl
    requires forall i, j | 0 <= i < j < |fates| :: fates[i].id != fates[j].id
    ensures var m' := ShutdownFrom(m, ctl, fates);
            (forall f | f in fates && f.id == id :: Ended(m, m', f))
            && ((forall f | f in fates :: f.id != id) ==> SameStored(m, m', id))
    decreases |fates|
  {
    if fates != [] {
      var f, rest := fates[0], fates[1..];
      var m1 := ShutdownOne(m, ctl[f.id], f);
      assert fates == [f] + rest && forall i | 0 <= i < |rest| :: rest[i] == fates[i + 1];
      ShutdownOneExactly(m, ctl[f.id], f, id);
      ShutdownStores(m1, ctl, rest, id);
      var m' := ShutdownFrom(m1, ctl, rest);
      forall g | g in fates && g.id == id ensures Ended(m, m', g) {
        if g in rest {
          EndedLater(m, m1, m', g);
        } else {
          EndedStays(m, m1, m', g);
        }
      }
    }
  }

  lemma EndedStays(m: Registry, m1: Registry, m': Registry, f: Fate)
    requires Ended(m, m1, f) && SameStored(m1, m', f.id)
    ensures Ended(m, m', f)
  {
  }

  lemma EndedLater(m: Registry, m1: Registry, m': Registry, f: Fate)
    requires Ended(m1, m', f) && SameStored(m, m1, f.id)
    requires (f.id in m1.vms <==> f.id in m.vms) && (f.id in m.vms ==> m1.vms[f.id] == m.vms[f.id])
    ensures Ended(m, m', f)
  {
  }

  // Discovery of run directories.

  /** The entry names an instance. */
  predicate Names(e: Entry) { e.isDir == Ok(true) && e.name.Some? }

  /** The entry ends the scan with an error. */
  predicate Spoils(e: Entry) { e.isDir.Err? || (Names(e) && e.probe.Err?) }

  /** The live instance an entry names. */
  predicate LiveEntry(e: Entry, id: FxId, pid: Pid) {
    Names(e) && Parse(e.name.value) == id && e.probe == Ok(Some(pid))
  }

  lemma {:induction false} DiscoverFinds(m: Registry, entries: seq<Entry>, found: seq<(FxId, Pid)>)
      returns (more: seq<(FxId, Pid)>)
    ensures var (m', r) := Discover(m, entries, found);
            (r.Ok? <==> forall e | e in entries :: !Spoils(e))
            && (r.Ok? ==> r.value == found + more && m' == m.(vms := Registered(m.vms, more)))
    ensures (forall e | e in entries :: !Spoils(e)) ==>
              forall id, pid: Pid :: (id, pid) in more <==> exists e :: e in entries && LiveEntry(e, id, pid)
    decreases |entries|
  {
    if entries == [] {
      more := [];
      assert found + more == found;
    } else {
      var e := entries[0];
      assert entries == [e] + entries[1..];
      if Spoils(e) {
        more := [];
      } else if Names(e) && e.probe.value.Some? {
        var one := (Parse(e.name.value), e.probe.value.value);
        var rest := DiscoverFinds(m.(vms := m.vms[one.0 := one.1]), entries[1..], found + [one]);
        more := [one] + rest;
        assert found + [one] + rest == found + more && more[1..] == rest;
        forall id, pid: Pid
          ensures (id, pid) in more <==> (id, pid) == one || (id, pid) in rest
        {
        }
        assert LiveEntry(e, one.0, one.1);
      } else {
        more := DiscoverFinds(m, entries[1..], found);
      }
    }
  }

  /** Discovery of run directories succeeds if and only if the root is missing or every entry can be
      examined; it then reports and registers exactly the live instances that entries name. */
  lemma DiscoverExactly(m: Registry, listing: Result<Option<seq<Entry>>, ()>)
    ensures var (m', r) := DiscoverRoot(m, listing);
            (r.Ok? <==> listing.Ok? && (listing.value.Some? ==> forall e | e in listing.value.value :: !Spoils(e)))
            && (listing.Err? ==> r == Err(IoError) && m' == m)
            && (listing == Ok(None) ==> r == Ok([]) && m' == m)
            && (r.Ok? && listing.value.Some? ==>
                  m' == m.(vms := Registered(m.vms, r.value))
                  && forall id, pid: Pid :: (id, pid) in r.value
                                       <==> exists e :: e in listing.value.value && LiveEntry(e, id, pid))
  {
    if listing.Ok? && listing.value.Some? {
      var more := DiscoverFinds(m, listing.value.value, []);
      assert [] + more == more;
    }
  }

  /** The first entry that ends the scan decides the error: an unreadable directory entry is an I/O
      error, an unusable configuration its own.  What came before stays registered. */
  lemma {:induction false} DiscoverError(m: Registry, entries: seq<Entry>, found: seq<(FxId, Pid)>, k: nat)
    requires k < |entries| && Spoils(entries[k]) && forall i | 0 <= i < k :: !Spoils(entries[i])
    ensures var (m', r) := Discover(m, entries, found);
            r == Err(if entries[k].isDir.Err? then IoError else ConfigError)
            && m' == Discover(m, entries[..k], found).0
    decreases |entries|
  {
    if k > 0 {
      var e, rest := entries[0], entries[1..];
      assert entries[..k][1..] == rest[..k - 1] && entries[..k][0] == e;
      assert forall i | 0 <= i < |rest| :: rest[i] == entries[i + 1];
      if Names(e) && e.probe.value.Some? {
        var one := (Parse(e.name.value), e.probe.value.value);
        DiscoverError(m.(vms := m.vms[one.0 := one.1]), rest, found + [one], k - 1);
      } else {
        DiscoverError(m, rest, found, k - 1);
      }
    }
  }

  /** The first record that cannot be used decides the error of metadata discovery: an unusable
      configuration, or a dead instance that could not be marked as stopped. */
  lemma {:induction false} InventoryError(m: Registry, records: seq<Inventory>, found: seq<(FxId, Pid)>, k: nat)
    requires k < |records| && !Readable(records[k]) && forall i | 0 <= i < k :: Readable(records[i])
    ensures var (m', r) := DiscoverMetadata(m, records, found);
            r == Err(if records[k].probe.Err? then ConfigError else MetadataError)
            && m' == DiscoverMetadata(m, records[..k], found).0
    decreases |records|
  {
    if k > 0 {
      var q, rest := records[0], records[1..];
      assert records[..k][1..] == rest[..k - 1] && records[..k][0] == q;
      assert forall i | 0 <= i < |rest| :: rest[i] == records[i + 1];
      match q.probe.value {
        case None => InventoryError(PutState(m, q.id, Stopped), rest, found, k - 1);
        case Some(pid) => InventoryError(m.(vms := m.vms[q.id := pid]), rest, found + [(q.id, pid)], k - 1);
      }
    }
  }
}
