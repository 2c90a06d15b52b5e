/** The way of QMP events from the workers through the bounded internal queue into the stored
    state, with workers and drains interleaved (`becky-fx-qemu/src/manager.rs`).

    Each instance has one worker at a time.  A worker takes an event off its own channel, and if
    it is one it forwards, waits for a place in the shared queue. */
module EventFlow {
  import opened Wrappers
  import opened States
  import opened FxIds
  import opened WorkerEvents
  import QemuManager

  /** A QMP event with the pid its worker's handle carries. */
  datatype Arrival = Arrival(event: QmpEvent, pid: Pid)

  /** How far persisting a drained event got. */
  datatype Fate = Persisted | StateOnly | Lost

  datatype Popped = Popped(event: QueuedEvent, fate: Fate)

  datatype Drain = Idle | Draining(updated: nat) | Finished(result: Result<nat, ()>)

  /** `arrived`: every event a worker's channel accepted and the worker did not abandon.
      `pending`: those still in the channel.  `held`: the one waiting for a place.
      `popped`: everything taken off the queue so far; `begun` of it before this drain. */
  datatype Flow = Flow(
    arrived: map<FxId, seq<Arrival>>,
    pending: map<FxId, seq<Arrival>>,
    held: map<FxId, QueuedEvent>,
    queue: seq<QueuedEvent>,
    popped: seq<Popped>,
    drain: Drain,
    begun: nat,
    registered: set<FxId>,
    states: map<FxId, ExecState>)

  datatype Label =
    | Arrives(id: FxId, arrival: Arrival)
    | TakeEvent(id: FxId)
    | Enqueue(id: FxId)
    | WorkerStops(id: FxId)
    | SetRegistered(ids: set<FxId>)
    | DrainBegins
    | Pop(stateWritten: bool, recordWritten: bool)
    | DrainEnds

  function At(m: map<FxId, seq<Arrival>>, id: FxId): seq<Arrival> {
    if id in m then m[id] else []
  }

  /** The queued form of one event of an instance, if it is forwarded at all. */
  function Form(id: FxId, a: Arrival): seq<QueuedEvent> {
    match Forwarded(a.event)
    case None => []
    case Some(event) => [QueuedEvent(id, event, StateFromWorkerEvent(event, a.pid))]
  }

  function Forms(id: FxId, arrivals: seq<Arrival>): seq<QueuedEvent> {
    if arrivals == [] then [] else Form(id, arrivals[0]) + Forms(id, arrivals[1..])
  }

  predicate Enabled(f: Flow, l: Label) {
    match l
    case Arrives(_, _) => true
    case TakeEvent(id) => At(f.pending, id) != [] && id !in f.held
    case Enqueue(id) => id in f.held && |f.queue| < EVENT_CAPACITY
    case WorkerStops(id) => id !in f.held
    case SetRegistered(_) => true
    case DrainBegins => !f.drain.Draining?
    case Pop(_, _) => f.drain.Draining? && f.queue != []
    case DrainEnds => f.drain.Draining? && f.queue == []
  }

  /** What becomes of the popped event: the record is written for registered instances only. */
  function PopFate(f: Flow, stateWritten: bool, recordWritten: bool): Fate
    requires f.queue != []
  {
    if !stateWritten then Lost
    else if f.queue[0].fxId in f.registered && !recordWritten then StateOnly
    else Persisted
  }

  /** The worker takes its oldest event and holds its queued form, if it has one. */
  function Take(f: Flow, id: FxId): Flow
    requires At(f.pending, id) != []
  {
    var a := At(f.pending, id)[0];
    var f1 := f.(pending := f.pending[id := At(f.pending, id)[1..]]);
    if Form(id, a) == [] then f1 else f1.(held := f1.held[id := Form(id, a)[0]])
  }

  function Apply(f: Flow, l: Label): Flow
    requires Enabled(f, l)
  {
    match l
    case Arrives(id, a) =>
      f.(arrived := f.arrived[id := At(f.arrived, id) + [a]], pending := f.pending[id := At(f.pending, id) + [a]])
    case TakeEvent(id) => Take(f, id)
    case Enqueue(id) => f.(queue := f.queue + [f.held[id]], held := f.held - {id})
    case WorkerStops(id) =>
      var kept := |At(f.arrived, id)| - |At(f.pending, id)|;
      f.(arrived := f.arrived[id := if kept >= 0 then At(f.arrived, id)[..kept] else []],
         pending := f.pending[id := []])
    case SetRegistered(ids) => f.(registered := ids)
    case DrainBegins => f.(drain := Draining(0), begun := |f.popped|)
    case Pop(stateWritten, recordWritten) =>
      var e := f.queue[0];
      var fate := PopFate(f, stateWritten, recordWritten);
      f.(queue := f.queue[1..],
         popped := f.popped + [Popped(e, fate)],
         states := if fate.Lost? then f.states else f.states[e.fxId := e.state],
         drain := if fate.Persisted? then Draining(f.drain.updated + 1) else Finished(Err(())))
    case DrainEnds => f.(drain := Finished(Ok(f.drain.updated)))
  }

  /** A popped event has the effect of one turn of the manager's drain loop. */
  lemma PopIsDrainTurn(f: Flow, m: QemuManager.Registry, w: QemuManager.Writes)
    requires Enabled(f, Pop(w.state, w.record))
    requires f.queue == m.queue && f.states == m.states && f.registered == m.vms.Keys
    ensures var g := Apply(f, Pop(w.state, w.record));
            var (m', ok) := QemuManager.DrainOne(m, w);
            g.queue == m'.queue && g.states == m'.states && g.registered == m'.vms.Keys
            && (ok <==> g.drain.Draining?)
  {
  }

  ghost predicate IsRun(f: Flow, ls: seq<Label>)
    decreases |ls|
  {
    ls == [] || (Enabled(f, ls[0]) && IsRun(Apply(f, ls[0]), ls[1..]))
  }

  ghost function End(f: Flow, ls: seq<Label>): Flow
    requires IsRun(f, ls)
    decreases |ls|
  {
    if ls == [] then f else End(Apply(f, ls[0]), ls[1..])
  }

  predicate Initial(f: Flow) {
    f.arrived == map[] && f.pending == map[] && f.held == map[] && f.queue == [] && f.popped == []
    && f.drain == Idle && f.begun == 0 && f.states == map[]
  }

  // One instance's view.

  function Of(id: FxId, events: seq<QueuedEvent>): seq<QueuedEvent> {
    if events == [] then [] else (if events[0].fxId == id then [events[0]] else []) + Of(id, events[1..])
  }

  function EventsOf(popped: seq<Popped>): seq<QueuedEvent> {
    seq(|popped|, i requires 0 <= i < |popped| => popped[i].event)
  }

  function HeldOf(f: Flow, id: FxId): seq<QueuedEvent> {
    if id in f.held then [f.held[id]] else []
  }

  /** `line` is the queued form of everything that has arrived and is no longer pending. */
  predicate Ordered(id: FxId, line: seq<QueuedEvent>, arrived: seq<Arrival>, pending: seq<Arrival>) {
    |pending| <= |arrived|
    && arrived[|arrived| - |pending|..] == pending
    && line == Forms(id, arrived[..|arrived| - |pending|])
  }

  /** Popped, then queued, then held. */
  function Line(f: Flow, id: FxId): seq<QueuedEvent> {
    Of(id, EventsOf(f.popped)) + Of(id, f.queue) + HeldOf(f, id)
  }

  /** Popped, queued and held events are exactly the forwarded ones the worker has taken, in QMP
      order. */
  predicate InOrder(f: Flow, id: FxId) {
    Ordered(id, Line(f, id), At(f.arrived, id), At(f.pending, id))
  }

  /** The stored state is that of the last event whose state was written. */
  function LastWritten(id: FxId, popped: seq<Popped>): Option<ExecState> {
    if popped == [] then None
    else
      var last := popped[|popped| - 1];
      if last.event.fxId == id && !last.fate.Lost? then Some(last.event.state)
      else LastWritten(id, popped[..|popped| - 1])
  }

  predicate StateIsLast(f: Flow, id: FxId) {
    LastWritten(id, f.popped) == if id in f.states then Some(f.states[id]) else None
  }

  /** Everything this drain has taken was persisted, except the event it failed on. */
  predicate DrainCounts(f: Flow) {
    f.begun <= |f.popped|
    && match f.drain
       case Idle => true
       case Draining(n) => AllPersisted(f.popped, f.begun, f.begun + n) && |f.popped| == f.begun + n
       case Finished(Ok(n)) => AllPersisted(f.popped, f.begun, f.begun + n) && |f.popped| == f.begun + n
       case Finished(Err(_)) =>
         |f.popped| > f.begun && AllPersisted(f.popped, f.begun, |f.popped| - 1)
         && !f.popped[|f.popped| - 1].fate.Persisted?
  }

  predicate AllPersisted(popped: seq<Popped>, from: nat, to: nat) {
    to <= |popped| && forall i | from <= i < to :: popped[i].fate.Persisted?
  }

  ghost predicate Inv(f: Flow) {
    |f.queue| <= EVENT_CAPACITY && DrainCounts(f)
    && (forall id | id in f.held :: f.held[id].fxId == id)
    && forall id :: InOrder(f, id) && StateIsLast(f, id)
  }

  lemma Associate<T>(a: seq<T>, b: seq<T>, c: seq<T>)
    ensures a + (b + c) == (a + b) + c
  {
  }

  lemma {:induction false} OfSnoc(id: FxId, events: seq<QueuedEvent>, e: QueuedEvent)
    ensures Of(id, events + [e]) == Of(id, events) + if e.fxId == id then [e] else []
  {
    var all := events + [e];
    if events == [] {
      assert all[1..] == [];
    } else {
      OfSnoc(id, events[1..], e);
      assert all[1..] == events[1..] + [e];
    }
  }

  lemma {:induction false} FormsSnoc(id: FxId, arrivals: seq<Arrival>, a: Arrival)
    ensures Forms(id, arrivals + [a]) == Forms(id, arrivals) + Form(id, a)
  {
    var all := arrivals + [a];
    if arrivals == [] {
      assert all[1..] == [];
    } else {
      FormsSnoc(id, arrivals[1..], a);
      assert all[1..] == arrivals[1..] + [a];
      Associate(Form(id, arrivals[0]), Forms(id, arrivals[1..]), Form(id, a));
    }
  }

  lemma InitialInv(f: Flow)
    requires Initial(f)
    ensures Inv(f)
  {
    forall id ensures InOrder(f, id) && StateIsLast(f, id) {
      assert EventsOf(f.popped) == [];
    }
  }

  lemma OrderedTake(id: FxId, line: seq<QueuedEvent>, arrived: seq<Arrival>, pending: seq<Arrival>)
    requires Ordered(id, line, arrived, pending) && pending != []
    ensures Ordered(id, line + Form(id, pending[0]), arrived, pending[1..])
  {
    var n := |arrived| - |pending|;
    assert arrived[n..][0] == pending[0] && arrived[n..][1..] == arrived[n + 1..];
    FormsSnoc(id, arrived[..n], pending[0]);
    assert arrived[..n + 1] == arrived[..n] + [pending[0]];
  }

  lemma OrderedArrival(id: FxId, line: seq<QueuedEvent>, arrived: seq<Arrival>, pending: seq<Arrival>, a: Arrival)
    requires Ordered(id, line, arrived, pending)
    ensures Ordered(id, line, arrived + [a], pending + [a])
  {
    var n := |arrived| - |pending|;
    assert (arrived + [a])[n..] == arrived[n..] + [a];
    assert (arrived + [a])[..n] == arrived[..n];
  }

  lemma OrderedStop(id: FxId, line: seq<QueuedEvent>, arrived: seq<Arrival>, pending: seq<Arrival>)
    requires Ordered(id, line, arrived, pending)
    ensures Ordered(id, line, arrived[..|arrived| - |pending|], [])
  {
    var kept := arrived[..|arrived| - |pending|];
    assert kept[..|kept|] == kept && kept[|kept|..] == [];
  }

  lemma ArrivalKeepsOrder(f: Flow, id: FxId, a: Arrival)
    requires InOrder(f, id)
    ensures InOrder(Apply(f, Arrives(id, a)), id)
  {
    OrderedArrival(id, Line(f, id), At(f.arrived, id), At(f.pending, id), a);
  }

  lemma StopKeepsOrder(f: Flow, id: FxId)
    requires Enabled(f, WorkerStops(id)) && InOrder(f, id)
    ensures InOrder(Apply(f, WorkerStops(id)), id)
  {
    OrderedStop(id, Line(f, id), At(f.arrived, id), At(f.pending, id));
  }

  lemma TakeKeepsOrder(f: Flow, id: FxId)
    requires Enabled(f, TakeEvent(id)) && InOrder(f, id)
    ensures InOrder(Apply(f, TakeEvent(id)), id)
  {
    var g := Apply(f, TakeEvent(id));
    OrderedTake(id, Line(f, id), At(f.arrived, id), At(f.pending, id));
    var first := At(f.pending, id)[0];
    assert HeldOf(f, id) == [] && HeldOf(g, id) == Form(id, first);
    assert Line(g, id) == Line(f, id) + Form(id, first);
  }

  lemma EnqueueKeepsLine(f: Flow, id: FxId, other: FxId)
    requires Enabled(f, Enqueue(id)) && f.held[id].fxId == id
    ensures Line(Apply(f, Enqueue(id)), other) == Line(f, other)
  {
    var g := Apply(f, Enqueue(id));
    OfSnoc(other, f.queue, f.held[id]);
    if other != id {
      assert HeldOf(g, other) == HeldOf(f, other);
    } else {
      assert HeldOf(g, id) == [];
      Associate(Of(id, EventsOf(f.popped)), Of(id, f.queue), [f.held[id]]);
    }
  }

  lemma OfMoveHead(id: FxId, front: seq<QueuedEvent>, queue: seq<QueuedEvent>)
    requires queue != []
    ensures Of(id, front + [queue[0]]) + Of(id, queue[1..]) == Of(id, front) + Of(id, queue)
  {
    OfSnoc(id, front, queue[0]);
    var head := if queue[0].fxId == id then [queue[0]] else [];
    assert Of(id, queue) == head + Of(id, queue[1..]);
    Associate(Of(id, front), head, Of(id, queue[1..]));
  }

  lemma EventsOfSnoc(popped: seq<Popped>, p: Popped)
    ensures EventsOf(popped + [p]) == EventsOf(popped) + [p.event]
  {
  }

  lemma PopKeepsLine(f: Flow, l: Label, other: FxId)
    requires l.Pop? && Enabled(f, l)
    ensures Line(Apply(f, l), other) == Line(f, other)
  {
    EventsOfSnoc(f.popped, Popped(f.queue[0], PopFate(f, l.stateWritten, l.recordWritten)));
    OfMoveHead(other, EventsOf(f.popped), f.queue);
  }

  lemma SameViewKeepsOrder(f: Flow, g: Flow, id: FxId)
    requires InOrder(f, id) && g.popped == f.popped && g.queue == f.queue
    requires At(g.arrived, id) == At(f.arrived, id) && At(g.pending, id) == At(f.pending, id)
    requires HeldOf(g, id) == HeldOf(f, id)
    ensures InOrder(g, id)
  {
  }

  lemma AtOther(m: map<FxId, seq<Arrival>>, id: FxId, a: seq<Arrival>, other: FxId)
    requires id != other
    ensures At(m[id := a], other) == At(m, other)
  {
  }

  lemma ArrivalOfOther(f: Flow, id: FxId, a: Arrival, other: FxId)
    requires id != other && InOrder(f, other)
    ensures InOrder(Apply(f, Arrives(id, a)), other)
  {
    SameViewKeepsOrder(f, Apply(f, Arrives(id, a)), other);
  }

  lemma TakeLeavesOther(f: Flow, id: FxId, other: FxId)
    requires id != other && Enabled(f, TakeEvent(id))
    ensures var g := Take(f, id);
            g.arrived == f.arrived && g.popped == f.popped && g.queue == f.queue
            && At(g.pending, other) == At(f.pending, other) && HeldOf(g, other) == HeldOf(f, other)
  {
    AtOther(f.pending, id, At(f.pending, id)[1..], other);
  }

  lemma TakeOfOther(f: Flow, id: FxId, other: FxId)
    requires id != other && InOrder(f, other) && Enabled(f, TakeEvent(id))
    ensures InOrder(Apply(f, TakeEvent(id)), other)
  {
    TakeLeavesOther(f, id, other);
    SameViewKeepsOrder(f, Take(f, id), other);
  }

  lemma StopOfOther(f: Flow, id: FxId, other: FxId)
    requires id != other && InOrder(f, other) && Enabled(f, WorkerStops(id))
    ensures InOrder(Apply(f, WorkerStops(id)), other)
  {
    SameViewKeepsOrder(f, Apply(f, WorkerStops(id)), other);
  }

  /** Steps of other instances leave an instance's line alone. */
  lemma OthersKeepOrder(f: Flow, l: Label, other: FxId)
    requires Enabled(f, l) && InOrder(f, other)
    requires l.Arrives? || l.TakeEvent? || l.WorkerStops?
    requires l.id != other
    ensures InOrder(Apply(f, l), other)
  {
    match l
    case Arrives(id, a) => ArrivalOfOther(f, id, a, other);
    case TakeEvent(id) => TakeOfOther(f, id, other);
    case WorkerStops(id) => StopOfOther(f, id, other);
  }

  lemma OwnStepKeepsOrder(f: Flow, l: Label)
    requires Enabled(f, l) && (l.Arrives? || l.TakeEvent? || l.WorkerStops?) && InOrder(f, l.id)
    ensures InOrder(Apply(f, l), l.id)
  {
    match l
    case Arrives(id, a) => ArrivalKeepsOrder(f, id, a);
    case TakeEvent(id) => TakeKeepsOrder(f, id);
    case WorkerStops(id) => StopKeepsOrder(f, id);
  }

  lemma PopKeepsState(f: Flow, l: Label, other: FxId)
    requires l.Pop? && Enabled(f, l) && StateIsLast(f, other)
    ensures StateIsLast(Apply(f, l), other)
  {
    var g := Apply(f, l);
    assert g.popped[..|g.popped| - 1] == f.popped;
  }

  lemma StepKeepsCount(f: Flow, l: Label)
    requires Enabled(f, l) && DrainCounts(f)
    ensures DrainCounts(Apply(f, l))
  {
  }

  lemma StepKeepsHeld(f: Flow, l: Label)
    requires Enabled(f, l) && forall id | id in f.held :: f.held[id].fxId == id
    ensures forall id | id in Apply(f, l).held :: Apply(f, l).held[id].fxId == id
  {
  }

  lemma StepKeepsInv(f: Flow, l: Label)
    requires Inv(f) && Enabled(f, l)
    ensures Inv(Apply(f, l))
  {
    var g := Apply(f, l);
    StepKeepsCount(f, l);
    StepKeepsHeld(f, l);
    forall id ensures InOrder(g, id) && StateIsLast(g, id) {
      assert InOrder(f, id) && StateIsLast(f, id);
      StepKeepsOrder(f, l, id);
      StepKeepsState(f, l, id);
    }
  }

  lemma StepKeepsOrder(f: Flow, l: Label, id: FxId)
    requires Enabled(f, l) && InOrder(f, id)
    requires l.Enqueue? ==> f.held[l.id].fxId == l.id
    ensures InOrder(Apply(f, l), id)
  {
    if l.Arrives? || l.TakeEvent? || l.WorkerStops? {
      if l.id == id {
        OwnStepKeepsOrder(f, l);
      } else {
        OthersKeepOrder(f, l, id);
      }
    } else if l.Enqueue? {
      EnqueueKeepsLine(f, l.id, id);
    } else if l.Pop? {
      PopKeepsLine(f, l, id);
    }
  }

  lemma StepKeepsState(f: Flow, l: Label, id: FxId)
    requires Enabled(f, l) && StateIsLast(f, id)
    ensures StateIsLast(Apply(f, l), id)
  {
    if l.Pop? {
      PopKeepsState(f, l, id);
    }
  }

  lemma {:induction false} RunKeepsInv(f: Flow, ls: seq<Label>)
    requires Inv(f) && IsRun(f, ls)
    ensures Inv(End(f, ls))
    decreases |ls|
  {
    if ls != [] {
      StepKeepsInv(f, ls[0]);
      RunKeepsInv(Apply(f, ls[0]), ls[1..]);
    }
  }

  /** Main result, for every interleaving: each instance's drained events followed by its queued
      ones keep QMP order, missing nothing a worker has taken but what it still holds, and the
      stored state is that of the last event written. */
  lemma EventsKeepOrder(f: Flow, ls: seq<Label>, id: FxId)
    requires Initial(f) && IsRun(f, ls)
    ensures var g := End(f, ls);
            InOrder(g, id) && |g.queue| <= EVENT_CAPACITY
            && Of(id, EventsOf(g.popped)) + Of(id, g.queue) <= Forms(id, At(g.arrived, id))
            && (if id in g.states then Some(g.states[id]) else None) == LastWritten(id, g.popped)
  {
    InitialInv(f);
    RunKeepsInv(f, ls);
    var g := End(f, ls);
    assert InOrder(g, id) && StateIsLast(g, id);
    var a, p := At(g.arrived, id), At(g.pending, id);
    var taken := a[..|a| - |p|];
    FormsPrefix(id, taken, p);
    assert taken + p == a;
    assert Of(id, EventsOf(g.popped)) + Of(id, g.queue) <= Line(g, id) <= Forms(id, a);
  }

  lemma {:induction false} FormsPrefix(id: FxId, a: seq<Arrival>, b: seq<Arrival>)
    ensures Forms(id, a + b) == Forms(id, a) + Forms(id, b)
  {
    if a == [] {
      assert a + b == b;
    } else {
      FormsPrefix(id, a[1..], b);
      assert (a + b)[1..] == a[1..] + b;
      Associate(Form(id, a[0]), Forms(id, a[1..]), Forms(id, b));
    }
  }

  /** A drain that reports `n` took exactly `n` events off the queue and persisted them all; one
      that fails persisted all it took but the last. */
  lemma DrainReports(f: Flow, ls: seq<Label>)
    requires Initial(f) && IsRun(f, ls) && End(f, ls).drain.Finished?
    ensures var g := End(f, ls);
            match g.drain.result
            case Ok(n) => |g.popped| == g.begun + n && AllPersisted(g.popped, g.begun, |g.popped|)
            case Err(_) => |g.popped| > g.begun && AllPersisted(g.popped, g.begun, |g.popped| - 1)
                           && !g.popped[|g.popped| - 1].fate.Persisted?
  {
    InitialInv(f);
    RunKeepsInv(f, ls);
  }

  predicate NoFailedPop(ls: seq<Label>) {
    forall l | l in ls && l.Pop? :: l.stateWritten && l.recordWritten
  }

  lemma {:induction false} PopsPersist(f: Flow, ls: seq<Label>)
    requires IsRun(f, ls) && NoFailedPop(ls) && AllPersisted(f.popped, 0, |f.popped|)
    ensures AllPersisted(End(f, ls).popped, 0, |End(f, ls).popped|)
    decreases |ls|
  {
    if ls != [] {
      assert ls[0] in ls && forall l | l in ls[1..] :: l in ls;
      PopsPersist(Apply(f, ls[0]), ls[1..]);
    }
  }

  /** While no write fails, the persisted events themselves are, per instance, a prefix of the
      forwarded QMP events. */
  lemma PersistedKeepOrder(f: Flow, ls: seq<Label>, id: FxId)
    requires Initial(f) && IsRun(f, ls) && NoFailedPop(ls)
    ensures var g := End(f, ls);
            AllPersisted(g.popped, 0, |g.popped|)
            && Of(id, EventsOf(g.popped)) <= Forms(id, At(g.arrived, id))
  {
    PopsPersist(f, ls);
    EventsKeepOrder(f, ls, id);
  }

  /** What was persisted of an instance. */
  function PersistedOf(id: FxId, popped: seq<Popped>): seq<QueuedEvent> {
    if popped == [] then []
    else
      (if popped[0].event.fxId == id && popped[0].fate.Persisted? then [popped[0].event] else [])
      + PersistedOf(id, popped[1..])
  }

  predicate Subsequence<T(==)>(s: seq<T>, t: seq<T>) {
    s == [] || (t != [] && ((s[0] == t[0] && Subsequence(s[1..], t[1..])) || Subsequence(s, t[1..])))
  }

  lemma {:induction false} PersistedWithin(id: FxId, popped: seq<Popped>, queue: seq<QueuedEvent>,
                                           more: seq<QueuedEvent>)
    requires Subsequence(queue, more)
    ensures Subsequence(PersistedOf(id, popped) + queue, Of(id, EventsOf(popped)) + more)
  {
    if popped == [] {
      assert EventsOf(popped) == [];
      assert PersistedOf(id, popped) + queue == queue && Of(id, EventsOf(popped)) + more == more;
    } else {
      PersistedWithin(id, popped[1..], queue, more);
      var first := popped[0].event;
      assert EventsOf(popped)[1..] == EventsOf(popped[1..]);
      var rest := Of(id, EventsOf(popped[1..])) + more;
      if first.fxId == id {
        assert Of(id, EventsOf(popped)) + more == [first] + rest;
        assert ([first] + rest)[1..] == rest;
        if popped[0].fate.Persisted? {
          var kept := PersistedOf(id, popped[1..]) + queue;
          assert PersistedOf(id, popped) + queue == [first] + kept;
          assert ([first] + kept)[1..] == kept;
        } else {
          assert PersistedOf(id, popped) == PersistedOf(id, popped[1..]);
        }
      } else {
        assert Of(id, EventsOf(popped)) == Of(id, EventsOf(popped[1..]));
        assert PersistedOf(id, popped) == PersistedOf(id, popped[1..]);
      }
    }
  }

  lemma {:induction false} PrefixWithin<T>(s: seq<T>, t: seq<T>)
    requires s <= t
    ensures Subsequence(s, t)
    decreases |s|
  {
    if s != [] {
      PrefixWithin(s[1..], t[1..]);
    }
  }

  lemma SplitPrefix<T>(a: seq<T>, b: seq<T>, all: seq<T>) returns (more: seq<T>)
    requires a + b <= all
    ensures all == a + more && b <= more
  {
    more := all[|a|..];
    assert all[..|a + b|] == a + b;
    assert all[..|a + b|][..|a|] == a;
    assert all[..|a + b|][|a|..] == b;
  }

  /** Whatever fails, an instance's persisted events followed by its queued ones are taken from
      the forwarded QMP events without changing their order. */
  lemma FailuresKeepOrder(f: Flow, ls: seq<Label>, id: FxId)
    requires Initial(f) && IsRun(f, ls)
    ensures var g := End(f, ls);
            Subsequence(PersistedOf(id, g.popped) + Of(id, g.queue), Forms(id, At(g.arrived, id)))
  {
    EventsKeepOrder(f, ls, id);
    var g := End(f, ls);
    var all, drained := Forms(id, At(g.arrived, id)), Of(id, EventsOf(g.popped));
    var more := SplitPrefix(drained, Of(id, g.queue), all);
    PrefixWithin(Of(id, g.queue), more);
    PersistedWithin(id, g.popped, Of(id, g.queue), more);
  }
}
