/** `QemuManager::shutdown` together with the workers it waits for (`becky-fx-qemu/src/manager.rs`).

    While it sends Shutdown to each worker and then joins them one by one, the manager is not
    available to drain the internal event queue that all workers share.  A worker that has taken
    a QMP event waits for a place in that queue before it looks at its commands again. */
module ManagerShutdown {
  import opened WorkerShutdown
  import WorkerEvents

  datatype Manager = SendingTo(next: nat) | JoiningOf(next: nat) | Gone

  /** `events`: the length of the internal queue.  `held[i]`: worker `i` waits for a place in it. */
  datatype Joint = Joint(workers: seq<State>, held: seq<bool>, events: nat, manager: Manager)

  datatype Move =
    | Own(i: nat, step: Label)
    | Receives(i: nat)
    | Delivers(i: nat)
    | SendsShutdown
    | StartsJoining
    | Joins
    | Returns

  predicate IsWorker(j: Joint, i: nat) { i < |j.workers| && |j.held| == |j.workers| }

  /** A worker's steps other than the manager's sends; a worker that holds an event does not
      return to its select loop. */
  predicate OwnStep(j: Joint, i: nat, l: Label) {
    IsWorker(j, i) && !l.ManagerSends? && ((l.Take? || l.EventsClosed?) ==> !j.held[i])
  }

  predicate CanMove(interval: nat, j: Joint, m: Move) {
    match m
    case Own(i, l) => OwnStep(j, i, l) && Enabled(interval, j.workers[i], l)
    case Receives(i) => IsWorker(j, i) && j.workers[i].phase.Serving? && !j.held[i]
    case Delivers(i) => IsWorker(j, i) && j.held[i] && j.events < WorkerEvents.EVENT_CAPACITY
    case SendsShutdown =>
      j.manager.SendingTo? && j.manager.next < |j.workers|
      && (j.workers[j.manager.next].phase.Returned?
          || Enabled(interval, j.workers[j.manager.next], ManagerSends(Shutdown)))
    case StartsJoining => j.manager == SendingTo(|j.workers|)
    case Joins =>
      j.manager.JoiningOf? && j.manager.next < |j.workers| && j.workers[j.manager.next].phase.Returned?
    case Returns => j.manager == JoiningOf(|j.workers|)
  }

  /** A send to a worker that has returned fails and is ignored. */
  function Moved(interval: nat, j: Joint, m: Move): Joint
    requires CanMove(interval, j, m)
  {
    match m
    case Own(i, l) => j.(workers := j.workers[i := Apply(interval, j.workers[i], l)])
    case Receives(i) => j.(held := j.held[i := true])
    case Delivers(i) => j.(held := j.held[i := false], events := j.events + 1)
    case SendsShutdown =>
      var k := j.manager.next;
      j.(manager := SendingTo(k + 1),
         workers := if j.workers[k].phase.Returned? then j.workers
                    else j.workers[k := Apply(interval, j.workers[k], ManagerSends(Shutdown))])
    case StartsJoining => j.(manager := JoiningOf(0))
    case Joins => j.(manager := JoiningOf(j.manager.next + 1))
    case Returns => j.(manager := Gone)
  }

  ghost predicate IsCourse(interval: nat, j: Joint, ms: seq<Move>)
    decreases |ms|
  {
    ms == [] || (CanMove(interval, j, ms[0]) && IsCourse(interval, Moved(interval, j, ms[0]), ms[1..]))
  }

  ghost function Outcome(interval: nat, j: Joint, ms: seq<Move>): Joint
    requires IsCourse(interval, j, ms)
    decreases |ms|
  {
    if ms == [] then j else Outcome(interval, Moved(interval, j, ms[0]), ms[1..])
  }

  /** Some schedule lets the shutdown return. */
  ghost predicate CanReturn(interval: nat, j: Joint) {
    exists ms :: IsCourse(interval, j, ms) && Outcome(interval, j, ms).manager.Gone?
  }

  // What every course keeps.

  /** A worker that serves or is on its way out, with at most one Shutdown in its queue, and that
      only if `sent`. */
  predicate WorkerInv(w: State, sent: bool) {
    |w.queue| <= CAPACITY && |w.tickers| <= CAPACITY
    && (w.phase.Serving? || Shape(w))
    && (!sent ==> Shutdown !in w.queue && !w.taken)
    && (w.phase.Serving? ==> !w.taken && (sent ==> Shutdown in w.queue))
  }

  predicate SentTo(m: Manager, i: nat) {
    match m
    case SendingTo(k) => i < k
    case _ => true
  }

  /** Only a serving worker holds an event, and whoever has been joined has returned. */
  predicate JointInv(j: Joint) {
    |j.held| == |j.workers| && j.events <= WorkerEvents.EVENT_CAPACITY
    && (forall i | 0 <= i < |j.workers| :: WorkerInv(j.workers[i], SentTo(j.manager, i)))
    && (forall i | 0 <= i < |j.workers| :: j.held[i] ==> j.workers[i].phase.Serving?)
    && ManagerInv(j)
  }

  predicate ManagerInv(j: Joint) {
    match j.manager
    case SendingTo(k) => k <= |j.workers|
    case JoiningOf(k) => k <= |j.workers| && forall i | 0 <= i < k :: j.workers[i].phase.Returned?
    case Gone => forall i | 0 <= i < |j.workers| :: j.workers[i].phase.Returned?
  }

  /** Commands behind the first Shutdown: nobody will take them. */
  function Behind(queue: seq<Command>): nat {
    if queue == [] then 0 else if queue[0].Shutdown? then |queue| - 1 else Behind(queue[1..])
  }

  /** The commands that the worker leaves in its queue, and the tickers that wait to add one, fit
      the queue. */
  predicate WorkerFits(w: State) {
    if !w.phase.Serving? then Fits(w)
    else Shutdown in w.queue ==> Behind(w.queue) + Sum(w.tickers, Waits) <= CAPACITY
  }

  function Holds(held: bool): nat { if held then 1 else 0 }

  /** Every event that a worker holds will find a place in the internal queue. */
  predicate EventsFit(j: Joint) {
    j.events + Sum(j.held, Holds) <= WorkerEvents.EVENT_CAPACITY
  }

  predicate AllFit(j: Joint) {
    forall i | 0 <= i < |j.workers| :: WorkerFits(j.workers[i])
  }

  // One worker's part.

  lemma {:induction false} BehindSnoc(queue: seq<Command>, c: Command)
    ensures Shutdown in queue ==> Behind(queue + [c]) == Behind(queue) + 1
    ensures Shutdown !in queue ==> Behind(queue + [c]) == 0
  {
    var all := queue + [c];
    if queue != [] {
      assert all[1..] == queue[1..] + [c];
      BehindSnoc(queue[1..], c);
    } else {
      assert all[1..] == [];
    }
  }

  lemma {:induction false} BehindIsLess(queue: seq<Command>)
    ensures Behind(queue) <= |queue|
  {
    if queue != [] {
      BehindIsLess(queue[1..]);
    }
  }

  lemma {:induction false} SumBound(ts: seq<Ticker>)
    ensures Sum(ts, Waits) <= |ts|
  {
    if ts != [] {
      SumBound(ts[1..]);
    }
  }

  lemma OwnStepKeepsShape(interval: nat, w: State, l: Label)
    requires Enabled(interval, w, l) && Shape(w)
    ensures Shape(Apply(interval, w, l))
  {
  }

  lemma OwnStepKeepsInv(interval: nat, w: State, sent: bool, l: Label)
    requires WorkerInv(w, sent) && Enabled(interval, w, l) && !l.ManagerSends?
    ensures WorkerInv(Apply(interval, w, l), sent)
    ensures w.phase.Returned? ==> Apply(interval, w, l).phase.Returned?
  {
    if !w.phase.Serving? {
      OwnStepKeepsShape(interval, w, l);
    }
  }

  /** What a worker cannot place it can never place. */
  lemma OwnStepKeepsMisfit(interval: nat, w: State, l: Label)
    requires Enabled(interval, w, l) && !WorkerFits(w)
    ensures !WorkerFits(Apply(interval, w, l))
  {
    var t := Apply(interval, w, l);
    BehindIsLess(w.queue);
    if l.Elapse? || l.Fire? || l.Enqueue? || l.Break? {
      SumUpdate(w.tickers, l.i, t.tickers[l.i], Waits);
    }
    if l.Enqueue? {
      BehindSnoc(w.queue, Tick(l.i));
    } else if l.ManagerSends? {
      BehindSnoc(w.queue, l.cmd);
    }
  }

  /** A serving worker that holds nothing takes its next command. */
  lemma TakeProgress(interval: nat, w: State)
    requires WorkerInv(w, Shutdown in w.queue) && WorkerFits(w) && w.phase.Serving? && w.queue != []
    ensures Enabled(interval, w, Take)
    ensures var t := Apply(interval, w, Take);
            WorkerInv(t, Shutdown in w.queue) && WorkerFits(t) && WorkerMeasure(t) < WorkerMeasure(w)
  {
    assert w.queue == [w.queue[0]] + w.queue[1..];
  }

  function WorkerMeasure(w: State): nat {
    Measure(w) + if w.phase.Serving? then |w.queue| else 0
  }

  // The workers and the manager together.

  lemma CourseKeepsInv(interval: nat, j: Joint, m: Move)
    requires JointInv(j) && CanMove(interval, j, m)
    ensures JointInv(Moved(interval, j, m))
  {
    match m
    case Own(i, l) =>
      OwnStepKeepsInv(interval, j.workers[i], SentTo(j.manager, i), l);
    case SendsShutdown =>
      var w := j.workers[j.manager.next];
      if !w.phase.Returned? {
        assert Shutdown in (w.queue + [Shutdown]);
      }
    case _ =>
  }

  lemma EventsMisfitStays(interval: nat, j: Joint, m: Move)
    requires JointInv(j) && CanMove(interval, j, m) && !EventsFit(j)
    ensures !EventsFit(Moved(interval, j, m))
  {
    if m.Receives? || m.Delivers? {
      SumUpdate(j.held, m.i, m.Receives?, Holds);
    }
  }

  lemma WorkerMisfitStays(interval: nat, j: Joint, m: Move, i: nat)
    requires JointInv(j) && CanMove(interval, j, m) && i < |j.workers| && !WorkerFits(j.workers[i])
    ensures !WorkerFits(Moved(interval, j, m).workers[i])
  {
    if m.Own? && m.i == i {
      OwnStepKeepsMisfit(interval, j.workers[i], m.step);
    } else if m.SendsShutdown? && j.manager.next == i && !j.workers[i].phase.Returned? {
      OwnStepKeepsMisfit(interval, j.workers[i], ManagerSends(Shutdown));
    }
  }

  lemma {:induction false} SomeoneHolds(held: seq<bool>) returns (i: nat)
    requires Sum(held, Holds) > 0
    ensures i < |held| && held[i]
  {
    if held[0] {
      i := 0;
    } else {
      i := SomeoneHolds(held[1..]);
      i := i + 1;
    }
  }

  lemma ReturnedFits(w: State, sent: bool)
    requires WorkerInv(w, sent) && w.phase.Returned?
    ensures WorkerFits(w)
  {
    DoneDoNotWait(w.tickers);
  }

  lemma GoneFits(j: Joint)
    requires JointInv(j) && j.manager.Gone?
    ensures EventsFit(j) && AllFit(j)
  {
    if Sum(j.held, Holds) > 0 {
      var i := SomeoneHolds(j.held);
      assert false;
    }
    forall i | 0 <= i < |j.workers| ensures WorkerFits(j.workers[i]) {
      ReturnedFits(j.workers[i], true);
    }
  }

  lemma {:induction false} ReturningMeansFit(interval: nat, j: Joint, ms: seq<Move>)
    requires JointInv(j) && IsCourse(interval, j, ms) && Outcome(interval, j, ms).manager.Gone?
    ensures EventsFit(j) && AllFit(j)
    decreases |ms|
  {
    if ms == [] {
      GoneFits(j);
    } else {
      CourseKeepsInv(interval, j, ms[0]);
      ReturningMeansFit(interval, Moved(interval, j, ms[0]), ms[1..]);
      if !EventsFit(j) {
        EventsMisfitStays(interval, j, ms[0]);
      }
      forall i | 0 <= i < |j.workers| ensures WorkerFits(j.workers[i]) {
        if !WorkerFits(j.workers[i]) {
          WorkerMisfitStays(interval, j, ms[0], i);
        }
      }
    }
  }

  // A schedule that returns.

  function ManagerRank(m: Manager, n: nat): nat {
    match m
    case SendingTo(k) => if k <= n then 2 * (n - k) + n + 3 else 0
    case JoiningOf(k) => if k <= n then n - k + 1 else 0
    case Gone => 0
  }

  function JointMeasure(j: Joint): nat {
    Sum(j.workers, WorkerMeasure) + Sum(j.held, Holds) + ManagerRank(j.manager, |j.workers|)
  }

  /** One worker's step on the way to its end. */
  lemma WorkerProgress(interval: nat, w: State, sent: bool) returns (l: Label)
    requires WorkerInv(w, sent) && WorkerFits(w) && !w.phase.Returned?
    requires w.phase.Serving? ==> w.queue != []
    ensures Enabled(interval, w, l) && !l.ManagerSends? && !l.EventsClosed?
    ensures var t := Apply(interval, w, l);
            WorkerInv(t, sent) && WorkerFits(t) && WorkerMeasure(t) < WorkerMeasure(w)
  {
    if w.phase.Serving? {
      l := Take;
      TakeProgress(interval, w);
    } else {
      l := FittingProgress(interval, w);
    }
    OwnStepKeepsInv(interval, w, sent, l);
  }

  lemma OwnProgress(interval: nat, j: Joint, i: nat) returns (m: Move)
    requires JointInv(j) && EventsFit(j) && AllFit(j) && i < |j.workers| && !j.held[i]
    requires !j.workers[i].phase.Returned? && (j.workers[i].phase.Serving? ==> j.workers[i].queue != [])
    ensures CanMove(interval, j, m)
    ensures var t := Moved(interval, j, m); EventsFit(t) && AllFit(t) && JointMeasure(t) < JointMeasure(j)
    ensures m.Own? && m.i == i
  {
    var l := WorkerProgress(interval, j.workers[i], SentTo(j.manager, i));
    m := Own(i, l);
    SumUpdate(j.workers, i, Apply(interval, j.workers[i], l), WorkerMeasure);
  }

  lemma SendProgress(interval: nat, j: Joint)
    requires JointInv(j) && EventsFit(j) && AllFit(j) && CanMove(interval, j, SendsShutdown)
    requires var w := j.workers[j.manager.next]; w.phase.Returned? || w.phase.Serving?
    ensures var t := Moved(interval, j, SendsShutdown);
            EventsFit(t) && AllFit(t) && JointMeasure(t) < JointMeasure(j)
  {
    var k := j.manager.next;
    var w := j.workers[k];
    if !w.phase.Returned? {
      var t := Apply(interval, w, ManagerSends(Shutdown));
      BehindSnoc(w.queue, Shutdown);
      SumBound(w.tickers);
      SumUpdate(j.workers, k, t, WorkerMeasure);
    }
  }

  lemma DeliverProgress(interval: nat, j: Joint) returns (m: Move)
    requires JointInv(j) && EventsFit(j) && AllFit(j) && Sum(j.held, Holds) > 0
    ensures CanMove(interval, j, m)
    ensures var t := Moved(interval, j, m); EventsFit(t) && AllFit(t) && JointMeasure(t) < JointMeasure(j)
    ensures m.Delivers?
  {
    var i := SomeoneHolds(j.held);
    m := Delivers(i);
    SumUpdate(j.held, i, false, Holds);
  }

  lemma NobodyHolds(held: seq<bool>, i: nat)
    requires Sum(held, Holds) == 0 && i < |held|
    ensures !held[i]
  {
    SumUpdate(held, i, false, Holds);
  }

  /** While everything fits, some move brings the shutdown nearer to its return. */
  lemma ShutdownProgress(interval: nat, j: Joint) returns (m: Move)
    requires JointInv(j) && EventsFit(j) && AllFit(j) && !j.manager.Gone?
    ensures CanMove(interval, j, m)
    ensures var t := Moved(interval, j, m); EventsFit(t) && AllFit(t) && JointMeasure(t) < JointMeasure(j)
    ensures m.Own? || m.SendsShutdown? ==> j.manager.next < |j.workers| && (m.Own? ==> m.i == j.manager.next)
  {
    if Sum(j.held, Holds) > 0 {
      m := DeliverProgress(interval, j);
    } else if j.manager.next == |j.workers| {
      m := if j.manager.SendingTo? then StartsJoining else Returns;
    } else {
      var k := j.manager.next;
      var w := j.workers[k];
      NobodyHolds(j.held, k);
      if w.phase.Returned? {
        if j.manager.SendingTo? {
          m := SendsShutdown;
          SendProgress(interval, j);
        } else {
          m := Joins;
        }
      } else if j.manager.SendingTo? && w.phase.Serving? && |w.queue| < CAPACITY {
        m := SendsShutdown;
        SendProgress(interval, j);
      } else {
        m := OwnProgress(interval, j, k);
      }
    }
  }

  lemma {:induction false} FittingReturns(interval: nat, j: Joint)
    requires JointInv(j) && EventsFit(j) && AllFit(j)
    ensures CanReturn(interval, j)
    decreases JointMeasure(j)
  {
    if j.manager.Gone? {
      assert IsCourse(interval, j, []) && Outcome(interval, j, []) == j;
    } else {
      var m := ShutdownProgress(interval, j);
      CourseKeepsInv(interval, j, m);
      var t := Moved(interval, j, m);
      FittingReturns(interval, t);
      var ms :| IsCourse(interval, t, ms) && Outcome(interval, t, ms).manager.Gone?;
      var all := [m] + ms;
      assert all[1..] == ms;
      assert IsCourse(interval, j, all) && Outcome(interval, j, all) == Outcome(interval, t, ms);
    }
  }

  /** Main result: at any point of a shutdown it can still return if and only if the queued events
      and those the workers hold fit the internal queue, and each worker's command queue has
      places for the tickers that wait for one. */
  lemma ShutdownReturnsExactly(interval: nat, j: Joint)
    requires JointInv(j)
    ensures CanReturn(interval, j) <==> EventsFit(j) && AllFit(j)
  {
    if EventsFit(j) && AllFit(j) {
      FittingReturns(interval, j);
    } else {
      forall ms | IsCourse(interval, j, ms) ensures !Outcome(interval, j, ms).manager.Gone? {
        if Outcome(interval, j, ms).manager.Gone? {
          ReturningMeansFit(interval, j, ms);
        }
      }
    }
  }

  /** A shutdown about to begin over workers that serve. */
  predicate Begins(j: Joint) {
    j.manager == SendingTo(0) && |j.held| == |j.workers| && j.events <= WorkerEvents.EVENT_CAPACITY
    && forall i | 0 <= i < |j.workers| ::
         ServingInv(j.workers[i]) && Shutdown !in j.workers[i].queue && |j.workers[i].tickers| <= CAPACITY
  }

  /** A shutdown that is about to begin can return if and only if the queued and the held events
      fit the 32 places of the internal queue. */
  lemma BeginningReturnsExactly(interval: nat, j: Joint)
    requires Begins(j)
    ensures CanReturn(interval, j) <==> j.events + Sum(j.held, Holds) <= 32
  {
    assert JointInv(j) && AllFit(j);
    ShutdownReturnsExactly(interval, j);
  }

  /** For one worker, as `stop` waits for it: its own event is the only one held. */
  lemma OneWorkerReturnsExactly(interval: nat, j: Joint)
    requires Begins(j) && |j.workers| == 1
    ensures CanReturn(interval, j) <==> j.events + (if j.held[0] then 1 else 0) <= 32
  {
    BeginningReturnsExactly(interval, j);
    assert j.held == [j.held[0]] && Sum(j.held[1..], Holds) == 0;
  }

  // When every schedule is safe.

  /** However the tasks are scheduled, the shutdown can still return. */
  ghost predicate CanAlwaysReturn(interval: nat, j: Joint) {
    forall ms | IsCourse(interval, j, ms) :: CanReturn(interval, Outcome(interval, j, ms))
  }

  /** The worker no longer serves, and no ticker of it can still enqueue, or every such ticker has
      a place beside the Shutdown that may be sent to the worker. */
  predicate WorkerSafe(interval: nat, w: State, sent: bool) {
    !w.phase.Serving?
    && (Sum(w.tickers, Able(interval)) == 0
        || (interval >= 1
            && |w.queue| + Sum(w.tickers, Able(interval)) + (if sent then 0 else 1) <= CAPACITY))
  }

  predicate AllSafe(interval: nat, j: Joint) {
    forall i | 0 <= i < |j.workers| :: WorkerSafe(interval, j.workers[i], SentTo(j.manager, i))
  }

  lemma {:induction false} CourseConcat(interval: nat, j: Joint, ms: seq<Move>, more: seq<Move>)
    requires IsCourse(interval, j, ms) && IsCourse(interval, Outcome(interval, j, ms), more)
    ensures IsCourse(interval, j, ms + more)
    ensures Outcome(interval, j, ms + more) == Outcome(interval, Outcome(interval, j, ms), more)
    decreases |ms|
  {
    if ms == [] {
      assert ms + more == more;
    } else {
      CourseConcat(interval, Moved(interval, j, ms[0]), ms[1..], more);
      assert (ms + more)[0] == ms[0] && (ms + more)[1..] == ms[1..] + more;
    }
  }

  lemma {:induction false} RunKeepsInv(interval: nat, j: Joint, ms: seq<Move>)
    requires JointInv(j) && IsCourse(interval, j, ms)
    ensures JointInv(Outcome(interval, j, ms))
    decreases |ms|
  {
    if ms != [] {
      CourseKeepsInv(interval, j, ms[0]);
      RunKeepsInv(interval, Moved(interval, j, ms[0]), ms[1..]);
    }
  }

  // Safe workers stay safe and fit.

  lemma {:induction false} WaitsAreAble(interval: nat, ts: seq<Ticker>)
    ensures Sum(ts, Waits) <= Sum(ts, Able(interval))
  {
    if ts != [] {
      WaitsAreAble(interval, ts[1..]);
    }
  }

  lemma OwnStepKeepsSafe(interval: nat, w: State, sent: bool, l: Label)
    requires Enabled(interval, w, l) && !l.ManagerSends? && WorkerSafe(interval, w, sent)
    ensures WorkerSafe(interval, Apply(interval, w, l), sent)
  {
    if l.Elapse? || l.Fire? || l.Enqueue? || l.Break? {
      SumUpdate(w.tickers, l.i, Apply(interval, w, l).tickers[l.i], Able(interval));
    }
  }

  lemma MoveKeepsSafe(interval: nat, j: Joint, m: Move)
    requires JointInv(j) && AllSafe(interval, j) && CanMove(interval, j, m)
    ensures AllSafe(interval, Moved(interval, j, m))
  {
    var t := Moved(interval, j, m);
    forall i | 0 <= i < |t.workers| ensures WorkerSafe(interval, t.workers[i], SentTo(t.manager, i)) {
      assert WorkerSafe(interval, j.workers[i], SentTo(j.manager, i));
      if m.Own? && m.i == i {
        OwnStepKeepsSafe(interval, j.workers[i], SentTo(j.manager, i), m.step);
      }
    }
  }

  lemma SafeFits(interval: nat, j: Joint)
    requires JointInv(j) && AllSafe(interval, j)
    ensures EventsFit(j) && AllFit(j)
  {
    assert forall i | 0 <= i < |j.workers| :: WorkerSafe(interval, j.workers[i], SentTo(j.manager, i));
    SumAll(j.held, Holds, 0);
    forall i | 0 <= i < |j.workers| ensures WorkerFits(j.workers[i]) {
      assert WorkerSafe(interval, j.workers[i], SentTo(j.manager, i));
      WaitsAreAble(interval, j.workers[i].tickers);
    }
  }

  lemma {:induction false} SafeReturns(interval: nat, j: Joint, ms: seq<Move>)
    requires JointInv(j) && AllSafe(interval, j) && IsCourse(interval, j, ms)
    ensures CanReturn(interval, Outcome(interval, j, ms))
    decreases |ms|
  {
    if ms == [] {
      SafeFits(interval, j);
      ShutdownReturnsExactly(interval, j);
    } else {
      CourseKeepsInv(interval, j, ms[0]);
      MoveKeepsSafe(interval, j, ms[0]);
      SafeReturns(interval, Moved(interval, j, ms[0]), ms[1..]);
    }
  }

  // A schedule against each unsafe worker.

  lemma Refutes(interval: nat, j: Joint, ms: seq<Move>)
    requires JointInv(j) && IsCourse(interval, j, ms)
    requires var t := Outcome(interval, j, ms); !EventsFit(t) || !AllFit(t)
    ensures !CanAlwaysReturn(interval, j)
  {
    RunKeepsInv(interval, j, ms);
    ShutdownReturnsExactly(interval, Outcome(interval, j, ms));
  }

  /** A worker that serves can take QMP events until the internal queue is full, and then one
      more. */
  lemma EventsOverflow(interval: nat, j: Joint, i: nat) returns (ms: seq<Move>)
    requires JointInv(j) && i < |j.workers| && j.workers[i].phase.Serving?
    ensures IsCourse(interval, j, ms) && !EventsFit(Outcome(interval, j, ms))
    decreases WorkerEvents.EVENT_CAPACITY - j.events, !j.held[i]
  {
    if j.held[i] && j.events == WorkerEvents.EVENT_CAPACITY {
      SumUpdate(j.held, i, false, Holds);
      ms := [];
    } else {
      var m := if j.held[i] then Delivers(i) else Receives(i);
      CourseKeepsInv(interval, j, m);
      var rest := EventsOverflow(interval, Moved(interval, j, m), i);
      ms := [m] + rest;
      assert ms[1..] == rest;
    }
  }

  /** What a worker's tickers can do, they can do while the others stand still. */
  lemma {:induction false} TickersMove(interval: nat, j: Joint, i: nat, ls: seq<Label>) returns (ms: seq<Move>)
    requires IsWorker(j, i) && IsRun(interval, j.workers[i], ls) && OfTickers(ls)
    ensures IsCourse(interval, j, ms)
    ensures Outcome(interval, j, ms) == j.(workers := j.workers[i := End(interval, j.workers[i], ls)])
    decreases |ls|
  {
    if ls == [] {
      ms := [];
      assert j.workers[i := j.workers[i]] == j.workers;
    } else {
      assert ls[0] in ls && forall l | l in ls[1..] :: l in ls;
      var m := Own(i, ls[0]);
      var t := Moved(interval, j, m);
      var rest := TickersMove(interval, t, i, ls[1..]);
      ms := [m] + rest;
      assert ms[1..] == rest;
      var last := End(interval, j.workers[i], ls);
      assert t.workers[i := last] == j.workers[i := last];
    }
  }

  lemma {:induction false} SomeAble(interval: nat, ts: seq<Ticker>) returns (k: nat)
    requires Sum(ts, Able(interval)) > 0
    ensures k < |ts| && !ts[k].Done?
  {
    if !ts[0].Done? {
      k := 0;
    } else {
      k := SomeAble(interval, ts[1..]);
      k := k + 1;
    }
  }

  /** Tickers alone can overfill the queue of a worker that has no room for them all. */
  lemma TickersOverflow(interval: nat, j: Joint, i: nat) returns (ms: seq<Move>)
    requires JointInv(j) && i < |j.workers| && !j.workers[i].phase.Serving?
    requires Sum(j.workers[i].tickers, Able(interval)) > 0
    requires interval == 0 || |j.workers[i].queue| + Sum(j.workers[i].tickers, Able(interval)) > CAPACITY
    ensures IsCourse(interval, j, ms) && !AllFit(Outcome(interval, j, ms))
  {
    var w := j.workers[i];
    var ls;
    if interval == 0 {
      var k := SomeAble(interval, w.tickers);
      ls := PollsFillQueue(w, k);
    } else {
      ls := TooManyTickers(interval, w);
    }
    ms := TickersMove(interval, j, i, ls);
    assert !WorkerFits(Outcome(interval, j, ms).workers[i]);
  }

  /** Once everything fits, the manager can get on to sending to worker `k` while that worker stands
      still. */
  lemma {:induction false} ManagerReaches(interval: nat, j: Joint, k: nat) returns (ms: seq<Move>)
    requires JointInv(j) && EventsFit(j) && AllFit(j)
    requires k < |j.workers| && !SentTo(j.manager, k)
    ensures IsCourse(interval, j, ms)
    ensures var t := Outcome(interval, j, ms);
            t.manager == SendingTo(k) && |t.workers| == |j.workers| && t.workers[k] == j.workers[k]
    decreases JointMeasure(j)
  {
    if j.manager.next == k {
      ms := [];
    } else {
      var m := ShutdownProgress(interval, j);
      CourseKeepsInv(interval, j, m);
      var rest := ManagerReaches(interval, Moved(interval, j, m), k);
      ms := [m] + rest;
      assert ms[1..] == rest;
    }
  }

  /** The last free place may go to the Shutdown. */
  lemma ShutdownTakesPlace(interval: nat, j: Joint, i: nat) returns (ms: seq<Move>)
    requires JointInv(j) && EventsFit(j) && AllFit(j) && i < |j.workers| && !SentTo(j.manager, i)
    requires !j.workers[i].phase.Serving? && interval >= 1 && Sum(j.workers[i].tickers, Able(interval)) > 0
    requires |j.workers[i].queue| + Sum(j.workers[i].tickers, Able(interval)) == CAPACITY
    ensures IsCourse(interval, j, ms) && !AllFit(Outcome(interval, j, ms))
  {
    ms := ManagerReaches(interval, j, i);
    RunKeepsInv(interval, j, ms);
    var t := Outcome(interval, j, ms);
    ReturnedIsDone(interval, t.workers[i]);
    CourseKeepsInv(interval, t, SendsShutdown);
    var u := Moved(interval, t, SendsShutdown);
    var rest := TickersOverflow(interval, u, i);
    var tail := [SendsShutdown] + rest;
    assert tail[1..] == rest;
    CourseConcat(interval, j, ms, tail);
    ms := ms + tail;
  }

  lemma ReturnedIsDone(interval: nat, w: State)
    requires Shape(w) && Sum(w.tickers, Able(interval)) > 0
    ensures !w.phase.Returned?
  {
    if w.phase.Returned? {
      SumAll(w.tickers, Able(interval), 0);
    }
  }

  /** Main result, for every schedule: at any point of a shutdown it can still return, however the
      tasks are scheduled from then on, if and only if no worker serves any more and every
      worker's tickers that can still enqueue have places, beside the Shutdown still to come. */
  lemma AlwaysReturnsExactly(interval: nat, j: Joint)
    requires JointInv(j)
    ensures CanAlwaysReturn(interval, j) <==> AllSafe(interval, j)
  {
    if AllSafe(interval, j) {
      forall ms | IsCourse(interval, j, ms) ensures CanReturn(interval, Outcome(interval, j, ms)) {
        SafeReturns(interval, j, ms);
      }
    } else {
      var none: seq<Move> := [];
      assert IsCourse(interval, j, none) && Outcome(interval, j, none) == j;
      if !EventsFit(j) || !AllFit(j) {
        Refutes(interval, j, none);
      } else {
        UnsafeOverflows(interval, j);
      }
    }
  }

  lemma UnsafeOverflows(interval: nat, j: Joint)
    requires JointInv(j) && EventsFit(j) && AllFit(j) && !AllSafe(interval, j)
    ensures !CanAlwaysReturn(interval, j)
  {
    var i :| 0 <= i < |j.workers| && !WorkerSafe(interval, j.workers[i], SentTo(j.manager, i));
    var w := j.workers[i];
    var ms;
    if w.phase.Serving? {
      ms := EventsOverflow(interval, j, i);
    } else if interval == 0 || |w.queue| + Sum(w.tickers, Able(interval)) > CAPACITY {
      ms := TickersOverflow(interval, j, i);
    } else {
      ms := ShutdownTakesPlace(interval, j, i);
    }
    Refutes(interval, j, ms);
  }

  /** A shutdown about to begin is safe on every schedule if and only if there is nothing to shut
      down: any worker that serves can take enough events before it takes Shutdown. */
  lemma BeginningAlwaysReturnsExactly(interval: nat, j: Joint)
    requires Begins(j)
    ensures CanAlwaysReturn(interval, j) <==> j.workers == []
  {
    assert JointInv(j);
    AlwaysReturnsExactly(interval, j);
    if j.workers != [] {
      assert !WorkerSafe(interval, j.workers[0], SentTo(j.manager, 0));
    }
  }
}
