/** The QEMU worker task, its ticker tasks and its bounded command queue, as interleaved steps.

    A step is one task's progress between two points at which another task can run.
    `ManagerSends` is the manager's side of the queue, the other labels belong to the
    worker, to ticker `i`, or to the reader tasks the worker aborts on its way out. */
module WorkerShutdown {
  import opened Wrappers

  /** QEMU_WORKER_COMMAND_BUFFER_SIZE */
  const CAPACITY: nat := 32

  datatype Command = Shutdown | Powerdown | Tick(ticker: nat)

  /** Where a ticker's select loop stands.  `late` marks a timer armed after the worker
      stopped serving. */
  datatype Ticker = Asleep(late: bool) | Due | Sending | Done

  datatype Task = Live | Aborting | Ended

  datatype Phase =
    | Serving
    | Cancelling(next: nat)
    | Joining(next: nat)
    | AwaitReader
    | AwaitAgent
    | Returned

  /** `taken`: the worker has taken Shutdown off its queue.
      `sent[i]`: commands ticker `i` has enqueued since the worker stopped serving. */
  datatype State = State(
    queue: seq<Command>,
    tickers: seq<Ticker>,
    phase: Phase,
    taken: bool,
    reader: Task,
    agent: Option<Task>,
    sent: seq<nat>)

  datatype Label =
    | ManagerSends(cmd: Command)
    | Take
    | EventsClosed
    | Elapse(i: nat)
    | Fire(i: nat)
    | Enqueue(i: nat)
    | Break(i: nat)
    | SendCancel
    | BeginJoin
    | Join
    | AbortReader
    | ReaderCloses
    | ReaderStops
    | ReaderJoined
    | AgentCloses
    | AgentStops
    | AgentJoined

  predicate CancelSent(s: State, i: nat) {
    match s.phase
    case Serving => false
    case Cancelling(k) => i < k
    case _ => true
  }

  /** A cancel message fits its own one-place channel, so `SendCancel` never waits.  With a
      poll interval of at least one second a timer armed after serving ended does not
      elapse before the cancel messages, which are sent without waiting, have arrived. */
  predicate Enabled(interval: nat, s: State, l: Label) {
    match l
    case ManagerSends(c) =>
      !c.Tick? && !s.taken && Shutdown !in s.queue && !s.phase.Returned? && |s.queue| < CAPACITY
    case Take => s.phase.Serving? && s.queue != []
    case EventsClosed => s.phase.Serving?
    case Elapse(i) => i < |s.tickers| && s.tickers[i].Asleep? && (s.tickers[i].late ==> interval == 0)
    case Fire(i) => i < |s.tickers| && s.tickers[i].Due?
    case Enqueue(i) => i < |s.tickers| && s.tickers[i].Sending? && |s.queue| < CAPACITY
    case Break(i) => i < |s.tickers| && (s.tickers[i].Asleep? || s.tickers[i].Due?) && CancelSent(s, i)
    case SendCancel => s.phase.Cancelling? && s.phase.next < |s.tickers|
    case BeginJoin => s.phase == Cancelling(|s.tickers|)
    case Join => s.phase.Joining? && s.phase.next < |s.tickers| && s.tickers[s.phase.next].Done?
    case AbortReader => s.phase == Joining(|s.tickers|)
    case ReaderCloses => s.reader.Live?
    case ReaderStops => s.reader.Aborting?
    case ReaderJoined => s.phase.AwaitReader? && s.reader.Ended?
    case AgentCloses => s.agent == Some(Live)
    case AgentStops => s.agent == Some(Aborting)
    case AgentJoined => s.phase.AwaitAgent? && s.agent == Some(Ended)
  }

  function Aborted(t: Task): Task {
    if t.Ended? then Ended else Aborting
  }

  function Apply(interval: nat, s: State, l: Label): State
    requires Enabled(interval, s, l)
  {
    match l
    case ManagerSends(c) => s.(queue := s.queue + [c])
    case Take =>
      if s.queue[0].Shutdown?
      then s.(queue := s.queue[1..], phase := Cancelling(0), taken := true)
      else s.(queue := s.queue[1..])
    case EventsClosed => s.(phase := Cancelling(0))
    case Elapse(i) => s.(tickers := s.tickers[i := Due])
    case Fire(i) => s.(tickers := s.tickers[i := Sending])
    case Enqueue(i) =>
      var serving := s.phase.Serving?;
      s.(queue := s.queue + [Tick(i)],
         tickers := s.tickers[i := Asleep(!serving)],
         sent := if serving || i >= |s.sent| then s.sent else s.sent[i := s.sent[i] + 1])
    case Break(i) => s.(tickers := s.tickers[i := Done])
    case SendCancel => s.(phase := Cancelling(s.phase.next + 1))
    case BeginJoin => s.(phase := Joining(0))
    case Join => s.(phase := Joining(s.phase.next + 1))
    case AbortReader => s.(phase := AwaitReader, reader := Aborted(s.reader))
    case ReaderCloses => s.(reader := Ended)
    case ReaderStops => s.(reader := Ended)
    case ReaderJoined =>
      (match s.agent
       case None => s.(phase := Returned)
       case Some(t) => s.(phase := AwaitAgent, agent := Some(Aborted(t))))
    case AgentCloses => s.(agent := Some(Ended))
    case AgentStops => s.(agent := Some(Ended))
    case AgentJoined => s.(phase := Returned)
  }

  /** Steps that happen without an outside event: nothing but scheduling is needed. */
  predicate Forced(l: Label) {
    !l.ManagerSends? && !l.EventsClosed? && !l.Elapse? && !l.ReaderCloses? && !l.AgentCloses?
  }

  ghost predicate IsRun(interval: nat, s: State, ls: seq<Label>)
    decreases |ls|
  {
    ls == [] || (Enabled(interval, s, ls[0]) && IsRun(interval, Apply(interval, s, ls[0]), ls[1..]))
  }

  ghost function End(interval: nat, s: State, ls: seq<Label>): State
    requires IsRun(interval, s, ls)
    decreases |ls|
  {
    if ls == [] then s else End(interval, Apply(interval, s, ls[0]), ls[1..])
  }

  /** Every ticker joined, the reader tasks over, the worker returned. */
  predicate Finished(s: State) {
    s.phase.Returned? && s.reader.Ended? && (s.agent.Some? ==> s.agent.value.Ended?)
    && forall i | 0 <= i < |s.tickers| :: s.tickers[i].Done?
  }

  /** No task can do anything but wait for an outside event. */
  ghost predicate Stuck(interval: nat, s: State) {
    forall l | Forced(l) :: !Enabled(interval, s, l)
  }

  // The worker as `worker_process` sets it up, and what serving keeps.

  predicate Initial(s: State) {
    s.queue == [] && s.phase.Serving? && !s.taken && s.reader.Live? && s.agent != Some(Aborting)
    && (forall i | 0 <= i < |s.tickers| :: s.tickers[i] == Asleep(false))
    && s.sent == seq(|s.tickers|, _ => 0)
  }

  predicate ServingInv(s: State) {
    s.phase.Serving? && !s.taken && !s.reader.Aborting? && s.agent != Some(Aborting)
    && |s.queue| <= CAPACITY
    && (forall i | 0 <= i < |s.tickers| :: s.tickers[i] == Asleep(false) || s.tickers[i].Due? || s.tickers[i].Sending?)
    && s.sent == seq(|s.tickers|, _ => 0)
  }

  /** The state right after the worker has stopped serving: it has taken Shutdown, or the QMP
      event channel was closed. */
  predicate JustLeft(s: State) {
    s.phase == Cancelling(0) && !s.reader.Aborting? && s.agent != Some(Aborting)
    && |s.queue| <= CAPACITY
    && (forall i | 0 <= i < |s.tickers| :: s.tickers[i] == Asleep(false) || s.tickers[i].Due? || s.tickers[i].Sending?)
    && s.sent == seq(|s.tickers|, _ => 0)
  }

  /** The manager has sent Shutdown, which is the last command it sends. */
  predicate ManagerSilent(s: State) { s.taken || Shutdown in s.queue }

  lemma {:induction false} ServingRuns(interval: nat, s: State, ls: seq<Label>)
    requires ServingInv(s) && IsRun(interval, s, ls)
    requires End(interval, s, ls).phase.Serving?
    ensures ServingInv(End(interval, s, ls))
    decreases |ls|
  {
    if ls != [] {
      var t := Apply(interval, s, ls[0]);
      if t.phase.Serving? {
        ServingRuns(interval, t, ls[1..]);
      } else {
        NeverServesAgain(interval, t, ls[1..]);
      }
    }
  }

  lemma {:induction false} NeverServesAgain(interval: nat, s: State, ls: seq<Label>)
    requires !s.phase.Serving? && IsRun(interval, s, ls)
    ensures !End(interval, s, ls).phase.Serving?
    decreases |ls|
  {
    if ls != [] {
      NeverServesAgain(interval, Apply(interval, s, ls[0]), ls[1..]);
    }
  }

  predicate LeavesServing(s: State, l: Label) {
    s.phase.Serving? && (l.EventsClosed? || (l.Take? && s.queue != [] && s.queue[0].Shutdown?))
  }

  /** Whenever a worker that started normally stops serving, by taking Shutdown or because the
      event channel closed, no cancel has been sent, no ticker has ended and no timer is late. */
  lemma LeavingServing(interval: nat, s: State, ls: seq<Label>, l: Label)
    requires Initial(s) && IsRun(interval, s, ls) && LeavesServing(End(interval, s, ls), l)
    ensures JustLeft(Apply(interval, End(interval, s, ls), l))
    ensures l.Take? ==> ManagerSilent(Apply(interval, End(interval, s, ls), l))
  {
    ServingRuns(interval, s, ls);
  }

  // Sums.

  function Sum<T>(ts: seq<T>, f: T -> nat): nat {
    if ts == [] then 0 else f(ts[0]) + Sum(ts[1..], f)
  }

  lemma {:induction false} SumUpdate<T>(ts: seq<T>, i: nat, t: T, f: T -> nat)
    requires i < |ts|
    ensures Sum(ts[i := t], f) + f(ts[i]) == Sum(ts, f) + f(t)
    ensures Sum(ts, f) >= f(ts[i])
  {
    if i == 0 {
      assert ts[0 := t][1..] == ts[1..];
    } else {
      SumUpdate(ts[1..], i - 1, t, f);
      assert ts[i := t][1..] == ts[1..][i - 1 := t];
    }
  }

  lemma {:induction false} SumAll<T>(ts: seq<T>, f: T -> nat, v: nat)
    requires forall i | 0 <= i < |ts| :: f(ts[i]) == v
    ensures Sum(ts, f) == |ts| * v
  {
    if ts != [] {
      SumAll(ts[1..], f, v);
    }
  }

  /** 1 for a ticker that can still enqueue a command, 0 otherwise. */
  function May(t: Ticker): nat {
    if t.Done? || (t.Asleep? && t.late) then 0 else 1
  }

  /** Steps a ticker has ahead of it. */
  function Rank(t: Ticker): nat {
    match t
    case Asleep(late) => if late then 1 else 4
    case Due => 3
    case Sending => 2
    case Done => 0
  }

  function TaskRank(t: Task): nat {
    match t
    case Live => 2
    case Aborting => 1
    case Ended => 0
  }

  function PhaseRank(p: Phase, n: nat): nat {
    match p
    case Serving => 2 * n + 6
    case Cancelling(k) => if k <= n then n - k + n + 5 else 0
    case Joining(k) => if k <= n then n - k + 4 else 0
    case AwaitReader => 3
    case AwaitAgent => 2
    case Returned => 0
  }

  /** Bounds the number of steps left. */
  function Measure(s: State): nat {
    Sum(s.tickers, Rank) + PhaseRank(s.phase, |s.tickers|) + TaskRank(s.reader)
    + if s.agent.Some? then TaskRank(s.agent.value) else 0
  }

  /** How far a worker that has stopped serving has come. */
  predicate Shape(s: State) {
    var n := |s.tickers|;
    !s.phase.Serving?
    && (s.phase.Cancelling? ==> s.phase.next <= n)
    && (s.phase.Joining? ==> s.phase.next <= n && forall i | 0 <= i < s.phase.next :: s.tickers[i].Done?)
    && (s.phase.AwaitReader? || s.phase.AwaitAgent? || s.phase.Returned? ==>
          forall i | 0 <= i < n :: s.tickers[i].Done?)
    && (s.phase.AwaitReader? ==> !s.reader.Live?)
    && (s.phase.AwaitAgent? ==> s.reader.Ended? && s.agent.Some? && !s.agent.value.Live?)
    && (s.phase.Returned? ==> s.reader.Ended? && (s.agent.Some? ==> s.agent.value.Ended?))
  }

  /** What holds from the moment the worker stops serving, if the queue then has a free place for
      every ticker and the manager sends nothing more. */
  predicate StoppingInv(s: State) {
    var n := |s.tickers|;
    ManagerSilent(s) && |s.sent| == n && Shape(s)
    && |s.queue| + Sum(s.tickers, May) <= CAPACITY
    && (forall i | 0 <= i < n :: s.sent[i] + May(s.tickers[i]) <= 1)
  }

  lemma JustLeftStops(s: State)
    requires JustLeft(s) && ManagerSilent(s) && |s.queue| + |s.tickers| <= CAPACITY
    ensures StoppingInv(s)
  {
    SumAll(s.tickers, May, 1);
  }

  lemma StoppingStep(interval: nat, s: State, l: Label)
    requires interval >= 1 && StoppingInv(s) && Enabled(interval, s, l)
    ensures StoppingInv(Apply(interval, s, l))
    ensures Measure(Apply(interval, s, l)) < Measure(s)
    ensures |Apply(interval, s, l).tickers| == |s.tickers|
  {
    if l.Elapse? || l.Fire? || l.Enqueue? || l.Break? {
      StoppingTick(interval, s, l);
    }
  }

  lemma StoppingTick(interval: nat, s: State, l: Label)
    requires interval >= 1 && StoppingInv(s) && Enabled(interval, s, l)
    requires l.Elapse? || l.Fire? || l.Enqueue? || l.Break?
    ensures StoppingInv(Apply(interval, s, l))
    ensures Measure(Apply(interval, s, l)) < Measure(s)
    ensures |Apply(interval, s, l).tickers| == |s.tickers|
  {
    var t := Apply(interval, s, l);
    SumUpdate(s.tickers, l.i, t.tickers[l.i], May);
    SumUpdate(s.tickers, l.i, t.tickers[l.i], Rank);
  }

  /** A stopping worker that is not finished always has a task that can move by itself. */
  lemma StoppingProgress(interval: nat, s: State) returns (l: Label)
    requires StoppingInv(s) && !Finished(s)
    ensures Forced(l) && Enabled(interval, s, l)
  {
    match s.phase
    case Cancelling(k) => l := if k < |s.tickers| then SendCancel else BeginJoin;
    case Joining(k) =>
      if k == |s.tickers| {
        l := AbortReader;
      } else {
        match s.tickers[k]
        case Done => l := Join;
        case Sending =>
          SumUpdate(s.tickers, k, Done, May);
          l := Enqueue(k);
        case _ => l := Break(k);
      }
    case AwaitReader => l := if s.reader.Ended? then ReaderJoined else ReaderStops;
    case AwaitAgent => l := if s.agent.value.Ended? then AgentJoined else AgentStops;
  }

  lemma {:induction false} StoppingRun(interval: nat, s: State, ls: seq<Label>)
    requires interval >= 1 && StoppingInv(s) && IsRun(interval, s, ls)
    ensures StoppingInv(End(interval, s, ls))
    ensures |ls| + Measure(End(interval, s, ls)) <= Measure(s)
    ensures |End(interval, s, ls).tickers| == |s.tickers|
    decreases |ls|
  {
    if ls != [] {
      StoppingStep(interval, s, ls[0]);
      StoppingRun(interval, Apply(interval, s, ls[0]), ls[1..]);
    }
  }

  /** Main result.  After the last Shutdown was sent, for a worker that stops serving with a free
      place in the queue for every ticker, every continuation is finite, no ticker enqueues more
      than once, and it can only come to rest with every ticker joined, the readers over and the
      worker returned. */
  lemma ShutdownCompletes(interval: nat, s: State, ls: seq<Label>)
    requires interval >= 1 && JustLeft(s) && ManagerSilent(s) && |s.queue| + |s.tickers| <= CAPACITY
    requires IsRun(interval, s, ls)
    ensures |ls| <= 6 * |s.tickers| + 9
    ensures var t := End(interval, s, ls);
            |t.sent| == |s.tickers| && forall i | 0 <= i < |t.sent| :: t.sent[i] <= 1
    ensures Stuck(interval, End(interval, s, ls)) ==> Finished(End(interval, s, ls))
  {
    JustLeftStops(s);
    StoppingRun(interval, s, ls);
    RankBound(s.tickers);
    var t := End(interval, s, ls);
    if !Finished(t) {
      var l := StoppingProgress(interval, t);
    }
  }

  lemma {:induction false} RankBound(ts: seq<Ticker>)
    ensures Sum(ts, Rank) <= 4 * |ts|
  {
    if ts != [] {
      RankBound(ts[1..]);
    }
  }

  // The bound on the queue is exact.

  /** However the tasks are scheduled, the worker can still get to the end. */
  ghost predicate CanAlwaysFinish(interval: nat, s: State) {
    forall ls | IsRun(interval, s, ls) :: CanFinish(interval, End(interval, s, ls))
  }

  ghost predicate CanFinish(interval: nat, s: State) {
    exists ls :: IsRun(interval, s, ls) && Finished(End(interval, s, ls))
  }

  /** 1 for a ticker that will not react to a cancel before it has enqueued its command. */
  function Waits(t: Ticker): nat {
    if t.Sending? then 1 else 0
  }

  /** There is a place in the queue for every ticker that waits for one. */
  predicate Fits(s: State) { |s.queue| + Sum(s.tickers, Waits) <= CAPACITY }

  /** The ticker the worker is about to join enqueues the command it waits with, or ends. */
  lemma TickerProgress(interval: nat, s: State, k: nat) returns (l: Label)
    requires Shape(s) && Fits(s) && s.phase == Joining(k) && k < |s.tickers| && !s.tickers[k].Done?
    ensures Forced(l) && !l.Take? && Enabled(interval, s, l)
    ensures var t := Apply(interval, s, l);
            Shape(t) && Fits(t) && Measure(t) < Measure(s)
            && |t.tickers| == |s.tickers| && |t.queue| >= |s.queue|
  {
    l := if s.tickers[k].Sending? then Enqueue(k) else Break(k);
    SumUpdate(s.tickers, k, Done, Waits);
    var t := Apply(interval, s, l);
    SumUpdate(s.tickers, k, t.tickers[k], Waits);
    SumUpdate(s.tickers, k, t.tickers[k], Rank);
  }

  /** A step that needs no outside event, needs no place beyond the waiting tickers' and brings a
      stopping worker nearer to its end. */
  lemma FittingProgress(interval: nat, s: State) returns (l: Label)
    requires Shape(s) && Fits(s) && !s.phase.Returned?
    ensures Forced(l) && !l.Take? && Enabled(interval, s, l)
    ensures var t := Apply(interval, s, l);
            Shape(t) && Fits(t) && Measure(t) < Measure(s)
            && |t.tickers| == |s.tickers| && |t.queue| >= |s.queue|
  {
    match s.phase
    case Cancelling(k) => l := if k < |s.tickers| then SendCancel else BeginJoin;
    case Joining(k) =>
      if k == |s.tickers| {
        l := AbortReader;
      } else if s.tickers[k].Done? {
        l := Join;
      } else {
        l := TickerProgress(interval, s, k);
      }
    case AwaitReader => l := if s.reader.Ended? then ReaderJoined else ReaderStops;
    case AwaitAgent => l := if s.agent.value.Ended? then AgentJoined else AgentStops;
  }

  lemma {:induction false} FittingCanFinish(interval: nat, s: State)
    requires Shape(s) && Fits(s)
    ensures CanFinish(interval, s)
    decreases Measure(s)
  {
    if s.phase.Returned? {
      assert IsRun(interval, s, []) && Finished(End(interval, s, []));
    } else {
      var l := FittingProgress(interval, s);
      var t := Apply(interval, s, l);
      FittingCanFinish(interval, t);
      var ls :| IsRun(interval, t, ls) && Finished(End(interval, t, ls));
      var all := [l] + ls;
      assert all[1..] == ls;
      assert IsRun(interval, s, all) && End(interval, s, all) == End(interval, t, ls);
    }
  }

  /** More tickers wait than there are places. */
  predicate Overfull(s: State) { !s.phase.Serving? && !Fits(s) }

  lemma OverfullStep(interval: nat, s: State, l: Label)
    requires Overfull(s) && Enabled(interval, s, l)
    ensures Overfull(Apply(interval, s, l))
  {
    if l.Elapse? || l.Fire? || l.Enqueue? || l.Break? {
      SumUpdate(s.tickers, l.i, Apply(interval, s, l).tickers[l.i], Waits);
    }
  }

  lemma {:induction false} OverfullForEver(interval: nat, s: State, ls: seq<Label>)
    requires Overfull(s) && IsRun(interval, s, ls)
    ensures Overfull(End(interval, s, ls))
    decreases |ls|
  {
    if ls != [] {
      OverfullStep(interval, s, ls[0]);
      OverfullForEver(interval, Apply(interval, s, ls[0]), ls[1..]);
    }
  }

  lemma {:induction false} RunKeepsBound(interval: nat, s: State, ls: seq<Label>)
    requires |s.queue| <= CAPACITY && IsRun(interval, s, ls)
    ensures |End(interval, s, ls).queue| <= CAPACITY
    decreases |ls|
  {
    if ls != [] {
      RunKeepsBound(interval, Apply(interval, s, ls[0]), ls[1..]);
    }
  }

  lemma {:induction false} DoneDoNotWait(ts: seq<Ticker>)
    requires forall i | 0 <= i < |ts| :: ts[i].Done?
    ensures Sum(ts, Waits) == 0
  {
    SumAll(ts, Waits, 0);
  }

  /** A worker that has stopped serving can still get to its end if and only if every ticker that
      waits for a place in the queue will find one. */
  lemma CanFinishExactly(interval: nat, s: State)
    requires Shape(s) && |s.queue| <= CAPACITY
    ensures CanFinish(interval, s) <==> Fits(s)
  {
    if Fits(s) {
      FittingCanFinish(interval, s);
    } else {
      forall ls | IsRun(interval, s, ls) ensures !Finished(End(interval, s, ls)) {
        OverfullForEver(interval, s, ls);
        RunKeepsBound(interval, s, ls);
        if Finished(End(interval, s, ls)) {
          DoneDoNotWait(End(interval, s, ls).tickers);
          assert false;
        }
      }
    }
  }

  /** Ticker `j` waits for a place in a full queue while the worker, which no longer receives,
      has yet to join it. */
  predicate Wedged(s: State, j: nat) {
    j < |s.tickers| && |s.queue| >= CAPACITY && s.tickers[j].Sending?
    && (s.phase.Cancelling? || (s.phase.Joining? && s.phase.next <= j))
  }

  lemma {:induction false} WedgedForEver(interval: nat, s: State, j: nat, ls: seq<Label>)
    requires Wedged(s, j) && IsRun(interval, s, ls)
    ensures Wedged(End(interval, s, ls), j)
    decreases |ls|
  {
    if ls != [] {
      WedgedForEver(interval, Apply(interval, s, ls[0]), j, ls[1..]);
    }
  }

  lemma {:induction false} RunConcat(interval: nat, s: State, ls: seq<Label>, more: seq<Label>)
    requires IsRun(interval, s, ls) && IsRun(interval, End(interval, s, ls), more)
    ensures IsRun(interval, s, ls + more)
    ensures End(interval, s, ls + more) == End(interval, End(interval, s, ls), more)
    decreases |ls|
  {
    if ls == [] {
      assert ls + more == more;
    } else {
      RunConcat(interval, Apply(interval, s, ls[0]), ls[1..], more);
      assert (ls + more)[0] == ls[0] && (ls + more)[1..] == ls[1..] + more;
    }
  }

  /** Brings a ticker that has not been cancelled to the point of sending. */
  lemma ReachSending(interval: nat, s: State, i: nat) returns (ls: seq<Label>)
    requires i < |s.tickers| && !s.tickers[i].Done?
    requires s.tickers[i] == Asleep(true) ==> interval == 0
    ensures IsRun(interval, s, ls) && OfTickers(ls)
    ensures End(interval, s, ls) == s.(tickers := s.tickers[i := Sending])
    decreases s.tickers[i].Asleep?
  {
    match s.tickers[i]
    case Sending =>
      ls := [];
      assert s.tickers[i := Sending] == s.tickers;
    case Due =>
      ls := [Fire(i)];
      assert ls[1..] == [];
    case Asleep(_) =>
      var t := Apply(interval, s, Elapse(i));
      var rest := ReachSending(interval, t, i);
      ls := [Elapse(i)] + rest;
      assert ls[1..] == rest;
      assert t.tickers[i := Sending] == s.tickers[i := Sending];
  }

  /** Some schedule leaves more tickers waiting than there are places. */
  ghost predicate CanOverfill(interval: nat, s: State) {
    exists ls :: IsRun(interval, s, ls) && Overfull(End(interval, s, ls))
  }

  lemma OverfillAfter(interval: nat, s: State, ls: seq<Label>)
    requires IsRun(interval, s, ls) && CanOverfill(interval, End(interval, s, ls))
    ensures CanOverfill(interval, s)
  {
    var more :| IsRun(interval, End(interval, s, ls), more) && Overfull(End(interval, End(interval, s, ls), more));
    RunConcat(interval, s, ls, more);
  }

  /** 1 for a ticker that can still enqueue a command before it ends: without a pause between polls
      any ticker can, otherwise one whose timer was not armed after serving ended. */
  function Able(interval: nat): Ticker -> nat {
    (t: Ticker) => if t.Done? || (interval >= 1 && t == Asleep(true)) then 0 else 1
  }

  /** Steps of tickers that no cancel has reached. */
  predicate OfTickers(ls: seq<Label>) { forall l | l in ls :: l.Elapse? || l.Fire? || l.Enqueue? }

  /** All tickers that can enqueue can be waiting at once. */
  lemma {:induction false} AllAbleWait(interval: nat, s: State, i: nat) returns (ls: seq<Label>, ts: seq<Ticker>)
    requires i <= |s.tickers|
    requires forall k | 0 <= k < i :: Able(interval)(s.tickers[k]) == Waits(s.tickers[k])
    ensures IsRun(interval, s, ls) && OfTickers(ls) && End(interval, s, ls) == s.(tickers := ts)
    ensures |ts| == |s.tickers| && forall k | 0 <= k < |ts| :: Waits(ts[k]) == Able(interval)(s.tickers[k])
    decreases |s.tickers| - i
  {
    if i == |s.tickers| {
      ls, ts := [], s.tickers;
    } else if Able(interval)(s.tickers[i]) == 0 {
      ls, ts := AllAbleWait(interval, s, i + 1);
    } else {
      var first := ReachSending(interval, s, i);
      var rest;
      rest, ts := AllAbleWait(interval, End(interval, s, first), i + 1);
      RunConcat(interval, s, first, rest);
      ls := first + rest;
    }
  }

  lemma {:induction false} SumSame(ts: seq<Ticker>, us: seq<Ticker>, f: Ticker -> nat, g: Ticker -> nat)
    requires |ts| == |us| && forall k | 0 <= k < |ts| :: f(ts[k]) == g(us[k])
    ensures Sum(ts, f) == Sum(us, g)
  {
    if ts != [] {
      assert forall k | 0 <= k < |ts[1..]| :: ts[1..][k] == ts[k + 1] && us[1..][k] == us[k + 1];
      SumSame(ts[1..], us[1..], f, g);
    }
  }

  /** Queued commands and the tickers that can still enqueue exceed the places. */
  lemma TooManyTickers(interval: nat, s: State) returns (ls: seq<Label>)
    requires !s.phase.Serving? && |s.queue| + Sum(s.tickers, Able(interval)) > CAPACITY
    ensures IsRun(interval, s, ls) && OfTickers(ls) && Overfull(End(interval, s, ls))
  {
    var ts;
    ls, ts := AllAbleWait(interval, s, 0);
    SumSame(ts, s.tickers, Waits, Able(interval));
  }

  /** With no pause between its polls one ticker fills the queue by itself. */
  lemma {:induction false} PollsFillQueue(s: State, k: nat) returns (ls: seq<Label>)
    requires !s.phase.Serving? && k < |s.tickers| && !s.tickers[k].Done? && |s.queue| <= CAPACITY
    ensures IsRun(0, s, ls) && OfTickers(ls) && Overfull(End(0, s, ls))
    decreases CAPACITY - |s.queue|
  {
    ls := ReachSending(0, s, k);
    var t := End(0, s, ls);
    if |t.queue| == CAPACITY {
      SumUpdate(t.tickers, k, Done, Waits);
    } else {
      var u := Apply(0, t, Enqueue(k));
      var rest := PollsFillQueue(u, k);
      var tail := [Enqueue(k)] + rest;
      assert tail[1..] == rest;
      RunConcat(0, s, ls, tail);
      ls := ls + tail;
    }
  }

  /** A manager that is not done sending can fill the queue. */
  lemma {:induction false} ManagerFillsQueue(interval: nat, s: State)
    requires s.phase == Cancelling(0) && !ManagerSilent(s) && |s.queue| <= CAPACITY
    requires s.tickers != [] && s.tickers[0].Sending?
    ensures CanOverfill(interval, s)
    decreases CAPACITY - |s.queue|
  {
    if |s.queue| == CAPACITY {
      SumUpdate(s.tickers, 0, Done, Waits);
      assert IsRun(interval, s, []) && Overfull(End(interval, s, []));
    } else {
      var one := [ManagerSends(Powerdown)];
      assert one[1..] == [] && IsRun(interval, Apply(interval, s, one[0]), []);
      ManagerFillsQueue(interval, End(interval, s, one));
      OverfillAfter(interval, s, one);
    }
  }

  lemma {:induction false} WithoutTickers(interval: nat, s: State, ls: seq<Label>)
    requires Shape(s) && s.tickers == [] && IsRun(interval, s, ls)
    ensures Shape(End(interval, s, ls)) && End(interval, s, ls).tickers == []
    decreases |ls|
  {
    if ls != [] {
      WithoutTickers(interval, Apply(interval, s, ls[0]), ls[1..]);
    }
  }

  lemma {:induction false} WaitsIsWithinMay(ts: seq<Ticker>)
    ensures Sum(ts, Waits) <= Sum(ts, May)
  {
    if ts != [] {
      WaitsIsWithinMay(ts[1..]);
    }
  }

  /** A worker that stops serving, on either route, can get to its end however the tasks are
      scheduled if and only if it has no tickers, or the poll interval is not zero, the manager
      has sent its last command and the queue has a place for every ticker. */
  lemma ShutdownCompletesExactly(interval: nat, s: State)
    requires JustLeft(s)
    ensures CanAlwaysFinish(interval, s)
            <==> s.tickers == [] || (interval >= 1 && ManagerSilent(s) && |s.queue| + |s.tickers| <= CAPACITY)
  {
    if s.tickers == [] {
      forall ls | IsRun(interval, s, ls) ensures CanFinish(interval, End(interval, s, ls)) {
        WithoutTickers(interval, s, ls);
        RunKeepsBound(interval, s, ls);
        FittingCanFinish(interval, End(interval, s, ls));
      }
    } else if interval >= 1 && ManagerSilent(s) && |s.queue| + |s.tickers| <= CAPACITY {
      JustLeftStops(s);
      forall ls | IsRun(interval, s, ls) ensures CanFinish(interval, End(interval, s, ls)) {
        StoppingRun(interval, s, ls);
        WaitsIsWithinMay(End(interval, s, ls).tickers);
        FittingCanFinish(interval, End(interval, s, ls));
      }
    } else {
      CanOverfillOtherwise(interval, s);
      var ls :| IsRun(interval, s, ls) && Overfull(End(interval, s, ls));
      OverfullCannotFinish(interval, s, ls);
    }
  }

  lemma CanOverfillOtherwise(interval: nat, s: State)
    requires JustLeft(s) && s.tickers != []
    requires interval == 0 || !ManagerSilent(s) || |s.queue| + |s.tickers| > CAPACITY
    ensures CanOverfill(interval, s)
  {
    if |s.queue| + |s.tickers| > CAPACITY {
      SumAll(s.tickers, Able(interval), 1);
      var ls := TooManyTickers(interval, s);
    } else if interval == 0 {
      var ls := PollsFillQueue(s, 0);
    } else {
      var ls := ReachSending(interval, s, 0);
      ManagerFillsQueue(interval, End(interval, s, ls));
      OverfillAfter(interval, s, ls);
    }
  }

  lemma OverfullCannotFinish(interval: nat, s: State, ls: seq<Label>)
    requires |s.queue| <= CAPACITY && IsRun(interval, s, ls) && Overfull(End(interval, s, ls))
    ensures !CanAlwaysFinish(interval, s)
  {
    var t := End(interval, s, ls);
    RunKeepsBound(interval, s, ls);
    forall more | IsRun(interval, t, more) ensures !Finished(End(interval, t, more)) {
      OverfullForEver(interval, t, more);
      RunKeepsBound(interval, t, more);
      if Finished(End(interval, t, more)) {
        DoneDoNotWait(End(interval, t, more).tickers);
        assert false;
      }
    }
    assert !CanFinish(interval, t);
  }
}
