/** Exactly when a partition that waits to be dispatched is forgotten. */
module WakeUp {
  import opened Types
  import opened Buffers
  import opened Pipeline
  import opened Views
  import opened Schedule

  // ---- Who will come back for a partition ----

  predicate Owes(j: Job, p: int) {
    match j
    case Firing(q) => p == q
    case Flushing(q) => p == q
    case Draining(rest, _) => p in rest
  }

  predicate SomeJobOwes(jobs: map<nat, Job>, p: int) {
    exists k :: k in jobs && Owes(jobs[k], p)
  }

  /** A goroutine has yet to try the partition. */
  predicate Owed(desk: Desk, jobs: map<nat, Job>, p: int) {
    desk == InSend(p, None) || SomeJobOwes(jobs, p)
  }

  predicate TimerRuns(y: Crew, p: int) {
    p in y.ticking || y.stray[p] > 0
  }

  /** Unless its channel send is refused, the batch will be handled and swept. */
  predicate OnItsWay(stage: Stage) {
    stage != Abandoned && stage != Stranded
  }

  predicate SomeOnTheirWay(s: State) {
    exists i :: i in s.flights && OnItsWay(s.flights[i].stage)
  }

  predicate Covered(y: Crew, p: int) {
    TimerRuns(y, p) || Owed(y.desk, y.jobs, p) || SomeOnTheirWay(y.s)
  }

  /** Not shutting down: the dispatcher is open and no worker has left its batch. */
  predicate Running(s: State) {
    !s.closed && forall i :: i in s.flights ==> s.flights[i].stage != Abandoned
  }

  ghost predicate Awake(y: Crew) {
    Running(y.s) ==> forall p :: Waiting(y.s.bufs, p) ==> Covered(y, p)
  }

  /**
   * The put-back of batch `i` is the one that forgets a partition: no other batch is on
   * its way to a sweep, and some partition (the batch's own, or one that waited for this
   * very sweep) has no running timer and no goroutine left to come back for it.
   */
  ghost predicate Forgets(y: Crew, t: CrewStep) {
    && t.CarryOn? && t.f.PutBack? && Running(y.s) && t.i in y.s.flights
    && (forall j :: j in y.s.flights && j != t.i ==> !OnItsWay(y.s.flights[j].stage))
    && exists q :: LeftAlone(y, t.i, q)
  }

  /** Who is left to nobody by the put-back of `i`. */
  ghost predicate LeftAlone(y: Crew, i: nat, q: int)
    requires i in y.s.flights
  {
    && (q == Carrier(y.s, i) || Waiting(y.s.bufs, q)) && !TimerRuns(y, q)
    && !Owed(DeskAfter(y, CarryOn(i, PutBack), y.s), JobsAfterCarry(y.jobs, i, PutBack, y.s.closed), q)
  }

  // ---- Every other step leaves nobody forgotten ----

  /** `y'` still covers `p` as `y` did. */
  lemma StillCovered(y: Crew, y': Crew, p: int)
    requires Waiting(y.s.bufs, p) ==> Covered(y, p)
    requires Waiting(y'.s.bufs, p) ==> Waiting(y.s.bufs, p)
    requires TimerRuns(y, p) ==> TimerRuns(y', p) || Owed(y'.desk, y'.jobs, p)
    requires Owed(y.desk, y.jobs, p) ==> Owed(y'.desk, y'.jobs, p)
    requires SomeOnTheirWay(y.s) ==> SomeOnTheirWay(y'.s)
    ensures Waiting(y'.s.bufs, p) ==> Covered(y', p)
  {
  }

  /** A set timer field means that somebody will come. */
  lemma {:induction false} ArmedIsCovered(c: Config, y: Crew, p: int)
    requires CrewSound(c, y) && Armed(y.s, p)
    ensures Covered(y, p)
  {
    assert FieldSane(y, p);
    if p !in y.ticking {
      var k :| k in y.jobs && y.jobs[k] == Firing(p);
      assert Owes(y.jobs[k], p);
    }
  }

  lemma {:induction false} MoreJobs(jobs: map<nat, Job>, k: nat, j: Job, p: int)
    requires k in jobs ==> Owes(jobs[k], p) ==> Owes(j, p)
    ensures SomeJobOwes(jobs, p) ==> SomeJobOwes(jobs[k := j], p)
    ensures Owes(j, p) ==> SomeJobOwes(jobs[k := j], p)
  {
    assert jobs[k := j][k] == j;
    if i :| i in jobs && Owes(jobs[i], p) {
      assert i != k ==> jobs[k := j][i] == jobs[i];
      assert Owes(jobs[k := j][i], p);
    }
  }

  lemma {:induction false} OneJobLess(jobs: map<nat, Job>, k: nat, p: int)
    requires k in jobs && !Owes(jobs[k], p)
    ensures SomeJobOwes(jobs, p) ==> SomeJobOwes(jobs - {k}, p)
  {
    if i :| i in jobs && Owes(jobs[i], p) {
      assert i in jobs - {k} && (jobs - {k})[i] == jobs[i];
    }
  }

  lemma {:induction false} ArriveAwake(c: Config, y: Crew, p: int, n: nat)
    requires ValidConfig(c) && Awake(y) && CrewCan(c, y, Arrive(p, n))
    ensures Awake(CrewAfter(c, y, Arrive(p, n)))
  {
    var y' := CrewAfter(c, y, Arrive(p, n));
    assert y'.s == DoDeliver(c, y.s, p, n);
    forall q | Running(y'.s) && Waiting(y'.s.bufs, q) ensures Covered(y', q) {
      if q != p {
        StillCovered(y, y', q);
      }
    }
  }

  lemma LaunchIsOnItsWay(c: Config, s: State, p: int)
    requires c.batchSize > 0 && p in s.bufs && s.bufs[p].messages != [] && p in s.trail && s.nextFlight !in s.flights
    ensures SomeOnTheirWay(Launch(c, s, p))
    ensures Running(Launch(c, s, p)) ==> Running(s)
  {
    var s' := Launch(c, s, p);
    assert s'.flights[s.nextFlight].stage == Assembled;
    if Running(s') {
      forall i | i in s.flights ensures s.flights[i].stage != Abandoned {
        assert s'.flights[i] == s.flights[i];
      }
    }
  }

  function AfterTry(c: Config, s: State, p: int, flush: bool): State
    requires c.batchSize > 0 && p in s.bufs && p in s.trail
  {
    if flush then DoFlush(c, s, p) else DoTryDispatch(c, s, p)
  }

  lemma LaunchElsewhere(c: Config, s: State, p: int, q: int)
    requires c.batchSize > 0 && p in s.bufs && s.bufs[p].messages != [] && p in s.trail && q != p
    ensures Waiting(Launch(c, s, p).bufs, q) <==> Waiting(s.bufs, q)
  {
  }

  lemma {:induction false} AttemptElsewhere(c: Config, s: State, p: int, q: int, flush: bool)
    requires c.batchSize > 0 && p in s.bufs && p in s.trail && q != p
    ensures Waiting(AfterTry(c, s, p, flush).bufs, q) <==> Waiting(s.bufs, q)
  {
    if s.bufs[p].messages != [] {
      LaunchElsewhere(c, s, p, q);
    }
  }

  /** After tryDispatch or flushPartition its partition is in flight, armed or empty. */
  lemma {:induction false} AttemptCovers(c: Config, s: State, p: int, flush: bool)
    requires ValidConfig(c) && Tokens(c, s) && p in s.bufs && p in s.trail
    ensures var s' := AfterTry(c, s, p, flush);
      && (Running(s') ==> Running(s))
      && (SomeOnTheirWay(s) ==> SomeOnTheirWay(s'))
      && (Waiting(s'.bufs, p) ==> Armed(s', p) && !flush)
  {
    if !s.bufs[p].inFlight && s.bufs[p].messages != [] && (flush || |s.bufs[p].messages| >= c.batchSize) {
      LaunchIsOnItsWay(c, s, p);
    }
  }

  /** The partition that a goroutine tries in this step. */
  function Tries(t: CrewStep, y: Crew): Option<int>
    requires DeskFits(y, t)
  {
    match t
    case SendTry => Some(y.desk.p)
    case DrainTry(k) => Some(y.jobs[k].rest[0])
    case FlushNow(k) => Some(y.jobs[k].p)
    case _ => None
  }

  /** Having tried one partition, the goroutine owes the others what it owed before. */
  lemma {:induction false} TryingOwesTheRest(c: Config, y: Crew, t: CrewStep, q: int)
    requires ValidConfig(c) && CrewCan(c, y, t) && Tries(t, y).Some? && Tries(t, y).value != q
    ensures var y' := CrewAfter(c, y, t);
      && (Owed(y.desk, y.jobs, q) ==> Owed(y'.desk, y'.jobs, q))
      && (TimerRuns(y, q) ==> TimerRuns(y', q))
  {
    match t {
      case DrainTry(k) =>
        var rest := y.jobs[k].rest;
        assert rest == [rest[0]] + rest[1..];
        MoreJobs(y.jobs, k, CrewAfter(c, y, t).jobs[k], q);
      case FlushNow(k) => OneJobLess(y.jobs, k, q);
      case _ =>
    }
  }

  lemma {:induction false} TryAwake(c: Config, y: Crew, t: CrewStep)
    requires ValidConfig(c) && CrewSound(c, y) && Awake(y) && CrewCan(c, y, t) && Tries(t, y).Some?
    ensures Awake(CrewAfter(c, y, t))
  {
    var p, y' := Tries(t, y).value, CrewAfter(c, y, t);
    assert y'.s == AfterTry(c, y.s, p, t.FlushNow?);
    AttemptCovers(c, y.s, p, t.FlushNow?);
    SoundCrewStep(c, y, t);
    forall q | Running(y'.s) && Waiting(y'.s.bufs, q) ensures Covered(y', q) {
      if q == p {
        ArmedIsCovered(c, y', q);
      } else {
        AttemptElsewhere(c, y.s, p, q, t.FlushNow?);
        TryingOwesTheRest(c, y, t, q);
        StillCovered(y, y', q);
      }
    }
  }

  /** A timer runs out and its callback begins: the callback takes the timer's place. */
  lemma {:induction false} TimerAwake(c: Config, y: Crew, t: CrewStep)
    requires ValidConfig(c) && CrewSound(c, y) && Awake(y) && CrewCan(c, y, t) && (t.Expire? || t.Fire?)
    ensures Awake(CrewAfter(c, y, t))
  {
    var y' := CrewAfter(c, y, t);
    if t.Fire? {
      assert y'.s == DoTimerFires(y.s, y.jobs[t.k].p);
    }
    forall q | Running(y'.s) && Waiting(y'.s.bufs, q) ensures Covered(y', q) {
      if t.Fire? {
        MoreJobs(y.jobs, t.k, Flushing(y.jobs[t.k].p), q);
      } else {
        MoreJobs(y.jobs, y.next, Firing(t.p), q);
      }
      StillCovered(y, y', q);
    }
  }

  lemma {:induction false} SweepAwake(c: Config, y: Crew, i: nat, pending: seq<int>)
    requires ValidConfig(c) && CrewSound(c, y) && CrewCan(c, y, SweepUp(i, pending))
    ensures Awake(CrewAfter(c, y, SweepUp(i, pending)))
  {
    var y' := CrewAfter(c, y, SweepUp(i, pending));
    forall q | Waiting(y'.s.bufs, q) ensures Covered(y', q) {
      MoreJobs(y.jobs, y.next, Draining(pending, None), q);
    }
  }

  function StageAfter(f: FlightEvent, closed: bool): Stage {
    match f
    case CheckClosed => if closed then Stranded else Checked
    case Announce => Announced
    case Enqueue => Queued
    case Refuse => Refused
    case SendClosed => Abandoned
    case Undo => Returned
    case Receive => Working
    case Complete => Handled
    case Abandon => Abandoned
    case PutBack => Returned
    case Sweep => Handled
  }

  lemma CarryShape(c: Config, s: State, i: nat, f: FlightEvent)
    requires FlightEnabled(c, s, i, f) && !f.PutBack? && !f.Sweep?
    ensures var s' := ApplyFlight(s, i, f);
      && s'.bufs == s.bufs && s'.closed == s.closed
      && s'.flights == s.flights[i := s.flights[i].(stage := StageAfter(f, s.closed))]
  {
  }

  lemma {:induction false} SameDebts(jobs: map<nat, Job>, i: nat, f: FlightEvent, p: int)
    requires !f.PutBack?
    ensures SomeJobOwes(jobs, p) ==> SomeJobOwes(JobsAfterCarry(jobs, i, f, false), p)
  {
    if k :| k in jobs && Owes(jobs[k], p) {
      assert k in JobsAfterCarry(jobs, i, f, false) && Owes(JobsAfterCarry(jobs, i, f, false)[k], p);
    }
  }

  /** A step of a batch that neither lands nor is abandoned keeps it on its way. */
  lemma {:induction false} CarryAwake(c: Config, y: Crew, i: nat, f: FlightEvent)
    requires ValidConfig(c) && CrewCan(c, y, CarryOn(i, f)) && !f.PutBack? && Awake(y)
    ensures Awake(CrewAfter(c, y, CarryOn(i, f)))
  {
    var s, y' := y.s, CrewAfter(c, y, CarryOn(i, f));
    CarryShape(c, s, i, f);
    if Running(y'.s) {
      assert y'.s.flights[i].stage == StageAfter(f, s.closed);
      assert OnItsWay(y'.s.flights[i].stage);
      forall j | j in s.flights ensures s.flights[j].stage != Abandoned {
        assert j != i ==> y'.s.flights[j] == s.flights[j];
      }
      forall q | Waiting(y'.s.bufs, q) ensures Covered(y', q) {
        SameDebts(y.jobs, i, f, q);
        StillCovered(y, y', q);
      }
    }
  }

  /** Steps of the poll loop that dispatch nothing. */
  predicate DispatchesNothing(t: CrewStep) {
    t.Skip? || t.Gain? || t.Lose? || t.Look? || t.Keep? || t.Forget? || t.Shut?
  }

  lemma AsidePart(c: Config, s: State, p: int, e: PartEvent, q: int)
    requires ValidConfig(c) && PartEnabled(c, s, p, e) && (e.Assign? || e.RevokeClear? || e.Reset? || e.Discard?)
    ensures var s' := ApplyPart(c, s, p, e);
      && s'.flights == s.flights && s'.closed == s.closed
      && (Waiting(s'.bufs, q) ==> Waiting(s.bufs, q) && (e.RevokeClear? ==> p != q))
  {
  }

  lemma {:induction false} AsideShape(c: Config, y: Crew, t: CrewStep, q: int)
    requires ValidConfig(c) && CrewCan(c, y, t) && DispatchesNothing(t)
    ensures var s' := CrewAfter(c, y, t).s;
      && s'.flights == y.s.flights && (y.s.closed || t.Shut? ==> s'.closed)
      && (!s'.closed && Waiting(s'.bufs, q) ==> Waiting(y.s.bufs, q) && t != Lose(q))
  {
    match ActionOf(y, t) {
      case At(p, e) => AsidePart(c, y.s, p, e, q);
      case _ =>
    }
  }

  lemma {:induction false} AsideAwake(c: Config, y: Crew, t: CrewStep)
    requires ValidConfig(c) && CrewCan(c, y, t) && DispatchesNothing(t) && Awake(y)
    ensures Awake(CrewAfter(c, y, t))
  {
    var y' := CrewAfter(c, y, t);
    forall q | Running(y'.s) && Waiting(y'.s.bufs, q) ensures Covered(y', q) {
      AsideShape(c, y, t, q);
      StillCovered(y, y', q);
    }
  }

  // ---- The put-back, exactly ----

  function AfterPutBackOf(s: State, i: nat): State
    requires Known(s, i)
  {
    Land(s, i, AfterPutBack(s.flights[i].batch, s.bufs[Carrier(s, i)]))
  }

  lemma {:induction false} PutBackFlights(s: State, i: nat)
    requires Known(s, i) && s.flights[i].stage != Abandoned
    ensures var s' := AfterPutBackOf(s, i);
      && (Running(s) <==> Running(s'))
      && (SomeOnTheirWay(s') <==> exists j :: j in s.flights && j != i && OnItsWay(s.flights[j].stage))
  {
    var s' := AfterPutBackOf(s, i);
    assert forall j :: j in s'.flights <==> j in s.flights && j != i;
    assert forall j :: j in s'.flights ==> s'.flights[j] == s.flights[j];
  }

  /** After the put-back its partition waits; the others are as before. */
  lemma {:induction false} PutBackShape(c: Config, s: State, i: nat, q: int)
    requires Tokens(c, s) && FlightEnabled(c, s, i, PutBack)
    ensures var s' := AfterPutBackOf(s, i);
      && (Running(s) <==> Running(s'))
      && (SomeOnTheirWay(s') <==> exists j :: j in s.flights && j != i && OnItsWay(s.flights[j].stage))
      && (Waiting(s'.bufs, q) <==> q == Carrier(s, i) || Waiting(s.bufs, q))
  {
    PutBackFlights(s, i);
    assert Token(c, Carrier(s, i), ViewOf(s, Carrier(s, i)));
  }

  lemma {:induction false} PutBackLeaves(c: Config, y: Crew, i: nat, q: int)
    requires ValidConfig(c) && Tokens(c, y.s) && CrewCan(c, y, CarryOn(i, PutBack))
    ensures var y' := CrewAfter(c, y, CarryOn(i, PutBack));
      && (Running(y'.s) <==> Running(y.s))
      && (Waiting(y'.s.bufs, q) && !Covered(y', q) <==>
            LeftAlone(y, i, q) && forall j :: j in y.s.flights && j != i ==> !OnItsWay(y.s.flights[j].stage))
  {
    PutBackOutcome(c, y, i);
    PutBackShape(c, y.s, i, q);
  }

  lemma PutBackOutcome(c: Config, y: Crew, i: nat)
    requires ValidConfig(c) && CrewCan(c, y, CarryOn(i, PutBack))
    ensures CrewAfter(c, y, CarryOn(i, PutBack))
         == Crew(AfterPutBackOf(y.s, i), DeskAfter(y, CarryOn(i, PutBack), y.s),
                 JobsAfterCarry(y.jobs, i, PutBack, y.s.closed), y.next, y.ticking, y.stray)
  {
  }

  lemma {:induction false} PutBackExact(c: Config, y: Crew, i: nat)
    requires ValidConfig(c) && CrewSound(c, y) && CrewCan(c, y, CarryOn(i, PutBack))
    ensures Awake(CrewAfter(c, y, CarryOn(i, PutBack))) <==> !Forgets(y, CarryOn(i, PutBack))
  {
    var y' := CrewAfter(c, y, CarryOn(i, PutBack));
    PutBackLeaves(c, y, i, Carrier(y.s, i));
    if Forgets(y, CarryOn(i, PutBack)) {
      var q :| LeftAlone(y, i, q);
      PutBackLeaves(c, y, i, q);
    } else {
      forall q | Running(y'.s) && Waiting(y'.s.bufs, q) ensures Covered(y', q) {
        PutBackLeaves(c, y, i, q);
      }
    }
  }

  // ---- Runs ----

  /** A step leaves every waiting partition with somebody to come back for it, unless it forgets one. */
  lemma {:induction false} StepForgetsExactly(c: Config, y: Crew, t: CrewStep)
    requires ValidConfig(c) && CrewSound(c, y) && Awake(y) && CrewCan(c, y, t)
    ensures Awake(CrewAfter(c, y, t)) <==> !Forgets(y, t)
  {
    match t {
      case Arrive(p, n) => ArriveAwake(c, y, p, n);
      case SendTry => TryAwake(c, y, t);
      case DrainTry(_) => TryAwake(c, y, t);
      case FlushNow(_) => TryAwake(c, y, t);
      case Expire(_) => TimerAwake(c, y, t);
      case Fire(_) => TimerAwake(c, y, t);
      case SweepUp(i, pending) => SweepAwake(c, y, i, pending);
      case CarryOn(i, f) =>
        if f.PutBack? {
          PutBackExact(c, y, i);
        } else {
          CarryAwake(c, y, i, f);
        }
      case _ => AsideAwake(c, y, t);
    }
  }

  /** No step of the run forgets a partition. */
  ghost predicate ForgetsNobody(c: Config, y: Crew, steps: seq<CrewStep>)
    requires ValidConfig(c)
    decreases |steps|
  {
    steps == [] || (&& CrewCan(c, y, steps[0]) && !Forgets(y, steps[0])
                    && ForgetsNobody(c, CrewAfter(c, y, steps[0]), steps[1..]))
  }

  lemma {:induction false} AwakeRun(c: Config, y: Crew, steps: seq<CrewStep>, last: Crew)
    requires ValidConfig(c) && CrewSound(c, y) && Awake(y) && CrewRun(c, y, steps, last) && ForgetsNobody(c, y, steps)
    ensures CrewSound(c, last) && Awake(last)
    decreases |steps|
  {
    if steps != [] {
      StepForgetsExactly(c, y, steps[0]);
      SoundCrewStep(c, y, steps[0]);
      AwakeRun(c, CrewAfter(c, y, steps[0]), steps[1..], last);
    }
  }

  /**
   * No lost wake-up: in every schedule, until shutdown begins, a partition with buffered
   * messages and no batch in flight has a running linger timer, or a goroutine that has yet
   * to try it, or some batch is on its way to a sweep; unless a put-back of the schedule
   * forgot a partition.
   */
  lemma {:induction false} NoLostWakeUp(c: Config, steps: seq<CrewStep>, y: Crew, p: int)
    requires ValidConfig(c) && CrewRun(c, CrewBoot(c), steps, y) && ForgetsNobody(c, CrewBoot(c), steps)
    requires Running(y.s) && Waiting(y.s.bufs, p)
    ensures Covered(y, p)
  {
    BootIsSound(c);
    AwakeRun(c, CrewBoot(c), steps, y);
  }

  /** Nobody but workers and timers has anything left to do. */
  predicate AtRest(y: Crew) {
    && y.desk == Free
    && (forall k :: k in y.jobs ==> y.jobs[k].Draining? && y.jobs[k].rest == [])
    && (forall i :: i in y.s.flights ==> y.s.flights[i].stage in {Queued, Working, Handled})
  }

  /** Its timer runs, or some batch is queued, at a worker or about to be swept. */
  predicate SomebodyComes(y: Crew, p: int) {
    TimerRuns(y, p) || exists i :: i in y.s.flights && y.s.flights[i].stage in {Queued, Working, Handled}
  }

  /**
   * So when Send, callbacks and sweeps have come to rest, the partition's timer runs or some
   * batch is queued, at a worker or about to be swept.
   */
  lemma {:induction false} AtRestSomebodyComes(c: Config, steps: seq<CrewStep>, y: Crew, p: int)
    requires ValidConfig(c) && CrewRun(c, CrewBoot(c), steps, y) && ForgetsNobody(c, CrewBoot(c), steps)
    requires Running(y.s) && Waiting(y.s.bufs, p) && AtRest(y)
    ensures SomebodyComes(y, p)
  {
    NoLostWakeUp(c, steps, y, p);
  }

  /** In every schedule a put-back that meets the condition leaves some partition to nobody. */
  lemma {:induction false} ForgottenIsLost(c: Config, steps: seq<CrewStep>, y: Crew, t: CrewStep)
    requires ValidConfig(c) && CrewRun(c, CrewBoot(c), steps, y) && CrewCan(c, y, t) && Forgets(y, t)
    ensures var y' := CrewAfter(c, y, t); Running(y'.s) && exists q :: Waiting(y'.s.bufs, q) && !Covered(y', q)
  {
    BootIsSound(c);
    SoundCrewRun(c, CrewBoot(c), steps, y);
    PutBackExact(c, y, t.i);
  }

  // ---- With dispatchBatch in one piece ----

  /** A refused batch is put back with no other step in between; `open` is one that is being undone. */
  predicate UndoInOnePiece(steps: seq<CrewStep>, open: Option<nat>)
    decreases |steps|
  {
    steps == [] ||
    match open
    case Some(i) =>
      || (steps[0] == CarryOn(i, Undo) && UndoInOnePiece(steps[1..], open))
      || (steps[0] == CarryOn(i, PutBack) && UndoInOnePiece(steps[1..], None))
    case None =>
      if steps[0].CarryOn? && steps[0].f.Refuse? then UndoInOnePiece(steps[1..], Some(steps[0].i))
      else !(steps[0].CarryOn? && (steps[0].f.Undo? || steps[0].f.PutBack?)) && UndoInOnePiece(steps[1..], None)
  }

  /** A put-back that still finds a batch in the channel forgets nobody. */
  lemma {:induction false} QueueRemembers(c: Config, y: Crew, i: nat)
    requires ValidConfig(c) && CrewSound(c, y) && CrewCan(c, y, CarryOn(i, PutBack)) && y.s.channel != []
    ensures !Forgets(y, CarryOn(i, PutBack))
  {
    var j := y.s.channel[0];
    assert ChannelMatches(c, y.s);
    QueuedRemembers(c, y, i, j);
  }

  lemma QueuedRemembers(c: Config, y: Crew, i: nat, j: nat)
    requires ValidConfig(c) && CrewCan(c, y, CarryOn(i, PutBack)) && j in y.s.flights && y.s.flights[j].stage == Queued
    ensures !Forgets(y, CarryOn(i, PutBack))
  {
  }

  lemma RefusalKeepsChannel(c: Config, y: Crew, i: nat, f: FlightEvent)
    requires ValidConfig(c) && CrewCan(c, y, CarryOn(i, f)) && (f.Refuse? || f.Undo?)
    ensures CrewAfter(c, y, CarryOn(i, f)).s.channel == y.s.channel
  {
  }

  lemma {:induction false} OnePieceForgetsNobody(c: Config, y: Crew, steps: seq<CrewStep>, last: Crew,
                                                 open: Option<nat>)
    requires ValidConfig(c) && CrewSound(c, y) && CrewRun(c, y, steps, last) && UndoInOnePiece(steps, open)
    requires open.Some? ==> y.s.channel != []
    ensures ForgetsNobody(c, y, steps)
    decreases |steps|
  {
    if steps != [] {
      var t := steps[0];
      SoundCrewStep(c, y, t);
      if t.CarryOn? && t.f.PutBack? {
        QueueRemembers(c, y, t.i);
        OnePieceForgetsNobody(c, CrewAfter(c, y, t), steps[1..], last, None);
      } else if t.CarryOn? && (t.f.Refuse? || t.f.Undo?) {
        RefusalKeepsChannel(c, y, t.i, t.f);
        OnePieceForgetsNobody(c, CrewAfter(c, y, t), steps[1..], last, Some(t.i));
      } else {
        OnePieceForgetsNobody(c, CrewAfter(c, y, t), steps[1..], last, None);
      }
    }
  }

  /** With the undo in one piece, as when dispatchBatch is one atomic step, no wake-up is ever lost. */
  lemma {:induction false} UndoInOnePieceLosesNothing(c: Config, steps: seq<CrewStep>, y: Crew, p: int)
    requires ValidConfig(c) && CrewRun(c, CrewBoot(c), steps, y) && UndoInOnePiece(steps, None)
    requires Running(y.s) && Waiting(y.s.bufs, p)
    ensures Covered(y, p)
  {
    BootIsSound(c);
    OnePieceForgetsNobody(c, CrewBoot(c), steps, y, None);
    NoLostWakeUp(c, steps, y, p);
  }

  /** And at rest somebody comes. */
  lemma {:induction false} UndoInOnePieceSomebodyComes(c: Config, steps: seq<CrewStep>, y: Crew, p: int)
    requires ValidConfig(c) && CrewRun(c, CrewBoot(c), steps, y) && UndoInOnePiece(steps, None)
    requires Running(y.s) && Waiting(y.s.bufs, p) && AtRest(y)
    ensures SomebodyComes(y, p)
  {
    UndoInOnePieceLosesNothing(c, steps, y, p);
  }
}
