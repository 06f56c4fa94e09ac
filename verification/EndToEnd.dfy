/**
 * The poll loop driving the pipeline: whether a polled message is buffered or dropped is
 * no longer a free choice but decided by the loop's pause and degraded state, which follows
 * from what the loop itself did and from the breaker's notices.
 */
module EndToEnd {
  import opened Types
  import opened Buffers
  import opened Pipeline
  import opened Views
  import opened Degraded
  import opened PollLoop
  import opened LoopHistory
  import opened Schedule
  import opened Replay
  import Breaker
  import CommitSafety
  import Assignment

  datatype System = System(crew: Crew, loop: Loop, breaker: Breaker.Circuit, notices: seq<Breaker.Circuit>)

  /** With each step, the fate of the broker calls that the loop makes in it. */
  datatype SystemStep =
    | Sched(t: CrewStep, k: Calls)      // a step of the schedule
    | Flips(to: Breaker.Circuit)        // a worker's attempt changes the breaker
    | Hears(k: Calls)                   // the loop takes a notice
    | Room(k: Calls)                    // the loop takes the ready signal

  /** Paused partitions deliver nothing, and rebalances name new or held partitions. */
  predicate LoopAllows(v: Loop, t: CrewStep) {
    match t
    case Arrive(p, _) => Delivers(v, p) && !Drops(v, p)
    case Skip(p, _) => Delivers(v, p) && Drops(v, p)
    case Gain(p) => p !in v.kAssigned
    case Lose(p) => p in v.kAssigned
    case _ => true
  }

  predicate AtWorker(s: State) {
    exists i :: i in s.flights && s.flights[i].stage == Working
  }

  ghost predicate SystemCan(c: Config, y: System, t: SystemStep)
    requires ValidConfig(c)
  {
    match t
    case Sched(u, _) => CrewCan(c, y.crew, u) && LoopAllows(y.loop, u)
    case Flips(to) => Breaker.Legal(y.breaker, to) && AtWorker(y.crew.s)
    case Hears(_) => y.crew.desk == Free && y.notices != []
    case Room(_) => y.crew.desk == Free
  }

  /** Send is about to return ErrBackpressure. */
  predicate MeetsBackpressure(y: Crew, t: CrewStep) {
    t.CarryOn? && t.f.PutBack? && y.desk.InSend? && y.desk.carried == Some(t.i)
  }

  /** What the loop makes of a step. */
  function EventOf(y: Crew, t: CrewStep): Option<Event> {
    match t
    case Gain(p) => Some(Grant([p]))
    case Forget(p) => Some(Withdraw([p]))
    case Keep(ok) => if y.desk.HasRead? then Some(Tick(y.s.snapshot != map[], ok)) else None
    case CarryOn(_, _) => if MeetsBackpressure(y, t) then Some(Pushback(y.desk.p)) else None
    case _ => None
  }

  function LoopAfter(threshold: nat, y: System, t: SystemStep): Loop {
    match t
    case Sched(u, k) =>
      var e := EventOf(y.crew, u);
      if e.Some? then React(threshold, y.loop, e.value, k) else y.loop
    case Flips(_) => y.loop
    case Hears(k) => if y.notices == [] then y.loop else React(threshold, y.loop, Notice(y.notices[0]), k)
    case Room(k) => React(threshold, y.loop, Capacity, k)
  }

  ghost function SystemAfter(c: Config, threshold: nat, y: System, t: SystemStep): System
    requires ValidConfig(c) && SystemCan(c, y, t)
  {
    var v := LoopAfter(threshold, y, t);
    match t
    case Sched(u, _) => y.(crew := CrewAfter(c, y.crew, u), loop := v)
    case Flips(to) =>
      y.(breaker := to, notices := if |y.notices| < Breaker.NOTICES then y.notices + [to] else y.notices)
    case Hears(_) => y.(loop := v, notices := y.notices[1..])
    case Room(_) => y.(loop := v)
  }

  ghost predicate SystemRun(c: Config, threshold: nat, y: System, steps: seq<SystemStep>, last: System)
    requires ValidConfig(c)
    decreases |steps|
  {
    if steps == [] then y == last
    else SystemCan(c, y, steps[0]) && SystemRun(c, threshold, SystemAfter(c, threshold, y, steps[0]), steps[1..], last)
  }

  function SystemBoot(c: Config): System {
    System(CrewBoot(c), Started(), Breaker.Closed, [])
  }

  /** Pause and resume calls succeed, and no assignment arrives while degraded. */
  predicate Healthy(y: System, t: SystemStep) {
    && (t.Flips? || t.k == ALL_WORK)
    && (t.Sched? && t.t.Gain? ==> y.loop.reasons == {})
  }

  ghost predicate HealthyRun(c: Config, threshold: nat, y: System, steps: seq<SystemStep>)
    requires ValidConfig(c)
    decreases |steps|
  {
    steps == [] || (&& SystemCan(c, y, steps[0]) && Healthy(y, steps[0])
                    && HealthyRun(c, threshold, SystemAfter(c, threshold, y, steps[0]), steps[1..]))
  }

  /** The loop's pauses are the broker's, and Send runs only outside degraded mode. */
  predicate Steady(y: System) {
    && Tracked(y.loop)
    && (y.crew.desk.InSend? ==> y.loop.reasons == {} && y.crew.desk.p in y.loop.kAssigned)
  }

  lemma {:induction false} SendStays(c: Config, y: Crew, t: CrewStep)
    requires ValidConfig(c) && CrewCan(c, y, t) && CrewAfter(c, y, t).desk.InSend?
    ensures t.Arrive? || (y.desk.InSend? && y.desk.p == CrewAfter(c, y, t).desk.p)
    ensures t.Arrive? ==> CrewAfter(c, y, t).desk.p == t.p
    ensures EventOf(y, t).None?
  {
  }

  lemma {:induction false} EventExpected(c: Config, y: System, t: CrewStep, k: Calls)
    requires ValidConfig(c) && SystemCan(c, y, Sched(t, k)) && Healthy(y, Sched(t, k)) && Steady(y)
    ensures EventOf(y.crew, t).Some? ==> Expected(y.loop, EventOf(y.crew, t).value)
  {
    if t.Gain? {
      MembersOfSeq([t.p]);
    }
  }

  lemma {:induction false} SteadyAfter(c: Config, threshold: nat, y: System, t: SystemStep)
    requires ValidConfig(c) && SystemCan(c, y, t) && Healthy(y, t) && Steady(y)
    ensures Steady(SystemAfter(c, threshold, y, t))
  {
    match t {
      case Sched(u, k) =>
        EventExpected(c, y, u, k);
        if EventOf(y.crew, u).Some? {
          TrackedStep(threshold, y.loop, EventOf(y.crew, u).value);
        }
        if CrewAfter(c, y.crew, u).desk.InSend? {
          SendStays(c, y.crew, u);
        }
      case Flips(_) =>
      case Hears(_) => TrackedStep(threshold, y.loop, Notice(y.notices[0]));
      case Room(_) => TrackedStep(threshold, y.loop, Capacity);
    }
  }

  lemma {:induction false} DiscardIsSkip(y: Crew, t: CrewStep)
    requires DeskFits(y, t) && !t.Expire? && !t.Skip?
    ensures !(ActionOf(y, t).At? && ActionOf(y, t).e.Discard?)
  {
  }

  /** Leaving the loop out of a healthy system run leaves a pipeline run that discards nothing. */
  lemma {:induction false} DrivenRunDiscardsNothing(c: Config, threshold: nat, y: System, steps: seq<SystemStep>,
                                                    last: System, p: int)
    returns (acts: seq<Action>)
    requires ValidConfig(c) && SystemRun(c, threshold, y, steps, last) && HealthyRun(c, threshold, y, steps)
    requires Steady(y)
    ensures Run(c, y.crew.s, acts, last.crew.s) && CommitSafety.DiscardsNothing(acts, p) && Steady(last)
    decreases |steps|
  {
    if steps == [] {
      return [];
    }
    SteadyAfter(c, threshold, y, steps[0]);
    var later := DrivenRunDiscardsNothing(c, threshold, SystemAfter(c, threshold, y, steps[0]), steps[1..], last, p);
    if !steps[0].Sched? || steps[0].t.Expire? {
      return later;
    }
    var t := steps[0].t;
    if t.Skip? {
      TrackedNeverDrops(y.loop, t.p);
    }
    DiscardIsSkip(y.crew, t);
    acts := [ActionOf(y.crew, t)] + later;
    assert acts[1..] == later;
  }

  /**
   * Commit safety of the whole consumer: with at most ChannelCap partitions, successful
   * pause and resume calls and no assignment while degraded, every message of the log
   * below the committed offset has been handled, in every schedule.
   */
  lemma {:induction false} CommittedIsHandledEndToEnd(c: Config, threshold: nat, steps: seq<SystemStep>, y: System,
                                                      p: int, j: nat)
    requires ValidConfig(c) && SystemRun(c, threshold, SystemBoot(c), steps, y)
    requires HealthyRun(c, threshold, SystemBoot(c), steps) && |y.crew.s.bufs| <= c.channelCap
    requires var s := y.crew.s;
      p in s.committed && p in c.logs && j < |c.logs[p]| && c.logs[p][j].offset < s.committed[p]
    ensures p in y.crew.s.trail && c.logs[p][j].offset in y.crew.s.trail[p].done
  {
    var acts := DrivenRunDiscardsNothing(c, threshold, SystemBoot(c), steps, y, p);
    CommitSafety.CommittedIsHandled(c, acts, y.crew.s, p, j);
  }

  /**
   * And everything the client returned in this assignment was sent, and is handled, in
   * flight, buffered or dropped by a revocation, in log order.
   */
  lemma {:induction false} NothingPolledIsLost(c: Config, threshold: nat, steps: seq<SystemStep>, y: System, p: int)
    requires ValidConfig(c) && SystemRun(c, threshold, SystemBoot(c), steps, y)
    requires HealthyRun(c, threshold, SystemBoot(c), steps) && |y.crew.s.bufs| <= c.channelCap && p in c.logs
    ensures Assignment.Accounted(y.crew.s, p)
    ensures var t := y.crew.s.trail[p]; t.start <= t.pos <= |c.logs[p]| && t.sent == c.logs[p][t.start..t.pos]
  {
    var acts := DrivenRunDiscardsNothing(c, threshold, SystemBoot(c), steps, y, p);
    Assignment.NothingLostWithFewPartitions(c, acts, y.crew.s, p);
    InitTokens(c);
    CommitSafety.PolledIsSent(c, Init(c), acts, y.crew.s, p);
  }

  /** In every healthy run outside degraded mode the ready signal sets every assigned partition going. */
  lemma {:induction false} RoomResumesAll(c: Config, threshold: nat, steps: seq<SystemStep>, y: System, p: int)
    requires ValidConfig(c) && SystemRun(c, threshold, SystemBoot(c), steps, y)
    requires HealthyRun(c, threshold, SystemBoot(c), steps)
    requires y.crew.desk == Free && y.loop.reasons == {} && p in y.loop.kAssigned
    ensures SystemCan(c, y, Room(ALL_WORK))
    ensures var v := SystemAfter(c, threshold, y, Room(ALL_WORK)).loop; Delivers(v, p) && !Drops(v, p)
  {
    var acts := DrivenRunDiscardsNothing(c, threshold, SystemBoot(c), steps, y, p);
    ReadyResumesAll(y.loop, ALL_WORK);
  }

  /** And a Send that meets backpressure pauses its partition. */
  lemma {:induction false} RefusedSendPauses(c: Config, threshold: nat, y: System, t: CrewStep)
    requires ValidConfig(c) && SystemCan(c, y, Sched(t, ALL_WORK)) && MeetsBackpressure(y.crew, t)
    requires y.crew.desk.p !in y.loop.paused
    ensures !Delivers(SystemAfter(c, threshold, y, Sched(t, ALL_WORK)).loop, y.crew.desk.p)
  {
    BackpressureStops(y.loop, y.crew.desk.p, ALL_WORK, y.crew.desk.p);
  }

  // ---- Without the second condition ----

  ghost predicate SystemStepsKeep(c: Config, threshold: nat, R: System -> bool)
    requires ValidConfig(c)
  {
    forall y, t :: R(y) && SystemCan(c, y, t) ==> R(SystemAfter(c, threshold, y, t))
  }

  /** Some run leads from `y0` to `y`: whatever steps keep, it keeps. */
  ghost predicate SystemLeads(c: Config, threshold: nat, y0: System, y: System)
    requires ValidConfig(c)
  {
    forall R: System -> bool :: SystemStepsKeep(c, threshold, R) && R(y0) ==> R(y)
  }

  lemma {:induction false} SystemLeadsJoin(c: Config, threshold: nat, y0: System, y1: System, y2: System)
    requires ValidConfig(c) && SystemLeads(c, threshold, y0, y1) && SystemLeads(c, threshold, y1, y2)
    ensures SystemLeads(c, threshold, y0, y2)
  {
  }

  lemma {:induction false} Does(c: Config, threshold: nat, y0: System, y: System, t: SystemStep) returns (y': System)
    requires ValidConfig(c) && SystemLeads(c, threshold, y0, y) && SystemCan(c, y, t)
    ensures SystemLeads(c, threshold, y0, y') && y' == SystemAfter(c, threshold, y, t)
  {
    y' := SystemAfter(c, threshold, y, t);
  }

  lemma {:induction false} SystemThen(c: Config, threshold: nat, y0: System, steps: seq<SystemStep>, y: System,
                                      t: SystemStep)
    requires ValidConfig(c) && SystemRun(c, threshold, y0, steps, y) && SystemCan(c, y, t)
    ensures SystemRun(c, threshold, y0, steps + [t], SystemAfter(c, threshold, y, t))
    decreases |steps|
  {
    if steps == [] {
      assert [] + [t] == [t] && [t][1..] == [];
    } else {
      SystemThen(c, threshold, SystemAfter(c, threshold, y0, steps[0]), steps[1..], y, t);
      assert (steps + [t])[1..] == steps[1..] + [t];
    }
  }

  ghost predicate SystemReaches(c: Config, threshold: nat, y0: System, y: System)
    requires ValidConfig(c)
  {
    exists steps :: SystemRun(c, threshold, y0, steps, y)
  }

  lemma {:induction false} ReachesThen(c: Config, threshold: nat, y0: System, y: System, t: SystemStep)
    requires ValidConfig(c) && SystemReaches(c, threshold, y0, y) && SystemCan(c, y, t)
    ensures SystemReaches(c, threshold, y0, SystemAfter(c, threshold, y, t))
  {
    var steps :| SystemRun(c, threshold, y0, steps, y);
    SystemThen(c, threshold, y0, steps, y, t);
  }

  lemma {:induction false} SystemLeadsIsRun(c: Config, threshold: nat, y0: System, y: System)
    returns (steps: seq<SystemStep>)
    requires ValidConfig(c) && SystemLeads(c, threshold, y0, y)
    ensures SystemRun(c, threshold, y0, steps, y)
  {
    var R := z => SystemReaches(c, threshold, y0, z);
    assert R(y0) by {
      assert SystemRun(c, threshold, y0, [], y0);
    }
    forall z, t | R(z) && SystemCan(c, z, t) ensures R(SystemAfter(c, threshold, z, t)) {
      ReachesThen(c, threshold, y0, z, t);
    }
    assert SystemStepsKeep(c, threshold, R);
    assert R(y);
    steps :| SystemRun(c, threshold, y0, steps, y);
  }

  /** Steps that concern nobody but timers, workers and sweeps leave the loop alone. */
  lemma {:induction false} QuietLift(c: Config, threshold: nat, y: System, steps: seq<CrewStep>, last: Crew)
    requires ValidConfig(c) && CrewRun(c, y.crew, steps, last) && AllBackground(steps)
    ensures SystemLeads(c, threshold, y, y.(crew := last))
    decreases |steps|
  {
    if steps != [] {
      assert Background(steps[0]);
      var next := Does(c, threshold, y, y, Sched(steps[0], ALL_WORK));
      assert next == y.(crew := CrewAfter(c, y.crew, steps[0]));
      QuietLift(c, threshold, next, steps[1..], last);
      SystemLeadsJoin(c, threshold, y, next, y.(crew := last));
    }
  }

  lemma {:induction false} QuietlyLeads(c: Config, threshold: nat, y: System, last: Crew)
    requires ValidConfig(c) && Leads(c, true, y.crew, last)
    ensures SystemLeads(c, threshold, y, y.(crew := last))
  {
    var steps := LeadsIsRun(c, true, y.crew, last);
    QuietLift(c, threshold, y, steps, last);
  }

  /** The schedule of a system run is a schedule. */
  lemma {:induction false} CrewOf(c: Config, threshold: nat, y: System, steps: seq<SystemStep>, last: System)
    requires ValidConfig(c) && SystemRun(c, threshold, y, steps, last)
    ensures Leads(c, false, y.crew, last.crew)
    decreases |steps|
  {
    if steps != [] {
      var next := SystemAfter(c, threshold, y, steps[0]);
      CrewOf(c, threshold, next, steps[1..], last);
      if steps[0].Sched? {
        LeadsThen(c, false, y.crew, y.crew, steps[0].t);
        LeadsJoin(c, false, y.crew, next.crew, last.crew);
      }
    }
  }

  /** The loop is healthy and idle, `p` is new, and a batch of another partition is at a worker. */
  predicate Quiescent(y: System, p: int) {
    && y.breaker == Breaker.Closed && y.notices == [] && y.loop.reasons == {} && Tracked(y.loop)
    && y.crew.desk == Free && !y.crew.s.closed && AtWorker(y.crew.s) && p !in y.loop.kAssigned
  }

  /** The breaker opens and the loop hears of it. */
  lemma {:induction false} Degrades(c: Config, threshold: nat, y: System, p: int) returns (y': System)
    requires ValidConfig(c) && Quiescent(y, p)
    ensures SystemLeads(c, threshold, y, y')
    ensures y' == y.(breaker := Breaker.Open, loop := y'.loop)
    ensures y'.loop.reasons == {TargetUnavailable} && y'.loop.kAssigned == y.loop.kAssigned && p !in y'.loop.kPaused
  {
    var opening := Does(c, threshold, y, y, Flips(Breaker.Open));
    y' := Does(c, threshold, y, opening, Hears(ALL_WORK));
  }

  /** The breaker probes and closes, and the loop hears of it. */
  lemma {:induction false} Recovers(c: Config, threshold: nat, y0: System, y: System, p: int) returns (y': System)
    requires ValidConfig(c) && SystemLeads(c, threshold, y0, y)
    requires y.breaker == Breaker.Open && y.notices == [] && y.loop.reasons == {TargetUnavailable}
    requires y.crew.desk == Free && AtWorker(y.crew.s) && p in y.loop.kAssigned
    ensures SystemLeads(c, threshold, y0, y') && y'.crew == y.crew
    ensures Delivers(y'.loop, p) && !Drops(y'.loop, p)
  {
    var probing := Does(c, threshold, y0, y, Flips(Breaker.HalfOpen));
    var closing := Does(c, threshold, y0, probing, Flips(Breaker.Closed));
    var first := Does(c, threshold, y0, closing, Hears(ALL_WORK));
    assert first.loop == y.loop && first.notices == [Breaker.Closed];
    assert y.loop.reasons - {TargetUnavailable} == {};
    y' := Does(c, threshold, y0, first, Hears(ALL_WORK));
  }

  /** Nothing of `p` is under way, and its log goes on with an unhandled message and another one. */
  predicate AboutToBegin(c: Config, s: State, p: int) {
    && p in c.logs && p in s.trail
    && var v := ViewOf(s, p);
    && v.t.phase == Unassigned && v.flight.None? && (v.buf.None? || v.buf.value == NewBuf())
    && Resume(c, p, v) + 1 < |c.logs[p]| && c.logs[p][Resume(c, p, v)].offset !in v.t.done
  }

  /** While degraded the partition is assigned and its next message polled. */
  lemma {:induction false} AssignedAndDropped(c: Config, threshold: nat, y0: System, y: System, p: int)
    returns (y': System)
    requires ValidConfig(c) && SystemLeads(c, threshold, y0, y) && y.crew.desk == Free && !y.crew.s.closed
    requires Leads(c, false, CrewBoot(c), y.crew) && AboutToBegin(c, y.crew.s, p)
    requires y.loop.reasons == {TargetUnavailable} && p !in y.loop.kAssigned && p !in y.loop.kPaused
    ensures SystemLeads(c, threshold, y0, y') && Comes(c, false, y.crew, y'.crew, p)
    ensures y' == y.(crew := y'.crew, loop := y'.loop) && y'.loop.reasons == y.loop.reasons && p in y'.loop.kAssigned
    ensures y'.crew.desk == Free && y'.crew.s.flights == y.crew.s.flights
    ensures var v, k := ViewOf(y.crew.s, p), Resume(c, p, ViewOf(y.crew.s, p));
      ViewOf(y'.crew.s, p) == VDiscard(VAssign(v, k), 1)
  {
    var same := Play(c, false, y.crew, y.crew, Gain(p), p);
    var gained := Does(c, threshold, y0, y, Sched(Gain(p), ALL_WORK));
    y' := Dropped(c, threshold, y0, y.crew, gained, p);
  }

  lemma {:induction false} Dropped(c: Config, threshold: nat, y0: System, base: Crew, y: System, p: int)
    returns (y': System)
    requires ValidConfig(c) && SystemLeads(c, threshold, y0, y) && Comes(c, false, base, y.crew, p)
    requires y.crew.desk == Free
    requires Delivers(y.loop, p) && Drops(y.loop, p) && PartFits(c, p, ViewOf(y.crew.s, p), Discard(1))
    ensures SystemLeads(c, threshold, y0, y') && Comes(c, false, base, y'.crew, p)
    ensures y' == y.(crew := y.crew.(s := y'.crew.s)) && y'.crew.s.flights == y.crew.s.flights
    ensures ViewOf(y'.crew.s, p) == VDiscard(ViewOf(y.crew.s, p), 1)
  {
    var same := Play(c, false, base, y.crew, Skip(p, 1), p);
    y' := Does(c, threshold, y0, y, Sched(Skip(p, 1), ALL_WORK));
  }

  /** The next message is sent. */
  lemma {:induction false} SendsNext(c: Config, threshold: nat, y0: System, y: System, p: int) returns (y': System)
    requires ValidConfig(c) && SystemLeads(c, threshold, y0, y) && Comes(c, false, y.crew, y.crew, p)
    requires y.crew.desk == Free && Delivers(y.loop, p) && !Drops(y.loop, p)
    requires PartFits(c, p, ViewOf(y.crew.s, p), Deliver(1))
    ensures SystemLeads(c, threshold, y0, y') && Comes(c, true, y'.crew, y'.crew, p) && y'.crew.desk == InSend(p, None)
    ensures y' == y.(crew := y'.crew) && ViewOf(y'.crew.s, p) == VDeliver(c, p, ViewOf(y.crew.s, p), 1)
    ensures y'.crew == y.crew.(s := DoDeliver(c, y.crew.s, p, 1), desk := InSend(p, None))
  {
    var same := Play(c, false, y.crew, y.crew, Arrive(p, 1), p);
    y' := Does(c, threshold, y0, y, Sched(Arrive(p, 1), ALL_WORK));
    AnewFrom(c, y.crew, y'.crew, p);
  }

  /** A single buffered message is cut and handled. */
  lemma {:induction false} HandledAlone(c: Config, y: Crew, p: int) returns (y': Crew)
    requires ValidConfig(c) && Comes(c, true, y, y, p) && y.desk == InSend(p, None)
    requires var b := ViewOf(y.s, p).buf; b.Some? && |b.value.messages| == 1 && !b.value.inFlight
    ensures Comes(c, true, y, y', p) && y'.desk == Free
    ensures var v, m := ViewOf(y.s, p), ViewOf(y.s, p).buf.value.messages[0];
      && Reported(ViewOf(y'.s, p).rec) == Some(m.offset + 1)
      && ViewOf(y'.s, p).t.done == v.t.done + OffsetsOf([m])
  {
    var ms := ViewOf(y.s, p).buf.value.messages;
    assert ms[..1] == [ms[0]] && ms[..1][0] == ms[0];
    var cut := PlaySendCut(c, true, y, y, p);
    y' := PlayWhole(c, true, y, cut, p);
  }

  /** A commit tick that succeeds. */
  lemma {:induction false} Commits(c: Config, threshold: nat, y0: System, y: System, base: Crew, p: int)
    returns (y': System)
    requires ValidConfig(c) && SystemLeads(c, threshold, y0, y) && Comes(c, true, base, y.crew, p)
    requires y.crew.desk == Free && Reported(ViewOf(y.crew.s, p).rec).Some?
    ensures SystemLeads(c, threshold, y0, y') && p in y'.crew.s.trail && p in y'.crew.s.committed
    ensures Some(y'.crew.s.committed[p]) == Reported(ViewOf(y.crew.s, p).rec)
    ensures y'.crew.s.trail[p] == y.crew.s.trail[p]
  {
    var read := Does(c, threshold, y0, y, Sched(Look, ALL_WORK));
    y' := Does(c, threshold, y0, read, Sched(Keep(true), ALL_WORK));
  }

  /** The next message is sent, handled and committed. */
  lemma {:induction false} SentAndCommitted(c: Config, threshold: nat, y0: System, y: System, p: int)
    returns (y': System)
    requires ValidConfig(c) && SystemLeads(c, threshold, y0, y) && Comes(c, false, y.crew, y.crew, p)
    requires y.crew.desk == Free && Delivers(y.loop, p) && !Drops(y.loop, p)
    requires PartFits(c, p, ViewOf(y.crew.s, p), Deliver(1)) && ViewOf(y.crew.s, p).buf == Some(NewBuf())
    ensures SystemLeads(c, threshold, y0, y') && p in y'.crew.s.trail && p in y'.crew.s.committed
    ensures var t := ViewOf(y.crew.s, p).t; var m := c.logs[p][t.pos];
      y'.crew.s.committed[p] == m.offset + 1 && y'.crew.s.trail[p].done == t.done + OffsetsOf([m])
  {
    var k := ViewOf(y.crew.s, p).t.pos;
    assert [] + c.logs[p][k..k + 1] == [c.logs[p][k]];
    var sent := SendsNext(c, threshold, y0, y, p);
    var after := HandledAlone(c, sent.crew, p);
    QuietlyLeads(c, threshold, sent, after);
    SystemLeadsJoin(c, threshold, y0, sent, sent.(crew := after));
    y' := Commits(c, threshold, y0, sent.(crew := after), sent.crew, p);
  }

  /** Message `k` of the log was neither handled nor will be asked for again. */
  predicate Lost(c: Config, s: State, p: int, k: nat)
    requires p in c.logs && k < |c.logs[p]|
  {
    && p in s.committed && p in s.trail
    && c.logs[p][k].offset < s.committed[p] && c.logs[p][k].offset !in s.trail[p].done
  }

  lemma {:induction false} LosesNext(c: Config, threshold: nat, y: System, p: int) returns (last: System)
    requires ValidConfig(c) && Leads(c, false, CrewBoot(c), y.crew) && Quiescent(y, p) && AboutToBegin(c, y.crew.s, p)
    ensures SystemLeads(c, threshold, y, last) && Lost(c, last.crew.s, p, Resume(c, p, ViewOf(y.crew.s, p)))
  {
    var k := Resume(c, p, ViewOf(y.crew.s, p));
    var down := Degrades(c, threshold, y, p);
    var dropped := AssignedAndDropped(c, threshold, y, down, p);
    var up := Recovers(c, threshold, y, dropped, p);
    AnewFrom(c, y.crew, up.crew, p);
    last := SentAndCommitted(c, threshold, y, up, p);
    assert c.logs[p][k].offset < c.logs[p][k + 1].offset;
  }

  /**
   * That no assignment arrives while degraded is needed: from every reachable state in
   * which the loop is idle, a batch is at a worker and another partition is about to be
   * assigned, the breaker can open, the partition be assigned and its next message polled
   * and dropped, the breaker close, and the message after it be handled and committed.
   */
  lemma {:induction false} AssignmentWhileDegradedLosesMessage(c: Config, threshold: nat, steps: seq<SystemStep>,
                                                               y: System, p: int)
    returns (more: seq<SystemStep>, last: System)
    requires ValidConfig(c) && SystemRun(c, threshold, SystemBoot(c), steps, y)
    requires Quiescent(y, p) && AboutToBegin(c, y.crew.s, p)
    ensures SystemRun(c, threshold, y, more, last) && Lost(c, last.crew.s, p, Resume(c, p, ViewOf(y.crew.s, p)))
  {
    CrewOf(c, threshold, SystemBoot(c), steps, y);
    last := LosesNext(c, threshold, y, p);
    more := SystemLeadsIsRun(c, threshold, y, last);
  }

  // ---- Such a state, in every configuration with two partitions ----

  lemma {:induction false} NotInvolved(c: Config, y: Crew, t: CrewStep, p: int)
    requires ValidConfig(c) && CrewSound(c, y) && CrewCan(c, y, t) && Background(t)
    requires p in y.s.trail && ViewOf(y.s, p).buf.None?
    ensures p in CrewAfter(c, y, t).s.trail && ViewOf(CrewAfter(c, y, t).s, p) == ViewOf(y.s, p)
  {
    if !t.Expire? {
      StepView(c, y.s, ActionOf(y, t), p);
    }
  }

  /** A partition that was never assigned is not involved in quiet steps. */
  lemma {:induction false} NeverInvolved(c: Config, y0: Crew, y: Crew, p: int)
    requires ValidConfig(c) && CrewSound(c, y0) && Leads(c, true, y0, y)
    requires p in y0.s.trail && ViewOf(y0.s, p).buf.None?
    ensures p in y.s.trail && ViewOf(y.s, p) == ViewOf(y0.s, p)
  {
    var v := ViewOf(y0.s, p);
    var R := z => CrewSound(c, z) && p in z.s.trail && ViewOf(z.s, p) == v;
    forall z, t | R(z) && CrewCan(c, z, t) && Background(t) ensures R(CrewAfter(c, z, t)) {
      SoundCrewStep(c, z, t);
      NotInvolved(c, z, t, p);
    }
    assert StepsKeep(c, true, R);
    assert R(y);
  }

  /** The first message of `q` comes to a worker. */
  lemma {:induction false} FirstAtWorker(c: Config, y: Crew, q: int) returns (y': Crew)
    requires ValidConfig(c) && Comes(c, true, y, y, q) && y.desk == InSend(q, None)
    requires var b := ViewOf(y.s, q).buf; b.Some? && b.value.messages != [] && !b.value.inFlight
    ensures Comes(c, true, y, y', q) && y'.desk == Free && AtWorker(y'.s)
  {
    var cut := PlaySendCut(c, true, y, y, q);
    var checked := PlayFlight(c, true, y, cut, q, CheckClosed);
    var announced := PlayFlight(c, true, y, checked, q, Announce);
    y' := PlayToWorker(c, true, y, announced, q);
    assert y'.s.owner[q] in y'.s.flights;
  }

  /** The first message of `q` has been sent; `p` was never assigned. */
  lemma {:induction false} OtherSent(c: Config, threshold: nat, p: int, q: int) returns (y: System)
    requires ValidConfig(c) && p in c.logs && q in c.logs && p != q && c.logs[q] != []
    ensures SystemLeads(c, threshold, SystemBoot(c), y) && Comes(c, true, y.crew, y.crew, q)
    ensures y == System(y.crew, Granted(Started(), [q]), Breaker.Closed, []) && y.crew.desk == InSend(q, None)
    ensures var b := ViewOf(y.crew.s, q).buf; b.Some? && b.value.messages != [] && !b.value.inFlight
    ensures p in y.crew.s.trail && ViewOf(y.crew.s, p) == ViewOf(Init(c), p)
  {
    var boot := SystemBoot(c);
    var same := Play(c, false, boot.crew, boot.crew, Gain(q), q);
    var gained := Does(c, threshold, boot, boot, Sched(Gain(q), ALL_WORK));
    AnewFrom(c, boot.crew, gained.crew, q);
    y := SendsNext(c, threshold, boot, gained, q);
  }

  /** So some run loses the first message of `p`. */
  lemma {:induction false} FirstMessageCanBeLost(c: Config, threshold: nat, p: int, q: int)
    returns (steps: seq<SystemStep>, last: System)
    requires ValidConfig(c) && p in c.logs && q in c.logs && p != q && |c.logs[p]| >= 2 && c.logs[q] != []
    ensures SystemRun(c, threshold, SystemBoot(c), steps, last) && Lost(c, last.crew.s, p, 0)
  {
    var boot := SystemBoot(c);
    var sent := OtherSent(c, threshold, p, q);
    var working := FirstAtWorker(c, sent.crew, q);
    SoundHere(c, true, sent.crew, sent.crew, q);
    NeverInvolved(c, sent.crew, working, p);
    var y := sent.(crew := working);
    QuietlyLeads(c, threshold, sent, working);
    SystemLeadsJoin(c, threshold, boot, sent, y);
    steps := SystemLeadsIsRun(c, threshold, boot, y);
    CrewOf(c, threshold, boot, steps, y);
    last := LosesNext(c, threshold, y, p);
    SystemLeadsJoin(c, threshold, boot, y, last);
    steps := SystemLeadsIsRun(c, threshold, boot, last);
  }
}
