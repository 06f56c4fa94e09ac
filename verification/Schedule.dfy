/**
 * Who makes the pipeline's steps. Send, the rebalance callbacks, commits and Close belong to
 * the one goroutine of the poll loop; a linger callback starts when its timer expires; the
 * goroutine that ends a batch works through the partitions it found waiting. A run of the
 * crew is a schedule of the code. Workers are not counted: one is free for every batch.
 */
module Schedule {
  import opened Types
  import opened Buffers
  import opened Pipeline
  import opened Views
  import opened Delivery

  /** Where the poll loop's goroutine is. */
  datatype Desk =
    | Free                                     // between two calls
    | InSend(p: int, carried: Option<nat>)     // in Send after the append, with the batch it has cut
    | HasRead                                  // in commitOffsets after Committable
    | InRevoke(ps: set<int>, read: bool)       // in the revocation callback, before or after Committable

  /** What another goroutine still has to do. */
  datatype Job =
    | Firing(p: int)                                   // an expired timer's callback
    | Flushing(p: int)                                 // the callback after it forgot the timer
    | Draining(rest: seq<int>, carried: Option<nat>)   // onBatchDone, with the batch it has cut

  /**
   * `ticking` are the partitions whose timer field holds a running timer. `stray` are the
   * running timers that a late callback removed from their field.
   */
  datatype Crew = Crew(s: State, desk: Desk, jobs: map<nat, Job>, next: nat, ticking: set<int>, stray: multiset<int>)

  datatype CrewStep =
    // the poll loop
    | Arrive(p: int, n: nat)                 // Send: the append
    | SendTry                                // Send: the critical section of tryDispatch
    | Skip(p: int, n: nat)                   // polled messages are dropped
    | Gain(p: int)                           // OnPartitionsAssigned
    | Lose(p: int)                           // OnPartitionsRevoked: the dispatcher's part
    | Look                                   // Committable
    | Keep(ok: bool)                         // CommitOffsets succeeds or fails
    | Forget(p: int)                         // OnPartitionsRevoked: the coordinator's part
    | Shut                                   // Close
    // timers, workers and sweeps
    | Expire(p: int)                         // a linger timer runs out
    | Fire(k: nat)                           // the first critical section of its callback
    | FlushNow(k: nat)                       // the critical section of flushPartition
    | SweepUp(i: nat, pending: seq<int>)     // the critical section of onBatchDone
    | DrainTry(k: nat)                       // onBatchDone: tryDispatch for the next partition
    | CarryOn(i: nat, f: FlightEvent)        // any other step of the goroutine that carries a batch

  predicate Armed(s: State, p: int) {
    p in s.bufs && s.bufs[p].armed
  }

  predicate DeskFits(y: Crew, t: CrewStep) {
    match t
    case SendTry => y.desk.InSend? && y.desk.carried.None?
    case Lose(_) => y.desk.Free? || (y.desk.InRevoke? && !y.desk.read)
    case Look => y.desk.Free? || (y.desk.InRevoke? && !y.desk.read)
    case Keep(_) => y.desk.HasRead? || (y.desk.InRevoke? && y.desk.read)
    case Forget(p) => y.desk.InRevoke? && y.desk.read && p in y.desk.ps
    case Arrive(_, _) => y.desk.Free?
    case Skip(_, _) => y.desk.Free?
    case Gain(_) => y.desk.Free?
    case Shut => y.desk.Free?
    case Expire(p) => p in y.ticking || y.stray[p] > 0
    case Fire(k) => k in y.jobs && y.jobs[k].Firing?
    case FlushNow(k) => k in y.jobs && y.jobs[k].Flushing?
    case DrainTry(k) => k in y.jobs && y.jobs[k].Draining? && y.jobs[k].carried.None? && y.jobs[k].rest != []
    case SweepUp(_, _) => true
    case CarryOn(_, f) => !f.Sweep?
  }

  /** A commit takes the whole report; in a revocation, the part about the revoked partitions. */
  function Taken(y: Crew, ok: bool): set<int> {
    if !ok then {} else if y.desk.InRevoke? then y.s.snapshot.Keys * y.desk.ps else y.s.snapshot.Keys
  }

  function ActionOf(y: Crew, t: CrewStep): Action
    requires DeskFits(y, t) && !t.Expire?
  {
    match t
    case Arrive(p, n) => At(p, Deliver(n))
    case SendTry => At(y.desk.p, TryDispatch)
    case Skip(p, n) => At(p, Discard(n))
    case Gain(p) => At(p, Assign)
    case Lose(p) => At(p, RevokeClear)
    case Look => Snapshot
    case Keep(ok) => Commit(Taken(y, ok))
    case Forget(p) => At(p, Reset)
    case Shut => Close
    case Fire(k) => At(y.jobs[k].p, TimerFires)
    case FlushNow(k) => At(y.jobs[k].p, Flush)
    case DrainTry(k) => At(y.jobs[k].rest[0], TryDispatch)
    case SweepUp(i, _) => Fly(i, Sweep)
    case CarryOn(i, f) => Fly(i, f)
  }

  ghost function StateAfter(c: Config, y: Crew, t: CrewStep): State
    requires ValidConfig(c) && DeskFits(y, t) && (t.Expire? || Enabled(c, y.s, ActionOf(y, t)))
  {
    if t.Expire? then y.s else Apply(c, y.s, ActionOf(y, t))
  }

  ghost predicate CrewCan(c: Config, y: Crew, t: CrewStep)
    requires ValidConfig(c)
  {
    && DeskFits(y, t) && (t.Expire? || Enabled(c, y.s, ActionOf(y, t)))
    && (t.SweepUp? ==> Lists(StateAfter(c, y, t).bufs, t.pending))
  }

  /** The batch that a critical section has cut. */
  function NewFlight(s: State, s': State): Option<nat> {
    if s'.nextFlight == s.nextFlight then None else Some(s.nextFlight)
  }

  predicate Carries(j: Job, i: nat) {
    j.Draining? && j.carried == Some(i)
  }

  /** dispatchBatch returns an error: the batch was put back, or the dispatcher was closed. */
  predicate Fails(f: FlightEvent, closed: bool) {
    f.PutBack? || (f.CheckClosed? && closed)
  }

  function DeskAfter(y: Crew, t: CrewStep, s': State): Desk
    requires DeskFits(y, t)
  {
    match t
    case Arrive(p, _) => InSend(p, None)
    case SendTry => if NewFlight(y.s, s').None? then Free else InSend(y.desk.p, NewFlight(y.s, s'))
    case Lose(p) => InRevoke((if y.desk.InRevoke? then y.desk.ps else {}) + {p}, false)
    case Look => if y.desk.Free? then HasRead else InRevoke(y.desk.ps, true)
    case Keep(_) => if y.desk.HasRead? then Free else y.desk
    case Forget(p) => if y.desk.ps <= {p} then Free else InRevoke(y.desk.ps - {p}, true)
    case CarryOn(i, f) =>
      if y.desk.InSend? && y.desk.carried == Some(i) && (f.Enqueue? || Fails(f, y.s.closed)) then Free else y.desk
    case _ => y.desk
  }

  function JobsAfterCarry(jobs: map<nat, Job>, i: nat, f: FlightEvent, closed: bool): map<nat, Job> {
    if f.Enqueue? then map k | k in jobs :: if Carries(jobs[k], i) then jobs[k].(carried := None) else jobs[k]
    else if Fails(f, closed) then map k | k in jobs && !Carries(jobs[k], i) :: jobs[k]
    else jobs
  }

  function JobsAfter(y: Crew, t: CrewStep, s': State): map<nat, Job>
    requires DeskFits(y, t)
  {
    match t
    case Expire(p) => y.jobs[y.next := Firing(p)]
    case Fire(k) => y.jobs[k := Flushing(y.jobs[k].p)]
    case FlushNow(k) => y.jobs - {k}
    case SweepUp(_, pending) => y.jobs[y.next := Draining(pending, None)]
    case DrainTry(k) => y.jobs[k := Draining(y.jobs[k].rest[1..], NewFlight(y.s, s'))]
    case CarryOn(i, f) => JobsAfterCarry(y.jobs, i, f, y.s.closed)
    case _ => y.jobs
  }

  /** Timers are started and stopped through the field of their partition. */
  function Ticks(ticking: set<int>, s: State, s': State, p: int): set<int> {
    if !Armed(s', p) then ticking - {p} else if !Armed(s, p) then ticking + {p} else ticking
  }

  function TickingAfter(y: Crew, t: CrewStep, s': State): set<int>
    requires DeskFits(y, t)
  {
    match t
    case SendTry => Ticks(y.ticking, y.s, s', y.desk.p)
    case DrainTry(k) => Ticks(y.ticking, y.s, s', y.jobs[k].rest[0])
    case FlushNow(k) => Ticks(y.ticking, y.s, s', y.jobs[k].p)
    case Lose(p) => y.ticking - {p}
    case Expire(p) => y.ticking - {p}
    case Fire(k) => y.ticking - {y.jobs[k].p}
    case Shut => {}
    case _ => y.ticking
  }

  function StrayAfter(y: Crew, t: CrewStep): multiset<int>
    requires DeskFits(y, t)
  {
    match t
    case Expire(p) => if p in y.ticking then y.stray else y.stray - multiset{p}
    case Fire(k) => if y.jobs[k].p in y.ticking then y.stray + multiset{y.jobs[k].p} else y.stray
    case _ => y.stray
  }

  ghost function CrewAfter(c: Config, y: Crew, t: CrewStep): Crew
    requires ValidConfig(c) && CrewCan(c, y, t)
  {
    var s' := StateAfter(c, y, t);
    Crew(s', DeskAfter(y, t, s'), JobsAfter(y, t, s'),
         if t.Expire? || t.SweepUp? then y.next + 1 else y.next, TickingAfter(y, t, s'), StrayAfter(y, t))
  }

  function CrewBoot(c: Config): Crew {
    Crew(Init(c), Free, map[], 0, {}, multiset{})
  }

  ghost predicate CrewRun(c: Config, y: Crew, steps: seq<CrewStep>, last: Crew)
    requires ValidConfig(c)
    decreases |steps|
  {
    if steps == [] then y == last
    else CrewCan(c, y, steps[0]) && CrewRun(c, CrewAfter(c, y, steps[0]), steps[1..], last)
  }

  // ---- Schedules are runs of the pipeline ----

  /** Every step of the schedule, as `p` sees it, meets `ok`. */
  ghost predicate Throughout(c: Config, y: Crew, steps: seq<CrewStep>, p: int, ok: (View, Local) -> bool)
    requires ValidConfig(c)
    decreases |steps|
  {
    steps == [] || (&& CrewCan(c, y, steps[0]) && p in y.s.trail
                    && (steps[0].Expire? || ok(ViewOf(y.s, p), SeenBy(y.s, ActionOf(y, steps[0]), p)))
                    && Throughout(c, CrewAfter(c, y, steps[0]), steps[1..], p, ok))
  }

  /** Every schedule is a run of the pipeline, so all that holds of those holds here. */
  lemma {:induction false} ScheduleIsRun(c: Config, y: Crew, steps: seq<CrewStep>, last: Crew, p: int,
                                         ok: (View, Local) -> bool)
    returns (acts: seq<Action>)
    requires ValidConfig(c) && CrewRun(c, y, steps, last)
    ensures Run(c, y.s, acts, last.s)
    ensures Throughout(c, y, steps, p, ok) ==> AllAlong(c, y.s, acts, p, ok)
    decreases |steps|
  {
    if steps == [] {
      return [];
    }
    var later := ScheduleIsRun(c, CrewAfter(c, y, steps[0]), steps[1..], last, p, ok);
    if steps[0].Expire? {
      return later;
    }
    acts := [ActionOf(y, steps[0])] + later;
    assert acts[1..] == later;
  }

  // ---- What holds of every schedule ----

  /** A timer field that is set holds a running timer, or the timer's callback is under way. */
  predicate FieldSane(y: Crew, p: int) {
    && (p in y.ticking ==> Armed(y.s, p))
    && (Armed(y.s, p) && p !in y.ticking ==> exists k :: k in y.jobs && y.jobs[k] == Firing(p))
  }

  ghost predicate CrewSound(c: Config, y: Crew) {
    && Tokens(c, y.s)
    && (forall k :: k in y.jobs ==> k < y.next)
    && (forall p :: FieldSane(y, p))
  }

  /** The partition whose timer field a step may write. */
  function Touched(y: Crew, t: CrewStep): Option<int>
    requires DeskFits(y, t)
  {
    match t
    case SendTry => Some(y.desk.p)
    case DrainTry(k) => Some(y.jobs[k].rest[0])
    case FlushNow(k) => Some(y.jobs[k].p)
    case Fire(k) => Some(y.jobs[k].p)
    case Lose(p) => Some(p)
    case _ => None
  }

  lemma ArmedByPart(c: Config, s: State, p: int, e: PartEvent, q: int)
    requires c.batchSize > 0 && PartEnabled(c, s, p, e)
    ensures q != p ==> Armed(ApplyPart(c, s, p, e), q) == Armed(s, q)
    ensures !e.TryDispatch? && !e.Flush? && !e.TimerFires? && !e.RevokeClear? ==>
      Armed(ApplyPart(c, s, p, e), p) == Armed(s, p)
    ensures e.TimerFires? || e.RevokeClear? ==> !Armed(ApplyPart(c, s, p, e), p)
  {
  }

  lemma ArmedByFlight(s: State, i: nat, f: FlightEvent, q: int)
    requires Known(s, i) && (f.Receive? ==> s.channel != [] && s.channel[0] == i)
    ensures Armed(ApplyFlight(s, i, f), q) == Armed(s, q)
  {
  }

  /** Only the named partition's field is written, unless the dispatcher is closed. */
  lemma {:induction false} ArmedAfter(c: Config, y: Crew, t: CrewStep, q: int)
    requires ValidConfig(c) && CrewCan(c, y, t)
    ensures var s' := CrewAfter(c, y, t).s;
      && (!t.Shut? && Touched(y, t) != Some(q) ==> Armed(s', q) == Armed(y.s, q))
      && (t.Shut? || ((t.Fire? || t.Lose?) && Touched(y, t) == Some(q)) ==> !Armed(s', q))
  {
    if !t.Expire? {
      match ActionOf(y, t) {
        case At(p, e) => ArmedByPart(c, y.s, p, e, q);
        case Fly(i, f) => ArmedByFlight(y.s, i, f, q);
        case _ =>
      }
    }
  }

  /** The callbacks of expired timers stay until their own first step. */
  lemma {:induction false} FiringStays(c: Config, y: Crew, t: CrewStep, k: nat)
    requires ValidConfig(c) && CrewCan(c, y, t) && k in y.jobs && y.jobs[k].Firing? && k < y.next && t != Fire(k)
    ensures k in CrewAfter(c, y, t).jobs && CrewAfter(c, y, t).jobs[k] == y.jobs[k]
  {
  }

  lemma {:induction false} FieldStaysSane(c: Config, y: Crew, t: CrewStep, p: int)
    requires ValidConfig(c) && CrewSound(c, y) && CrewCan(c, y, t)
    ensures FieldSane(CrewAfter(c, y, t), p)
  {
    var y' := CrewAfter(c, y, t);
    assert FieldSane(y, p);
    ArmedAfter(c, y, t, p);
    if t == Expire(p) {
      assert y'.jobs[y.next] == Firing(p);
    } else if Armed(y.s, p) && p !in y.ticking {
      var k :| k in y.jobs && y.jobs[k] == Firing(p);
      if t != Fire(k) {
        FiringStays(c, y, t, k);
      }
    }
  }

  lemma {:induction false} SoundCrewStep(c: Config, y: Crew, t: CrewStep)
    requires ValidConfig(c) && CrewSound(c, y) && CrewCan(c, y, t)
    ensures CrewSound(c, CrewAfter(c, y, t))
  {
    if !t.Expire? {
      TokensStep(c, y.s, ActionOf(y, t));
    }
    forall p ensures FieldSane(CrewAfter(c, y, t), p) {
      FieldStaysSane(c, y, t, p);
    }
  }

  lemma {:induction false} SoundCrewRun(c: Config, y: Crew, steps: seq<CrewStep>, last: Crew)
    requires ValidConfig(c) && CrewSound(c, y) && CrewRun(c, y, steps, last)
    ensures CrewSound(c, last)
    decreases |steps|
  {
    if steps != [] {
      SoundCrewStep(c, y, steps[0]);
      SoundCrewRun(c, CrewAfter(c, y, steps[0]), steps[1..], last);
    }
  }

  lemma {:induction false} BootIsSound(c: Config)
    requires ValidConfig(c)
    ensures CrewSound(c, CrewBoot(c))
  {
    InitTokens(c);
  }
}
