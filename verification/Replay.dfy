/** Building schedules step by step, as one partition sees them. */
module Replay {
  import opened Types
  import opened Buffers
  import opened Pipeline
  import opened Views
  import opened Schedule

  lemma ClosedByPart(c: Config, s: State, p: int, e: PartEvent)
    requires c.batchSize > 0 && PartEnabled(c, s, p, e)
    ensures ApplyPart(c, s, p, e).closed == s.closed
  {
  }

  lemma ClosedByFlight(s: State, i: nat, f: FlightEvent)
    requires Known(s, i) && (f.Receive? ==> s.channel != [] && s.channel[0] == i)
    ensures ApplyFlight(s, i, f).closed == s.closed
  {
  }

  lemma {:induction false} ClosedStays(c: Config, y: Crew, t: CrewStep)
    requires ValidConfig(c) && CrewCan(c, y, t) && !t.Shut?
    ensures CrewAfter(c, y, t).s.closed == y.s.closed
  {
    if !t.Expire? {
      match ActionOf(y, t) {
        case At(q, e) => ClosedByPart(c, y.s, q, e);
        case Fly(i, f) => ClosedByFlight(y.s, i, f);
        case _ =>
      }
    }
  }

  /** Steps that poll, rebalance, commit and report nothing. */
  predicate Background(t: CrewStep) {
    && !t.Arrive? && !t.Skip? && !t.Gain? && !t.Lose? && !t.Look? && !t.Keep? && !t.Forget? && !t.Shut?
    && !(t.CarryOn? && t.f.PutBack?)
  }

  predicate AllBackground(steps: seq<CrewStep>) {
    forall k :: 0 <= k < |steps| ==> Background(steps[k])
  }

  // ---- Where schedules lead ----

  /** `R` is kept by every step; with `quiet`, by every quiet one. */
  ghost predicate StepsKeep(c: Config, quiet: bool, R: Crew -> bool)
    requires ValidConfig(c)
  {
    forall y, t :: R(y) && CrewCan(c, y, t) && (quiet ==> Background(t)) ==> R(CrewAfter(c, y, t))
  }

  /** Some schedule, quiet if so asked, leads from `y0` to `y`: whatever steps keep, it keeps. */
  ghost predicate Leads(c: Config, quiet: bool, y0: Crew, y: Crew)
    requires ValidConfig(c)
  {
    forall R: Crew -> bool :: StepsKeep(c, quiet, R) && R(y0) ==> R(y)
  }

  lemma {:induction false} LeadsThen(c: Config, quiet: bool, y0: Crew, y: Crew, t: CrewStep)
    requires ValidConfig(c) && Leads(c, quiet, y0, y) && CrewCan(c, y, t) && (quiet ==> Background(t))
    ensures Leads(c, quiet, y0, CrewAfter(c, y, t))
  {
  }

  lemma {:induction false} LeadsJoin(c: Config, quiet: bool, y0: Crew, y1: Crew, y2: Crew)
    requires ValidConfig(c) && Leads(c, quiet, y0, y1) && Leads(c, quiet, y1, y2)
    ensures Leads(c, quiet, y0, y2)
  {
  }

  lemma {:induction false} CrewThen(c: Config, y0: Crew, steps: seq<CrewStep>, y: Crew, t: CrewStep)
    requires ValidConfig(c) && CrewRun(c, y0, steps, y) && CrewCan(c, y, t)
    ensures CrewRun(c, y0, steps + [t], CrewAfter(c, y, t))
    decreases |steps|
  {
    if steps == [] {
      assert [] + [t] == [t] && [t][1..] == [];
    } else {
      CrewThen(c, CrewAfter(c, y0, steps[0]), steps[1..], y, t);
      assert (steps + [t])[1..] == steps[1..] + [t];
    }
  }

  ghost predicate Reached(c: Config, quiet: bool, y0: Crew, y: Crew)
    requires ValidConfig(c)
  {
    exists steps :: CrewRun(c, y0, steps, y) && (quiet ==> AllBackground(steps))
  }

  lemma {:induction false} ReachedThen(c: Config, quiet: bool, y0: Crew, y: Crew, t: CrewStep)
    requires ValidConfig(c) && Reached(c, quiet, y0, y) && CrewCan(c, y, t) && (quiet ==> Background(t))
    ensures Reached(c, quiet, y0, CrewAfter(c, y, t))
  {
    var steps :| CrewRun(c, y0, steps, y) && (quiet ==> AllBackground(steps));
    CrewThen(c, y0, steps, y, t);
    assert quiet ==> AllBackground(steps + [t]);
  }

  /** Whoever leads somewhere has steps to show for it. */
  lemma {:induction false} LeadsIsRun(c: Config, quiet: bool, y0: Crew, y: Crew) returns (steps: seq<CrewStep>)
    requires ValidConfig(c) && Leads(c, quiet, y0, y)
    ensures CrewRun(c, y0, steps, y) && (quiet ==> AllBackground(steps))
  {
    var R := z => Reached(c, quiet, y0, z);
    assert R(y0) by {
      assert CrewRun(c, y0, [], y0) && AllBackground([]);
    }
    forall z, t | R(z) && CrewCan(c, z, t) && (quiet ==> Background(t)) ensures R(CrewAfter(c, z, t)) {
      ReachedThen(c, quiet, y0, z, t);
    }
    assert StepsKeep(c, quiet, R);
    assert R(y);
    steps :| CrewRun(c, y0, steps, y) && (quiet ==> AllBackground(steps));
  }

  lemma {:induction false} RunLeads(c: Config, y0: Crew, steps: seq<CrewStep>, y: Crew)
    requires ValidConfig(c) && CrewRun(c, y0, steps, y)
    ensures Leads(c, false, y0, y)
    decreases |steps|
  {
    if steps != [] {
      RunLeads(c, CrewAfter(c, y0, steps[0]), steps[1..], y);
      LeadsThen(c, false, y0, y0, steps[0]);
      LeadsJoin(c, false, y0, CrewAfter(c, y0, steps[0]), y);
    }
  }

  /** A schedule from the reachable state `y0` has come to `y`, with the dispatcher open. */
  ghost predicate Comes(c: Config, quiet: bool, y0: Crew, y: Crew, p: int)
    requires ValidConfig(c)
  {
    && Leads(c, false, CrewBoot(c), y0) && Leads(c, quiet, y0, y)
    && !y.s.closed && p in y.s.trail && p in c.logs
  }

  lemma {:induction false} LeadsToSound(c: Config, quiet: bool, y0: Crew, y: Crew)
    requires ValidConfig(c) && CrewSound(c, y0) && Leads(c, quiet, y0, y)
    ensures CrewSound(c, y)
  {
    var R := z => CrewSound(c, z);
    forall z, t | R(z) && CrewCan(c, z, t) && (quiet ==> Background(t)) ensures R(CrewAfter(c, z, t)) {
      SoundCrewStep(c, z, t);
    }
    assert StepsKeep(c, quiet, R);
    assert R(y);
  }

  lemma {:induction false} SoundHere(c: Config, quiet: bool, y0: Crew, y: Crew, p: int)
    requires ValidConfig(c) && Comes(c, quiet, y0, y, p)
    ensures CrewSound(c, y) && Token(c, p, ViewOf(y.s, p))
  {
    BootIsSound(c);
    LeadsToSound(c, false, CrewBoot(c), y0);
    LeadsToSound(c, quiet, y0, y);
  }

  /** From here a new schedule may begin. */
  lemma {:induction false} AnewFrom(c: Config, y0: Crew, y: Crew, p: int)
    requires ValidConfig(c) && Comes(c, false, y0, y, p)
    ensures Comes(c, false, y, y, p) && Comes(c, true, y, y, p)
  {
    LeadsJoin(c, false, CrewBoot(c), y0, y);
  }

  /** A batch that will be swept unless its worker leaves it. */
  predicate Due(s: State, i: nat) {
    i in s.flights && s.flights[i].stage in {Queued, Working, Handled}
  }

  ghost predicate Busy(s: State) {
    exists i :: Due(s, i)
  }

  lemma DueByPart(c: Config, s: State, p: int, e: PartEvent, i: nat)
    requires c.batchSize > 0 && PartEnabled(c, s, p, e) && s.nextFlight !in s.flights && Due(s, i)
    ensures Due(ApplyPart(c, s, p, e), i)
  {
  }

  lemma DueByFlight(s: State, j: nat, f: FlightEvent, i: nat)
    requires Known(s, j) && s.flights[j].stage == StageBefore(f)
    requires f.Receive? ==> s.channel != [] && s.channel[0] == j
    requires !f.Sweep? && !f.Abandon? && Due(s, i)
    ensures Due(ApplyFlight(s, j, f), i)
  {
  }

  /** Whoever is due stays due until its sweep. */
  lemma {:induction false} BusyStays(c: Config, y: Crew, t: CrewStep)
    requires ValidConfig(c) && Structure(c, y.s) && CrewCan(c, y, t)
    requires !t.SweepUp? && !(t.CarryOn? && t.f.Abandon?) && Busy(y.s)
    ensures Busy(CrewAfter(c, y, t).s)
  {
    var i :| Due(y.s, i);
    if !t.Expire? {
      match ActionOf(y, t) {
        case At(p, e) => DueByPart(c, y.s, p, e, i);
        case Fly(j, f) => DueByFlight(y.s, j, f, i);
        case _ =>
      }
    }
    assert Due(CrewAfter(c, y, t).s, i);
  }

  lemma {:induction false} Play(c: Config, quiet: bool, y0: Crew, y: Crew, t: CrewStep, p: int) returns (y': Crew)
    requires ValidConfig(c) && Comes(c, quiet, y0, y, p) && CrewCan(c, y, t) && !t.Shut? && !t.Expire?
    requires quiet ==> Background(t)
    ensures Comes(c, quiet, y0, y', p) && y' == CrewAfter(c, y, t)
    ensures LocalFits(c, p, ViewOf(y.s, p), SeenBy(y.s, ActionOf(y, t), p))
    ensures ViewOf(y'.s, p) == LocalStep(c, p, ViewOf(y.s, p), SeenBy(y.s, ActionOf(y, t), p))
    ensures Busy(y.s) && !t.SweepUp? && !(t.CarryOn? && t.f.Abandon?) ==> Busy(y'.s)
  {
    if Busy(y.s) && !t.SweepUp? && !(t.CarryOn? && t.f.Abandon?) {
      SoundHere(c, quiet, y0, y, p);
      BusyStays(c, y, t);
    }
    SoundHere(c, quiet, y0, y, p);
    LeadsThen(c, quiet, y0, y, t);
    StepView(c, y.s, ActionOf(y, t), p);
    ClosedStays(c, y, t);
    y' := CrewAfter(c, y, t);
  }

  // ---- The batch of one partition ----

  /** The poll loop is between two calls, or in the Send that carries this batch. */
  predicate DeskOk(y: Crew, p: int) {
    y.desk == Free || (p in y.s.owner && y.desk == InSend(p, Some(y.s.owner[p])))
  }

  /** The number of the flight that `p` has in its view. */
  lemma FlightIsKnown(c: Config, s: State, p: int)
    requires Structure(c, s) && p in s.trail && ViewOf(s, p).flight.Some?
    ensures p in s.owner && Known(s, s.owner[p])
    ensures s.flights[s.owner[p]] == ViewOf(s, p).flight.value && Carrier(s, s.owner[p]) == p
  {
  }

  predicate Carrying(f: FlightEvent) {
    f.CheckClosed? || f.Announce? || f.Refuse? || f.Undo? || f.PutBack? || f.Complete?
  }

  lemma OwnerStays(s: State, i: nat, f: FlightEvent)
    requires Known(s, i) && Carrying(f)
    ensures !f.PutBack? ==> ApplyFlight(s, i, f).owner == s.owner
    ensures ApplyFlight(s, i, f).channel == s.channel
  {
  }

  lemma {:induction false} FlightTurn(c: Config, y: Crew, p: int, f: FlightEvent)
    requires ValidConfig(c) && Structure(c, y.s) && p in y.s.trail && !y.s.closed
    requires FlightFits(ViewOf(y.s, p), f) && Carrying(f) && (f.Refuse? ==> |y.s.channel| >= c.channelCap)
    ensures p in y.s.owner && Known(y.s, y.s.owner[p]) && CrewCan(c, y, CarryOn(y.s.owner[p], f))
    ensures SeenBy(y.s, Fly(y.s.owner[p], f), p) == Carry(f, false)
  {
    FlightIsKnown(c, y.s, p);
    CarryingCan(c, y, y.s.owner[p], f);
  }

  lemma CarryingCan(c: Config, y: Crew, i: nat, f: FlightEvent)
    requires ValidConfig(c) && Known(y.s, i) && y.s.flights[i].stage == StageBefore(f) && Carrying(f)
    requires f.Refuse? ==> !y.s.closed && |y.s.channel| >= c.channelCap
    ensures CrewCan(c, y, CarryOn(i, f))
  {
  }

  lemma {:induction false} FlightDesk(c: Config, y: Crew, p: int, f: FlightEvent)
    requires ValidConfig(c) && p in y.s.owner && Known(y.s, y.s.owner[p]) && Carrying(f) && DeskOk(y, p)
    requires CrewCan(c, y, CarryOn(y.s.owner[p], f))
    ensures var y' := CrewAfter(c, y, CarryOn(y.s.owner[p], f));
      y'.s.channel == y.s.channel && DeskOk(y', p) && (f.PutBack? || y.desk == Free ==> y'.desk == Free)
  {
    OwnerStays(y.s, y.s.owner[p], f);
  }

  /** A step of the goroutine that carries the batch of `p`. */
  lemma {:induction false} PlayFlight(c: Config, quiet: bool, y0: Crew, y: Crew, p: int, f: FlightEvent)
    returns (y': Crew)
    requires ValidConfig(c) && Comes(c, quiet, y0, y, p) && FlightFits(ViewOf(y.s, p), f) && Carrying(f) && DeskOk(y, p)
    requires (f.Refuse? ==> |y.s.channel| >= c.channelCap) && (quiet ==> !f.PutBack?)
    ensures Comes(c, quiet, y0, y', p) && DeskOk(y', p) && (f.PutBack? || y.desk == Free ==> y'.desk == Free)
    ensures y'.s.channel == y.s.channel && ViewOf(y'.s, p) == FlightStep(ViewOf(y.s, p), f, false)
    ensures Busy(y.s) ==> Busy(y'.s)
  {
    assert Structure(c, y.s) by {
      SoundHere(c, quiet, y0, y, p);
    }
    FlightTurn(c, y, p, f);
    FlightDesk(c, y, p, f);
    y' := Play(c, quiet, y0, y, CarryOn(y.s.owner[p], f), p);
  }

  function VMoved(v: View, stage: Stage): View {
    if v.flight.Some? then VMove(v, stage) else v
  }

  lemma {:induction false} ReceiveTurn(c: Config, y: Crew, p: int)
    requires ValidConfig(c) && Structure(c, y.s) && p in y.s.trail && y.s.channel != []
    ensures CrewCan(c, y, CarryOn(y.s.channel[0], Receive))
    ensures CrewAfter(c, y, CarryOn(y.s.channel[0], Receive)) == y.(s := DoReceive(y.s))
    ensures ViewOf(DoReceive(y.s), p) == if p in y.s.owner && y.s.owner[p] == y.s.channel[0]
                                         then VMoved(ViewOf(y.s, p), Working) else ViewOf(y.s, p)
  {
    var i := y.s.channel[0];
    assert Known(y.s, i) && y.s.flights[i].stage == Queued;
    ReceiveView(y.s, p);
    if Carrier(y.s, i) == p {
      assert p in y.s.owner && y.s.owner[p] == i;
    }
  }

  /** A worker takes the oldest batch. */
  lemma {:induction false} PlayReceive(c: Config, quiet: bool, y0: Crew, y: Crew, p: int) returns (y': Crew)
    requires ValidConfig(c) && Comes(c, quiet, y0, y, p) && y.s.channel != []
    ensures Comes(c, quiet, y0, y', p) && y' == y.(s := y'.s)
    ensures y'.s.channel == y.s.channel[1..] && y'.s.owner == y.s.owner
    ensures ViewOf(y'.s, p) == if p in y.s.owner && y.s.owner[p] == y.s.channel[0]
                               then VMoved(ViewOf(y.s, p), Working) else ViewOf(y.s, p)
  {
    assert Structure(c, y.s) by {
      SoundHere(c, quiet, y0, y, p);
    }
    ReceiveTurn(c, y, p);
    y' := Play(c, quiet, y0, y, CarryOn(y.s.channel[0], Receive), p);
  }

  /** Workers take batches until that of `p`, at index `k`, is at one of them. */
  lemma {:induction false} PlayUntilWorking(c: Config, quiet: bool, y0: Crew, y: Crew, p: int, k: nat)
    returns (y': Crew)
    requires ValidConfig(c) && Comes(c, quiet, y0, y, p)
    requires p in y.s.owner && k < |y.s.channel| && y.s.owner[p] == y.s.channel[k]
    ensures Comes(c, quiet, y0, y', p) && y' == y.(s := y'.s)
    ensures ViewOf(y'.s, p) == VMoved(ViewOf(y.s, p), Working)
    decreases k
  {
    y' := PlayReceive(c, quiet, y0, y, p);
    if k > 0 {
      y' := PlayUntilWorking(c, quiet, y0, y', p, k - 1);
    }
  }

  /** A queued batch comes to a worker. */
  lemma {:induction false} PlayServed(c: Config, quiet: bool, y0: Crew, y: Crew, p: int) returns (y': Crew)
    requires ValidConfig(c) && Comes(c, quiet, y0, y, p) && FlightFits(ViewOf(y.s, p), Receive)
    ensures Comes(c, quiet, y0, y', p) && y' == y.(s := y'.s)
    ensures ViewOf(y'.s, p) == VMove(ViewOf(y.s, p), Working)
  {
    assert exists k :: 0 <= k < |y.s.channel| && p in y.s.owner && y.s.channel[k] == y.s.owner[p] by {
      SoundHere(c, quiet, y0, y, p);
      FlightIsKnown(c, y.s, p);
    }
    var k :| 0 <= k < |y.s.channel| && p in y.s.owner && y.s.channel[k] == y.s.owner[p];
    y' := PlayUntilWorking(c, quiet, y0, y, p, k);
  }

  lemma {:induction false} EnqueueTurn(c: Config, y: Crew, p: int)
    requires ValidConfig(c) && Structure(c, y.s) && p in y.s.trail && FlightFits(ViewOf(y.s, p), Enqueue)
    requires !y.s.closed && |y.s.channel| < c.channelCap && DeskOk(y, p)
    ensures p in y.s.owner && CrewCan(c, y, CarryOn(y.s.owner[p], Enqueue))
    ensures SeenBy(y.s, Fly(y.s.owner[p], Enqueue), p) == Carry(Enqueue, false)
    ensures CrewAfter(c, y, CarryOn(y.s.owner[p], Enqueue)).desk == Free
  {
    FlightIsKnown(c, y.s, p);
  }

  lemma {:induction false} PlayEnqueue(c: Config, quiet: bool, y0: Crew, y: Crew, p: int) returns (y': Crew)
    requires ValidConfig(c) && Comes(c, quiet, y0, y, p) && FlightFits(ViewOf(y.s, p), Enqueue)
    requires |y.s.channel| < c.channelCap && DeskOk(y, p)
    ensures Comes(c, quiet, y0, y', p) && y'.desk == Free && ViewOf(y'.s, p) == VMove(ViewOf(y.s, p), Queued)
  {
    assert Structure(c, y.s) by {
      SoundHere(c, quiet, y0, y, p);
    }
    EnqueueTurn(c, y, p);
    y' := Play(c, quiet, y0, y, CarryOn(y.s.owner[p], Enqueue), p);
  }

  /** If the channel is full, a worker takes a batch of another partition. */
  lemma {:induction false} PlayMakeRoom(c: Config, quiet: bool, y0: Crew, y: Crew, p: int) returns (y': Crew)
    requires ValidConfig(c) && Comes(c, quiet, y0, y, p) && FlightFits(ViewOf(y.s, p), Enqueue) && DeskOk(y, p)
    ensures Comes(c, quiet, y0, y', p) && DeskOk(y', p) && |y'.s.channel| < c.channelCap
    ensures ViewOf(y'.s, p) == ViewOf(y.s, p)
  {
    y' := y;
    if |y.s.channel| >= c.channelCap {
      assert p in y.s.owner && y.s.owner[p] != y.s.channel[0] && |y.s.channel| <= c.channelCap by {
        SoundHere(c, quiet, y0, y, p);
        FlightIsKnown(c, y.s, p);
        assert Known(y.s, y.s.channel[0]) && y.s.flights[y.s.channel[0]].stage == Queued;
      }
      y' := PlayReceive(c, quiet, y0, y, p);
    }
  }

  /** An announced batch is queued and taken by a worker. */
  lemma {:induction false} PlayToWorker(c: Config, quiet: bool, y0: Crew, y: Crew, p: int) returns (y': Crew)
    requires ValidConfig(c) && Comes(c, quiet, y0, y, p) && FlightFits(ViewOf(y.s, p), Enqueue) && DeskOk(y, p)
    ensures Comes(c, quiet, y0, y', p) && y'.desk == Free && ViewOf(y'.s, p) == VMove(ViewOf(y.s, p), Working)
  {
    y' := PlayMakeRoom(c, quiet, y0, y, p);
    y' := PlayEnqueue(c, quiet, y0, y', p);
    y' := PlayServed(c, quiet, y0, y', p);
  }

  // ---- The poll loop ----

  /** The partition is revoked: dispatcher, report, coordinator. */
  lemma {:induction false} PlayRevoke(c: Config, y0: Crew, y: Crew, p: int) returns (y': Crew)
    requires ValidConfig(c) && Comes(c, false, y0, y, p) && y.desk == Free
    requires ViewOf(y.s, p).t.phase == Assigned && ViewOf(y.s, p).buf.Some?
    ensures Comes(c, false, y0, y', p) && y'.desk == Free
    ensures ViewOf(y'.s, p) == VReset(VRevoke(ViewOf(y.s, p))).(read := Reported(ViewOf(y.s, p).rec))
    ensures Busy(y.s) ==> Busy(y'.s)
  {
    y' := Play(c, false, y0, y, Lose(p), p);
    y' := Play(c, false, y0, y', Look, p);
    y' := Play(c, false, y0, y', Forget(p), p);
  }

  lemma {:induction false} PlayGain(c: Config, y0: Crew, y: Crew, p: int) returns (y': Crew)
    requires ValidConfig(c) && Comes(c, false, y0, y, p) && y.desk == Free && ViewOf(y.s, p).t.phase == Unassigned
    ensures Comes(c, false, y0, y', p) && y'.desk == Free
    ensures ViewOf(y'.s, p) == VAssign(ViewOf(y.s, p), Resume(c, p, ViewOf(y.s, p)))
    ensures Busy(y.s) ==> Busy(y'.s)
  {
    y' := Play(c, false, y0, y, Gain(p), p);
  }

  /** Send delivers messages while a batch is in flight, and tryDispatch leaves them. */
  lemma {:induction false} PlayFeed(c: Config, y0: Crew, y: Crew, p: int, n: nat) returns (y': Crew)
    requires ValidConfig(c) && Comes(c, false, y0, y, p) && y.desk == Free && n > 0
    requires ViewOf(y.s, p).flight.Some? && PartFits(c, p, ViewOf(y.s, p), Deliver(n))
    ensures Comes(c, false, y0, y', p) && y'.desk == Free
    ensures ViewOf(y'.s, p) == VDeliver(c, p, ViewOf(y.s, p), n)
  {
    assert Token(c, p, ViewOf(y.s, p)) by {
      SoundHere(c, false, y0, y, p);
    }
    y' := Play(c, false, y0, y, Arrive(p, n), p);
    y' := Play(c, false, y0, y', SendTry, p);
  }

  /** A commit tick that succeeds. */
  lemma {:induction false} PlayCommit(c: Config, y0: Crew, y: Crew, p: int) returns (y': Crew)
    requires ValidConfig(c) && Comes(c, false, y0, y, p) && y.desk == Free && Reported(ViewOf(y.s, p).rec).Some?
    ensures Comes(c, false, y0, y', p) && y'.desk == Free
    ensures var v := ViewOf(y.s, p); ViewOf(y'.s, p) == v.(read := Reported(v.rec), stored := Reported(v.rec))
  {
    y' := Play(c, false, y0, y, Look, p);
    y' := Play(c, false, y0, y', Keep(true), p);
  }

  // ---- Timers and sweeps ----

  /** The callback of an expired timer cuts whatever is buffered. */
  lemma {:induction false} PlayCallback(c: Config, quiet: bool, y0: Crew, y: Crew, p: int, k: nat) returns (y': Crew)
    requires ValidConfig(c) && Comes(c, quiet, y0, y, p) && k in y.jobs && y.jobs[k] == Firing(p)
    requires var b := ViewOf(y.s, p).buf; b.Some? && b.value.messages != [] && !b.value.inFlight
    ensures Comes(c, quiet, y0, y', p) && y'.desk == y.desk && y'.s.channel == y.s.channel
    ensures ViewOf(y'.s, p) == Cut(c, p, ViewOf(y.s, p))
  {
    y' := Play(c, quiet, y0, y, Fire(k), p);
    y' := Play(c, quiet, y0, y', FlushNow(k), p);
  }

  /** A partition whose timer field is set is cut by the callback of its timer. */
  lemma {:induction false} PlayTimer(c: Config, quiet: bool, y0: Crew, y: Crew, p: int) returns (y': Crew)
    requires ValidConfig(c) && Comes(c, quiet, y0, y, p)
    requires var b := ViewOf(y.s, p).buf; b.Some? && b.value.messages != [] && !b.value.inFlight && b.value.armed
    ensures Comes(c, quiet, y0, y', p) && y'.desk == y.desk && y'.s.channel == y.s.channel
    ensures ViewOf(y'.s, p) == Cut(c, p, ViewOf(y.s, p))
  {
    assert FieldSane(y, p) by {
      SoundHere(c, quiet, y0, y, p);
    }
    var expired, k := y, y.next;
    if p in y.ticking {
      LeadsThen(c, quiet, y0, y, Expire(p));
      expired := CrewAfter(c, y, Expire(p));
    } else {
      k :| k in y.jobs && y.jobs[k] == Firing(p);
    }
    y' := PlayCallback(c, quiet, y0, expired, p, k);
  }

  /** The waiting partitions among `keys`, in some order. */
  lemma {:induction false} ListAmong(bufs: map<int, Buf>, keys: set<int>) returns (pending: seq<int>)
    ensures forall q :: q in pending <==> q in keys && Waiting(bufs, q)
    ensures forall i, j :: 0 <= i < j < |pending| ==> pending[i] != pending[j]
    decreases |keys|
  {
    if keys == {} {
      return [];
    }
    Inhabited(keys);
    var q :| q in keys;
    pending := ListAmong(bufs, keys - {q});
    if Waiting(bufs, q) {
      pending := pending + [q];
    }
  }

  /** A range over the map may begin with `p`. */
  lemma {:induction false} ListFrom(bufs: map<int, Buf>, p: int) returns (pending: seq<int>)
    requires Waiting(bufs, p)
    ensures Lists(bufs, pending) && pending != [] && pending[0] == p
  {
    var others := ListAmong(bufs, bufs.Keys - {p});
    pending := [p] + others;
  }

  lemma {:induction false} SweepTurn(c: Config, y: Crew, p: int) returns (pending: seq<int>)
    requires ValidConfig(c) && Tokens(c, y.s) && p in y.s.trail && FlightFits(ViewOf(y.s, p), Sweep)
    requires ViewOf(y.s, p).buf.value.messages != []
    ensures pending != [] && pending[0] == p && p in y.s.owner && CrewCan(c, y, SweepUp(y.s.owner[p], pending))
    ensures SeenBy(y.s, Fly(y.s.owner[p], Sweep), p) == Carry(Sweep, y.s.closed)
  {
    FlightIsKnown(c, y.s, p);
    var i := y.s.owner[p];
    var s' := Land(y.s, i, y.s.bufs[p].(inFlight := false));
    pending := ListFrom(s'.bufs, p);
    assert StateAfter(c, y, SweepUp(i, pending)) == s';
  }

  /** The handled batch is swept and the sweep, or the timer that it starts, cuts the next one. */
  lemma {:induction false} PlayNext(c: Config, quiet: bool, y0: Crew, y: Crew, p: int) returns (y': Crew)
    requires ValidConfig(c) && Comes(c, quiet, y0, y, p) && FlightFits(ViewOf(y.s, p), Sweep)
    requires ViewOf(y.s, p).buf.value.messages != []
    ensures Comes(c, quiet, y0, y', p) && y'.desk == y.desk
    ensures var v := ViewOf(y.s, p); ViewOf(y'.s, p) == Cut(c, p, VLand(v, v.buf.value.(inFlight := false)))
  {
    var v, k := ViewOf(y.s, p), y.next;
    assert Tokens(c, y.s) by {
      SoundHere(c, quiet, y0, y, p);
    }
    var pending := SweepTurn(c, y, p);
    var swept := Play(c, quiet, y0, y, SweepUp(y.s.owner[p], pending), p);
    y' := PlayDrain(c, quiet, y0, swept, p, k, pending);
  }

  lemma {:induction false} PlayDrain(c: Config, quiet: bool, y0: Crew, y: Crew, p: int, k: nat, pending: seq<int>)
    returns (y': Crew)
    requires ValidConfig(c) && Comes(c, quiet, y0, y, p) && k in y.jobs && y.jobs[k] == Draining(pending, None)
    requires pending != [] && pending[0] == p
    requires var b := ViewOf(y.s, p).buf; b.Some? && b.value.messages != [] && !b.value.inFlight
    ensures Comes(c, quiet, y0, y', p) && y'.desk == y.desk
    ensures ViewOf(y'.s, p) == Cut(c, p, ViewOf(y.s, p))
  {
    y' := Play(c, quiet, y0, y, DrainTry(k), p);
    if |ViewOf(y.s, p).buf.value.messages| < c.batchSize {
      y' := PlayTimer(c, quiet, y0, y', p);
    }
  }

  // ---- Common sequences ----

  /** A checked batch is announced, queued, worked on and handled. */
  lemma {:induction false} PlayProcess(c: Config, quiet: bool, y0: Crew, y: Crew, p: int) returns (y': Crew)
    requires ValidConfig(c) && Comes(c, quiet, y0, y, p) && FlightFits(ViewOf(y.s, p), Announce) && DeskOk(y, p)
    ensures Comes(c, quiet, y0, y', p) && y'.desk == Free
    ensures ViewOf(y'.s, p) == VComplete(VMove(VAnnounce(ViewOf(y.s, p)), Working))
  {
    y' := PlayFlight(c, quiet, y0, y, p, Announce);
    y' := PlayToWorker(c, quiet, y0, y', p);
    y' := PlayFlight(c, quiet, y0, y', p, Complete);
  }

  /** The same from the cut. */
  lemma {:induction false} PlayWhole(c: Config, quiet: bool, y0: Crew, y: Crew, p: int) returns (y': Crew)
    requires ValidConfig(c) && Comes(c, quiet, y0, y, p) && FlightFits(ViewOf(y.s, p), CheckClosed) && DeskOk(y, p)
    ensures Comes(c, quiet, y0, y', p) && y'.desk == Free
    ensures ViewOf(y'.s, p) == VComplete(VMove(VAnnounce(VMove(ViewOf(y.s, p), Checked)), Working))
  {
    y' := PlayFlight(c, quiet, y0, y, p, CheckClosed);
    y' := PlayProcess(c, quiet, y0, y', p);
  }

  /** A cut batch meets a full channel. */
  lemma {:induction false} PlayRefused(c: Config, quiet: bool, y0: Crew, y: Crew, p: int) returns (y': Crew)
    requires ValidConfig(c) && Comes(c, quiet, y0, y, p) && FlightFits(ViewOf(y.s, p), CheckClosed) && DeskOk(y, p)
    requires |y.s.channel| >= c.channelCap
    ensures Comes(c, quiet, y0, y', p) && DeskOk(y', p) && (y.desk == Free ==> y'.desk == Free)
    ensures ViewOf(y'.s, p) == VMove(VAnnounce(VMove(ViewOf(y.s, p), Checked)), Refused)
  {
    y' := PlayFlight(c, quiet, y0, y, p, CheckClosed);
    y' := PlayFlight(c, quiet, y0, y', p, Announce);
    y' := PlayFlight(c, quiet, y0, y', p, Refuse);
  }

  /** A refused batch is completed at the coordinator and put back into the buffer. */
  lemma {:induction false} PlayUndone(c: Config, y0: Crew, y: Crew, p: int) returns (y': Crew)
    requires ValidConfig(c) && Comes(c, false, y0, y, p) && FlightFits(ViewOf(y.s, p), Undo) && DeskOk(y, p)
    ensures Comes(c, false, y0, y', p) && y'.desk == Free && ViewOf(y'.s, p) == PutBackAfterUndo(ViewOf(y.s, p))
    ensures Busy(y.s) ==> Busy(y'.s)
  {
    y' := PlayFlight(c, false, y0, y, p, Undo);
    y' := PlayFlight(c, false, y0, y', p, PutBack);
  }

  function PutBackAfterUndo(v: View): View
    requires v.flight.Some? && v.buf.Some?
  {
    VLand(VUndo(v), AfterPutBack(v.flight.value.batch, v.buf.value))
  }

  /** tryDispatch of Send cuts a single buffered message, at once or through the timer. */
  lemma {:induction false} PlaySendCut(c: Config, quiet: bool, y0: Crew, y: Crew, p: int) returns (y': Crew)
    requires ValidConfig(c) && Comes(c, quiet, y0, y, p) && y.desk == InSend(p, None)
    requires var b := ViewOf(y.s, p).buf; b.Some? && b.value.messages != [] && !b.value.inFlight
    ensures Comes(c, quiet, y0, y', p) && DeskOk(y', p) && y'.s.channel == y.s.channel
    ensures |ViewOf(y.s, p).buf.value.messages| < c.batchSize ==> y'.desk == Free
    ensures ViewOf(y'.s, p) == Cut(c, p, ViewOf(y.s, p))
  {
    y' := Play(c, quiet, y0, y, SendTry, p);
    if |ViewOf(y.s, p).buf.value.messages| < c.batchSize {
      y' := PlayTimer(c, quiet, y0, y', p);
    }
  }
}
