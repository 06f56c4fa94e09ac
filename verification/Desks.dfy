/** The poll loop can always finish what it is doing. */
module Desks {
  import opened Types
  import opened Pipeline
  import opened Views
  import opened Ledger
  import opened Schedule
  import opened Replay

  // ---- What the poll loop is doing, seen from the partition it does it for ----

  predicate Dispatching(stage: Stage) {
    stage in {Assembled, Checked, Announced, Refused, Returned}
  }

  /** Send has appended to the buffer of `q`, in its current assignment, and carries the batch it has cut. */
  predicate Posted(s: State, q: int, carried: Option<nat>) {
    && !s.closed && q in s.trail
    && var v := ViewOf(s, q);
    && v.buf.Some? && v.t.phase == Assigned
    && (carried.Some? ==> q in s.owner && s.owner[q] == carried.value && InDispatch(v))
  }

  predicate DeskSound(y: Crew) {
    && (y.desk.InSend? ==> Posted(y.s, y.desk.p, y.desk.carried))
    && (y.desk.InRevoke? ==> y.desk.ps != {} && y.desk.ps <= y.s.trail.Keys)
    && (forall q :: q in y.s.trail ==> RevokesExactly(y, q))
  }

  lemma OwnerByPart(c: Config, s: State, p: int, e: PartEvent, q: int)
    requires c.batchSize > 0 && PartEnabled(c, s, p, e) && q in s.owner && q in s.bufs && s.bufs[q].inFlight
    ensures var s' := ApplyPart(c, s, p, e); q in s'.owner && s'.owner[q] == s.owner[q]
  {
  }

  lemma OwnerByFlight(s: State, i: nat, f: FlightEvent, q: int)
    requires Known(s, i) && (f.Receive? ==> s.channel != [] && s.channel[0] == i)
    requires q in s.owner && (f.PutBack? || f.Sweep? ==> Carrier(s, i) != q)
    ensures var s' := ApplyFlight(s, i, f); q in s'.owner && s'.owner[q] == s.owner[q]
  {
  }

  /** Steps of other goroutines than the poll loop's, and of the batch that Send carries. */
  predicate Elsewhere(t: CrewStep) {
    t.Expire? || t.Fire? || t.FlushNow? || t.DrainTry? || t.SweepUp? || t.CarryOn?
  }

  /** Where a partition is in its assignment. */
  predicate SamePlace(v: View, w: View) {
    w.t.phase == v.t.phase && w.t.gen == v.t.gen && (v.buf.Some? ==> w.buf.Some?)
  }

  lemma PlaceByPart(c: Config, p: int, v: View, e: PartEvent)
    requires p in c.logs && c.batchSize > 0 && PartFits(c, p, v, e) && (e.TryDispatch? || e.TimerFires? || e.Flush?)
    ensures SamePlace(v, PartStep(c, p, v, e))
    ensures v.flight.Some? && v.buf.Some? && v.buf.value.inFlight ==> PartStep(c, p, v, e).flight == v.flight
  {
  }

  lemma PlaceByFlight(v: View, f: FlightEvent, closed: bool)
    requires FlightFits(v, f)
    ensures SamePlace(v, FlightStep(v, f, closed))
    ensures Dispatching(v.flight.value.stage) && !closed && !f.Enqueue? && !f.PutBack? && !f.SendClosed? ==>
      && FlightStep(v, f, closed).flight.Some? && FlightStep(v, f, closed).flight.value.gen == v.flight.value.gen
      && Dispatching(FlightStep(v, f, closed).flight.value.stage)
  {
  }

  lemma {:induction false} ElsewhereSeen(c: Config, y: Crew, t: CrewStep, q: int)
    requires ValidConfig(c) && CrewCan(c, y, t) && Elsewhere(t) && !t.Expire?
    ensures var l := SeenBy(y.s, ActionOf(y, t), q);
      || l == Aside || (l.Part? && (l.e.TryDispatch? || l.e.TimerFires? || l.e.Flush?)) || l.Carry?
  {
  }

  /** They rebalance nothing. */
  lemma {:induction false} ElsewherePlace(c: Config, y: Crew, t: CrewStep, q: int)
    requires ValidConfig(c) && Tokens(c, y.s) && CrewCan(c, y, t) && Elsewhere(t) && q in y.s.trail
    ensures q in CrewAfter(c, y, t).s.trail && SamePlace(ViewOf(y.s, q), ViewOf(CrewAfter(c, y, t).s, q))
  {
    if !t.Expire? {
      var l := SeenBy(y.s, ActionOf(y, t), q);
      StepView(c, y.s, ActionOf(y, t), q);
      ElsewhereSeen(c, y, t, q);
      match l {
        case Part(e) => PlaceByPart(c, q, ViewOf(y.s, q), e);
        case Carry(f, closed) => PlaceByFlight(ViewOf(y.s, q), f, closed);
        case _ =>
      }
    }
  }

  /** Within dispatchBatch, in the current assignment. */
  predicate InDispatch(v: View) {
    v.buf.Some? && IsCurrent(v) && Dispatching(v.flight.value.stage)
  }

  lemma {:induction false} InDispatchStays(c: Config, p: int, v: View, l: Local)
    requires p in c.logs && c.batchSize > 0 && LocalFits(c, p, v, l) && Token(c, p, v) && InDispatch(v)
    requires l == Aside || (l.Part? && (l.e.TryDispatch? || l.e.TimerFires? || l.e.Flush?)) || l.Carry?
    requires l.Carry? ==> !l.closed && !l.f.Enqueue? && !l.f.PutBack? && !l.f.SendClosed?
    ensures InDispatch(LocalStep(c, p, v, l))
  {
    match l {
      case Part(e) => PlaceByPart(c, p, v, e);
      case Carry(f, closed) => PlaceByFlight(v, f, closed);
      case _ =>
    }
  }

  lemma {:induction false} OwnCarry(c: Config, y: Crew, t: CrewStep, q: int)
    requires ValidConfig(c) && Structure(c, y.s) && CrewCan(c, y, t) && Elsewhere(t) && !t.Expire? && !y.s.closed
    requires q in y.s.trail && q in y.s.owner && !(t.CarryOn? && t.i == y.s.owner[q] && (t.f.Enqueue? || t.f.PutBack?))
    ensures var l := SeenBy(y.s, ActionOf(y, t), q);
      l.Carry? ==> !l.closed && !l.f.Enqueue? && !l.f.PutBack? && !l.f.SendClosed?
  {
  }

  /** The batch of `q` moves on within dispatchBatch, or not at all, unless it is queued or put back. */
  lemma {:induction false} CarriedStays(c: Config, y: Crew, t: CrewStep, q: int)
    requires ValidConfig(c) && Tokens(c, y.s) && CrewCan(c, y, t) && Elsewhere(t) && !y.s.closed
    requires q in y.s.trail && q in y.s.owner && InDispatch(ViewOf(y.s, q))
    requires !(t.CarryOn? && t.i == y.s.owner[q] && (t.f.Enqueue? || t.f.PutBack?))
    ensures q in CrewAfter(c, y, t).s.trail && InDispatch(ViewOf(CrewAfter(c, y, t).s, q))
  {
    if !t.Expire? {
      StepView(c, y.s, ActionOf(y, t), q);
      ElsewhereSeen(c, y, t, q);
      OwnCarry(c, y, t, q);
      InDispatchStays(c, q, ViewOf(y.s, q), SeenBy(y.s, ActionOf(y, t), q));
    }
  }

  lemma {:induction false} OwnerKept(c: Config, y: Crew, t: CrewStep, q: int)
    requires ValidConfig(c) && Structure(c, y.s) && CrewCan(c, y, t) && Elsewhere(t) && !t.Expire? && q in y.s.owner
    requires q in y.s.bufs && y.s.bufs[q].inFlight
    requires !(t.CarryOn? && t.i == y.s.owner[q] && t.f.PutBack?) && !(t.SweepUp? && t.i == y.s.owner[q])
    ensures var s' := CrewAfter(c, y, t).s; q in s'.owner && s'.owner[q] == y.s.owner[q]
  {
    match t {
      case SweepUp(i, _) =>
        OtherCarrier(y.s, i, q);
        OwnerByFlight(y.s, i, Sweep, q);
      case CarryOn(i, f) =>
        OtherCarrier(y.s, i, q);
        OwnerByFlight(y.s, i, f, q);
      case _ => OwnerKeptByTry(c, y, t, q);
    }
  }

  lemma OtherCarrier(s: State, i: nat, q: int)
    requires OwnersMatch(s) && i in s.flights && q in s.owner
    ensures Carrier(s, i) == q <==> i == s.owner[q]
  {
  }

  lemma {:induction false} OwnerKeptByTry(c: Config, y: Crew, t: CrewStep, q: int)
    requires ValidConfig(c) && CrewCan(c, y, t) && (t.Fire? || t.FlushNow? || t.DrainTry?)
    requires q in y.s.owner && q in y.s.bufs && y.s.bufs[q].inFlight
    ensures var s' := CrewAfter(c, y, t).s; q in s'.owner && s'.owner[q] == y.s.owner[q]
  {
    match t {
      case Fire(k) => OwnerByPart(c, y.s, y.jobs[k].p, TimerFires, q);
      case FlushNow(k) => OwnerByPart(c, y.s, y.jobs[k].p, Flush, q);
      case DrainTry(k) => OwnerByPart(c, y.s, y.jobs[k].rest[0], TryDispatch, q);
    }
  }

  lemma SweptIsNotInDispatch(c: Config, y: Crew, t: CrewStep, q: int)
    requires ValidConfig(c) && CrewCan(c, y, t) && q in y.s.trail && q in y.s.owner && InDispatch(ViewOf(y.s, q))
    ensures !(t.SweepUp? && t.i == y.s.owner[q])
  {
  }

  /** While Send is under way. */
  lemma {:induction false} PostedStays(c: Config, y: Crew, t: CrewStep)
    requires ValidConfig(c) && CrewSound(c, y) && CrewCan(c, y, t) && Elsewhere(t) && y.desk.InSend?
    requires Posted(y.s, y.desk.p, y.desk.carried) && CrewAfter(c, y, t).desk.InSend?
    ensures CrewAfter(c, y, t).desk == y.desk && Posted(CrewAfter(c, y, t).s, y.desk.p, y.desk.carried)
  {
    var q := y.desk.p;
    ClosedStays(c, y, t);
    ElsewherePlace(c, y, t, q);
    if y.desk.carried.Some? {
      SweptIsNotInDispatch(c, y, t, q);
      CarriedStays(c, y, t, q);
      if !t.Expire? {
        OwnerKept(c, y, t, q);
      }
    }
  }

  function PhaseAfter(t: CrewStep, q: int, phase: Phase): Phase {
    if t == Gain(q) then Assigned else if t == Lose(q) then Revoking else if t == Forget(q) then Unassigned else phase
  }

  lemma PhaseByPart(c: Config, s: State, p: int, e: PartEvent, q: int)
    requires c.batchSize > 0 && PartEnabled(c, s, p, e) && q in s.trail
    ensures var s' := ApplyPart(c, s, p, e);
      && s'.trail.Keys == s.trail.Keys
      && s'.trail[q].phase == if p != q then s.trail[q].phase else if e.Assign? then Assigned
                              else if e.RevokeClear? then Revoking else if e.Reset? then Unassigned
                              else s.trail[q].phase
  {
  }

  lemma {:induction false} PhaseByStep(c: Config, y: Crew, t: CrewStep, q: int)
    requires ValidConfig(c) && Tokens(c, y.s) && CrewCan(c, y, t) && q in y.s.trail
    ensures q in CrewAfter(c, y, t).s.trail
    ensures CrewAfter(c, y, t).s.trail[q].phase == PhaseAfter(t, q, y.s.trail[q].phase)
  {
    if Elsewhere(t) {
      ElsewherePlace(c, y, t, q);
    } else {
      PhaseByPoll(c, y, t, q);
    }
  }

  lemma {:induction false} PhaseByPoll(c: Config, y: Crew, t: CrewStep, q: int)
    requires ValidConfig(c) && CrewCan(c, y, t) && !Elsewhere(t) && q in y.s.trail
    ensures q in CrewAfter(c, y, t).s.trail
    ensures CrewAfter(c, y, t).s.trail[q].phase == PhaseAfter(t, q, y.s.trail[q].phase)
  {
    match t {
      case Arrive(p, n) => PhaseByPart(c, y.s, p, Deliver(n), q);
      case SendTry => PhaseByPart(c, y.s, y.desk.p, TryDispatch, q);
      case Skip(p, n) => PhaseByPart(c, y.s, p, Discard(n), q);
      case Gain(p) => PhaseByPart(c, y.s, p, Assign, q);
      case Lose(p) => PhaseByPart(c, y.s, p, RevokeClear, q);
      case Forget(p) => PhaseByPart(c, y.s, p, PartEvent.Reset, q);
      case _ =>
    }
  }

  predicate RevokesExactly(y: Crew, q: int)
    requires q in y.s.trail
  {
    y.s.trail[q].phase == Revoking <==> y.desk.InRevoke? && q in y.desk.ps
  }

  lemma {:induction false} RevokesStep(c: Config, y: Crew, t: CrewStep, q: int)
    requires ValidConfig(c) && Tokens(c, y.s) && CrewCan(c, y, t) && q in y.s.trail && RevokesExactly(y, q)
    ensures q in CrewAfter(c, y, t).s.trail && RevokesExactly(CrewAfter(c, y, t), q)
  {
    PhaseByStep(c, y, t, q);
  }

  /** The two steps of Send before dispatchBatch. */
  lemma {:induction false} PostedBegins(c: Config, y: Crew, t: CrewStep)
    requires ValidConfig(c) && CrewSound(c, y) && CrewCan(c, y, t) && (t.Arrive? || t.SendTry?)
    requires y.desk.InSend? ==> Posted(y.s, y.desk.p, y.desk.carried)
    requires CrewAfter(c, y, t).desk.InSend?
    ensures Posted(CrewAfter(c, y, t).s, CrewAfter(c, y, t).desk.p, CrewAfter(c, y, t).desk.carried)
  {
    if t.SendTry? {
      assert CrewAfter(c, y, t).s == Launch(c, y.s, y.desk.p);
    }
  }

  lemma {:induction false} DeskSoundStep(c: Config, y: Crew, t: CrewStep)
    requires ValidConfig(c) && CrewSound(c, y) && DeskSound(y) && CrewCan(c, y, t)
    ensures DeskSound(CrewAfter(c, y, t))
  {
    var y' := CrewAfter(c, y, t);
    SoundCrewStep(c, y, t);
    forall q | q in y'.s.trail ensures RevokesExactly(y', q) {
      RevokesStep(c, y, t, q);
    }
    if y'.desk.InSend? {
      if Elsewhere(t) {
        PostedStays(c, y, t);
      } else {
        PostedBegins(c, y, t);
      }
    }
  }

  /** So it is in every schedule. */
  lemma {:induction false} DeskSoundHere(c: Config, quiet: bool, y0: Crew, y: Crew, p: int)
    requires ValidConfig(c) && Comes(c, quiet, y0, y, p)
    ensures DeskSound(y)
  {
    BootIsSound(c);
    var R := z => CrewSound(c, z) && DeskSound(z);
    forall z, t | R(z) && CrewCan(c, z, t) ensures R(CrewAfter(c, z, t)) {
      SoundCrewStep(c, z, t);
      DeskSoundStep(c, z, t);
    }
    assert StepsKeep(c, false, R) && StepsKeep(c, quiet, R);
    assert R(CrewBoot(c));
    assert R(y0);
    assert R(y);
  }

  // ---- Back to the select loop ----

  /** The poll loop does not carry the batch of `p`. */
  predicate NotCarrying(y: Crew, p: int) {
    y.desk.InSend? && y.desk.p == p ==> y.desk.carried.None?
  }

  /** Nor is it in a Send of `p` that may still cut a batch. */
  predicate LeavesAlone(y: Crew, p: int)
    requires p in y.s.trail
  {
    NotCarrying(y, p) && (y.desk.InSend? && y.desk.p == p ==> ViewOf(y.s, p).flight.Some?)
  }

  /** What `p` sees of it: nothing but a report, and the end of its own revocation. */
  predicate Unmoved(v: View, w: View) {
    w == v.(read := w.read) || (v.t.phase == Revoking && w == VReset(v).(read := w.read))
  }

  /** How far a batch is from being queued or put back. */
  function Steps(stage: Stage): nat {
    match stage
    case Assembled => 5
    case Checked => 4
    case Announced => 3
    case Refused => 2
    case _ => 1
  }

  function NextOf(stage: Stage, full: bool): FlightEvent
    requires Dispatching(stage)
  {
    match stage
    case Assembled => CheckClosed
    case Checked => Announce
    case Announced => if full then Refuse else Enqueue
    case Refused => Undo
    case Returned => PutBack
  }

  lemma {:induction false} CarrierTurn(c: Config, y: Crew, p: int)
    requires ValidConfig(c) && Structure(c, y.s) && p in y.s.trail
    requires y.desk.InSend? && y.desk.carried.Some? && y.desk.p != p
    requires Posted(y.s, y.desk.p, y.desk.carried)
    ensures var q, i := y.desk.p, y.desk.carried.value;
      && q in y.s.trail && InDispatch(ViewOf(y.s, q)) && i in y.s.flights && Carrier(y.s, i) == q
      && var f := NextOf(ViewOf(y.s, q).flight.value.stage, |y.s.channel| >= c.channelCap);
      && CrewCan(c, y, CarryOn(i, f)) && SeenBy(y.s, Fly(i, f), p) == Aside
  {
    FlightIsKnown(c, y.s, y.desk.p);
  }

  lemma {:induction false} CarrierGain(c: Config, y: Crew, i: nat, f: FlightEvent)
    requires ValidConfig(c) && CrewCan(c, y, CarryOn(i, f)) && !y.s.closed
    requires Dispatching(y.s.flights[i].stage) && f == NextOf(y.s.flights[i].stage, |y.s.channel| >= c.channelCap)
    requires y.desk.InSend? && y.desk.carried == Some(i)
    ensures var y' := CrewAfter(c, y, CarryOn(i, f));
      && |y'.s.channel| >= |y.s.channel|
      && (y'.desk != Free ==>
            y'.desk == y.desk && i in y'.s.flights && Steps(y'.s.flights[i].stage) < Steps(y.s.flights[i].stage))
  {
  }

  /** Send finishes with the batch of another partition. */
  lemma {:induction false} PlaySendHome(c: Config, y0: Crew, y: Crew, p: int) returns (y': Crew)
    requires ValidConfig(c) && Comes(c, false, y0, y, p)
    requires y.desk.InSend? && y.desk.carried.Some? && y.desk.p != p && y.desk.carried.value in y.s.flights
    ensures Comes(c, false, y0, y', p) && y'.desk == Free && ViewOf(y'.s, p) == ViewOf(y.s, p)
    ensures |y'.s.channel| >= |y.s.channel|
    ensures Busy(y.s) ==> Busy(y'.s)
    decreases Steps(y.s.flights[y.desk.carried.value].stage)
  {
    assert DeskSound(y) && Structure(c, y.s) by {
      SoundHere(c, false, y0, y, p);
      DeskSoundHere(c, false, y0, y, p);
    }
    CarrierTurn(c, y, p);
    var i := y.desk.carried.value;
    var f := NextOf(y.s.flights[i].stage, |y.s.channel| >= c.channelCap);
    CarrierGain(c, y, i, f);
    y' := Play(c, false, y0, y, CarryOn(i, f), p);
    if y'.desk != Free {
      y' := PlaySendHome(c, y0, y', p);
    }
  }

  /** The revocation callback ends. */
  lemma {:induction false} PlayForgetAll(c: Config, y0: Crew, y: Crew, p: int) returns (y': Crew)
    requires ValidConfig(c) && Comes(c, false, y0, y, p) && y.desk.InRevoke? && y.desk.read && y.desk.ps != {}
    ensures Comes(c, false, y0, y', p) && y'.desk == Free && Unmoved(ViewOf(y.s, p), ViewOf(y'.s, p))
    ensures |y'.s.channel| >= |y.s.channel|
    ensures Busy(y.s) ==> Busy(y'.s)
    decreases |y.desk.ps|
  {
    assert DeskSound(y) && Structure(c, y.s) by {
      SoundHere(c, false, y0, y, p);
      DeskSoundHere(c, false, y0, y, p);
    }
    Inhabited(y.desk.ps);
    var q :| q in y.desk.ps;
    assert q in y.s.trail && RevokesExactly(y, q);
    var next := Play(c, false, y0, y, Forget(q), p);
    y' := next;
    if next.desk != Free {
      y' := PlayForgetAll(c, y0, next, p);
    }
  }

  lemma {:induction false} PlayRevokeEnds(c: Config, y0: Crew, y: Crew, p: int) returns (y': Crew)
    requires ValidConfig(c) && Comes(c, false, y0, y, p) && y.desk.InRevoke? && y.desk.ps != {}
    ensures Comes(c, false, y0, y', p) && y'.desk == Free && Unmoved(ViewOf(y.s, p), ViewOf(y'.s, p))
    ensures |y'.s.channel| >= |y.s.channel|
    ensures Busy(y.s) ==> Busy(y'.s)
  {
    if y.desk.read {
      y' := PlayForgetAll(c, y0, y, p);
    } else {
      var looked := Play(c, false, y0, y, Look, p);
      y' := PlayForgetAll(c, y0, looked, p);
    }
  }

  lemma {:induction false} TryDesk(c: Config, y: Crew)
    requires ValidConfig(c) && CrewCan(c, y, SendTry)
    ensures var y' := CrewAfter(c, y, SendTry);
      && y'.s.channel == y.s.channel
      && (y.s.bufs[y.desk.p].inFlight ==> y'.desk == Free)
      && (y'.desk != Free ==>
            y'.desk.InSend? && y'.desk.carried.Some? && y'.desk.p == y.desk.p && y'.desk.carried.value in y'.s.flights)
  {
  }

  /** tryDispatch of Send leaves `p` alone: it tries another partition, or `p` has a batch in flight. */
  lemma {:induction false} PlayTry(c: Config, y0: Crew, y: Crew, p: int) returns (y': Crew)
    requires ValidConfig(c) && Comes(c, false, y0, y, p) && y.desk.InSend? && y.desk.carried.None?
    requires y.desk.p in y.s.bufs && LeavesAlone(y, p)
    ensures Comes(c, false, y0, y', p) && ViewOf(y'.s, p) == ViewOf(y.s, p) && y'.s.channel == y.s.channel
    ensures y'.desk == Free || (y'.desk.InSend? && y'.desk.carried.Some? && y'.desk.p != p
                                && y'.desk.carried.value in y'.s.flights)
    ensures Busy(y.s) ==> Busy(y'.s)
  {
    assert Keyed(c, y.s) && Token(c, p, ViewOf(y.s, p)) by {
      SoundHere(c, false, y0, y, p);
    }
    y' := Play(c, false, y0, y, SendTry, p);
    TryDesk(c, y);
  }

  lemma {:induction false} PlaySendEnds(c: Config, y0: Crew, y: Crew, p: int) returns (y': Crew)
    requires ValidConfig(c) && Comes(c, false, y0, y, p) && LeavesAlone(y, p)
    requires y.desk.InSend? && Posted(y.s, y.desk.p, y.desk.carried)
    ensures Comes(c, false, y0, y', p) && y'.desk == Free && ViewOf(y'.s, p) == ViewOf(y.s, p)
    ensures |y'.s.channel| >= |y.s.channel|
    ensures Busy(y.s) ==> Busy(y'.s)
  {
    y' := y;
    if y.desk.carried.None? {
      y' := PlayTry(c, y0, y, p);
    }
    if y'.desk != Free {
      y' := PlaySendHome(c, y0, y', p);
    }
  }

  /** Whatever the poll loop is doing, unless it is in a Send that may touch `p`, it can finish. */
  lemma {:induction false} PlayHome(c: Config, y0: Crew, y: Crew, p: int) returns (y': Crew)
    requires ValidConfig(c) && Comes(c, false, y0, y, p) && LeavesAlone(y, p)
    ensures Comes(c, false, y0, y', p) && y'.desk == Free && Unmoved(ViewOf(y.s, p), ViewOf(y'.s, p))
    ensures |y'.s.channel| >= |y.s.channel| && ViewOf(y'.s, p).t.phase != Revoking
    ensures Busy(y.s) ==> Busy(y'.s)
  {
    assert DeskSound(y) by {
      DeskSoundHere(c, false, y0, y, p);
    }
    match y.desk {
      case Free => y' := y;
      case HasRead => y' := Play(c, false, y0, y, Keep(false), p);
      case InRevoke(_, _) => y' := PlayRevokeEnds(c, y0, y, p);
      case InSend(_, _) => y' := PlaySendEnds(c, y0, y, p);
    }
    assert RevokesExactly(y', p) by {
      DeskSoundHere(c, false, y0, y', p);
    }
  }
}
