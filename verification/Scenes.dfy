/** Concrete schedules with two partitions and room for one queued batch. */
module Scenes {
  import opened Types
  import opened Buffers
  import opened Pipeline
  import opened Views
  import opened Assignment
  import opened Schedule
  import opened WakeUp
  import opened Replay
  import opened Departures

  /** Partition 0 fills its batch; partition 1 has one message. */
  function TwoPartitions(batchSize: nat): Config {
    Config(batchSize, 1, map[0 := seq(batchSize, i => Message(0, i, "a")), 1 := [Message(1, 0, "b")]])
  }

  /** No timer runs and no goroutine but the poll loop's and the workers' has anything left to do. */
  predicate Still(y: Crew) {
    y.ticking == {} && y.stray == multiset{} && forall k :: k in y.jobs ==> y.jobs[k] == Draining([], None)
  }

  /** A schedule from the start has come to `y`; two partitions are watched. */
  ghost predicate On(c: Config, y: Crew, p: int, q: int)
    requires ValidConfig(c)
  {
    && p != q && c.logs.Keys == {p, q} && Still(y)
    && Comes(c, false, CrewBoot(c), y, p) && Comes(c, false, CrewBoot(c), y, q)
  }

  /** What `p` and `q` see of a step. */
  lemma {:induction false} Watch(c: Config, y: Crew, t: CrewStep, p: int, q: int) returns (y': Crew)
    requires ValidConfig(c) && On(c, y, p, q) && CrewCan(c, y, t) && !t.Shut? && !t.Expire?
    requires Still(CrewAfter(c, y, t))
    ensures On(c, y', p, q) && y' == CrewAfter(c, y, t)
    ensures LocalFits(c, p, ViewOf(y.s, p), SeenBy(y.s, ActionOf(y, t), p))
    ensures ViewOf(y'.s, p) == LocalStep(c, p, ViewOf(y.s, p), SeenBy(y.s, ActionOf(y, t), p))
    ensures LocalFits(c, q, ViewOf(y.s, q), SeenBy(y.s, ActionOf(y, t), q))
    ensures ViewOf(y'.s, q) == LocalStep(c, q, ViewOf(y.s, q), SeenBy(y.s, ActionOf(y, t), q))
  {
    y' := Play(c, false, CrewBoot(c), y, t, p);
    var same := Play(c, false, CrewBoot(c), y, t, q);
  }

  /** Assigned for the first time, nothing polled. */
  function Idle(): View {
    View(Some(NewBuf()), None, None, Trail(Assigned, 1, 0, 0, [], [], [], {}, Fresh, {}), None, None)
  }

  /** The whole log is in one batch. */
  predicate Sails(c: Config, p: int, v: View, stage: Stage) {
    && p in c.logs && v.buf == Some(Buf([], true, false))
    && v.flight.Some? && v.flight.value.stage == stage && v.flight.value.batch.messages == c.logs[p]
  }

  lemma {:induction false} BothAssigned(batchSize: nat) returns (y: Crew)
    requires batchSize > 0
    ensures var c := TwoPartitions(batchSize);
      && ValidConfig(c) && On(c, y, 0, 1) && y.desk == Free && y.s.channel == [] && y.s.owner == map[]
      && ViewOf(y.s, 0) == Idle() && ViewOf(y.s, 1) == Idle()
  {
    var c := TwoPartitions(batchSize);
    var one := Watch(c, CrewBoot(c), Gain(0), 0, 1);
    y := Watch(c, one, Gain(1), 0, 1);
  }

  /** Send appends the whole log. */
  lemma {:induction false} AppendAll(c: Config, y: Crew, p: int, q: int) returns (y': Crew)
    requires ValidConfig(c) && On(c, y, p, q) && y.desk == Free && ViewOf(y.s, p) == Idle() && c.logs[p] != []
    ensures On(c, y', p, q) && y'.desk == InSend(p, None)
    ensures y'.s.channel == y.s.channel && y'.s.owner == y.s.owner
    ensures ViewOf(y'.s, p) == Idle().(buf := Some(Buf(c.logs[p], false, false)), t := ViewOf(y'.s, p).t)
    ensures ViewOf(y'.s, q) == ViewOf(y.s, q)
    ensures ViewOf(y'.s, p).t.phase == Assigned && ViewOf(y'.s, p).t.done == {}
  {
    var log := c.logs[p];
    assert [] + log[0..|log|] == log;
    y' := Watch(c, y, Arrive(p, |log|), p, q);
  }

  /** And cuts it. */
  lemma {:induction false} CutAll(c: Config, y: Crew, p: int, q: int) returns (y': Crew)
    requires ValidConfig(c) && On(c, y, p, q) && y.desk == InSend(p, None) && |c.logs[p]| == c.batchSize
    requires ViewOf(y.s, p).buf == Some(Buf(c.logs[p], false, false)) && p !in y.s.owner
    ensures On(c, y', p, q) && p in y'.s.owner && y'.desk == InSend(p, Some(y'.s.owner[p]))
    ensures y'.s.channel == y.s.channel && y'.s.owner == y.s.owner[p := y'.s.owner[p]]
    ensures Sails(c, p, ViewOf(y'.s, p), Assembled) && ViewOf(y'.s, q) == ViewOf(y.s, q)
  {
    assert c.logs[p][..c.batchSize] == c.logs[p] && c.logs[p][c.batchSize..] == [];
    assert CrewAfter(c, y, SendTry).s == Launch(c, y.s, p);
    y' := Watch(c, y, SendTry, p, q);
  }

  lemma {:induction false} StillAfter(c: Config, y: Crew, i: nat, f: FlightEvent)
    requires ValidConfig(c) && Still(y) && CrewCan(c, y, CarryOn(i, f))
    ensures Still(CrewAfter(c, y, CarryOn(i, f)))
  {
  }

  lemma CarryOwner(c: Config, s: State, i: nat, f: FlightEvent)
    requires FlightEnabled(c, s, i, f) && (Carrying(f) || f.Enqueue?)
    ensures var s' := ApplyFlight(s, i, f);
      && s'.owner == (if f.PutBack? then s.owner - {Carrier(s, i)} else s.owner)
      && s'.channel == if f.Enqueue? then s.channel + [i] else s.channel
  {
  }

  /** The Send that carries the batch returns. */
  function DeskThen(desk: Desk, i: nat, f: FlightEvent): Desk {
    if desk.InSend? && desk.carried == Some(i) && (f.Enqueue? || f.PutBack?) then Free else desk
  }

  /** Steps of the batch of `p` are its own. */
  lemma {:induction false} Seen(c: Config, s: State, p: int, q: int, f: FlightEvent)
    requires Structure(c, s) && p in s.trail && q in s.trail && p != q && ViewOf(s, p).flight.Some?
    ensures p in s.owner && Known(s, s.owner[p]) && Carrier(s, s.owner[p]) == p
    ensures s.flights[s.owner[p]] == ViewOf(s, p).flight.value
    ensures SeenBy(s, Fly(s.owner[p], f), p) == Carry(f, s.closed) && SeenBy(s, Fly(s.owner[p], f), q) == Aside
  {
    FlightIsKnown(c, s, p);
  }

  /** A step of the goroutine that carries the batch of `p`. */
  lemma {:induction false} Moves(c: Config, y: Crew, p: int, q: int, f: FlightEvent) returns (y': Crew)
    requires ValidConfig(c) && On(c, y, p, q) && FlightFits(ViewOf(y.s, p), f) && (Carrying(f) || f.Enqueue?)
    requires (f.Enqueue? ==> |y.s.channel| < c.channelCap) && (f.Refuse? ==> |y.s.channel| >= c.channelCap)
    ensures On(c, y', p, q) && p in y.s.owner
    ensures y'.s.owner == (if f.PutBack? then y.s.owner - {p} else y.s.owner)
    ensures y'.s.channel == (if f.Enqueue? then y.s.channel + [y.s.owner[p]] else y.s.channel)
    ensures y'.desk == DeskThen(y.desk, y.s.owner[p], f)
    ensures ViewOf(y'.s, p) == FlightStep(ViewOf(y.s, p), f, false) && ViewOf(y'.s, q) == ViewOf(y.s, q)
  {
    assert Structure(c, y.s) by {
      SoundHere(c, false, CrewBoot(c), y, p);
    }
    Seen(c, y.s, p, q, f);
    CarryOwner(c, y.s, y.s.owner[p], f);
    StillAfter(c, y, y.s.owner[p], f);
    y' := Watch(c, y, CarryOn(y.s.owner[p], f), p, q);
  }

  /** The log of partition 0 fills the channel; partition 1 is idle. */
  lemma {:induction false} ChannelFilled(batchSize: nat) returns (y: Crew)
    requires batchSize > 0
    ensures var c := TwoPartitions(batchSize);
      && ValidConfig(c) && On(c, y, 0, 1) && y.desk == Free && 0 in y.s.owner && 1 !in y.s.owner
      && y.s.channel == [y.s.owner[0]]
      && Sails(c, 0, ViewOf(y.s, 0), Queued) && ViewOf(y.s, 1) == Idle()
  {
    var c := TwoPartitions(batchSize);
    assert |c.logs[0]| == batchSize;
    var both := BothAssigned(batchSize);
    var sent := AppendAll(c, both, 0, 1);
    var cut := CutAll(c, sent, 0, 1);
    y := Queues(c, cut, 0, 1);
  }

  lemma {:induction false} Queues(c: Config, y: Crew, p: int, q: int) returns (y': Crew)
    requires ValidConfig(c) && On(c, y, p, q) && Sails(c, p, ViewOf(y.s, p), Assembled) && y.s.channel == []
    requires p in y.s.owner && y.desk == InSend(p, Some(y.s.owner[p]))
    ensures On(c, y', p, q) && y'.desk == Free && y'.s.owner == y.s.owner && y'.s.channel == [y.s.owner[p]]
    ensures Sails(c, p, ViewOf(y'.s, p), Queued) && ViewOf(y'.s, q) == ViewOf(y.s, q)
  {
    var checked := Moves(c, y, p, q, CheckClosed);
    var announced := Moves(c, checked, p, q, Announce);
    y' := Moves(c, announced, p, q, Enqueue);
  }

  lemma {:induction false} Refuses(c: Config, y: Crew, p: int, q: int) returns (y': Crew)
    requires ValidConfig(c) && On(c, y, p, q) && Sails(c, p, ViewOf(y.s, p), Assembled) && |y.s.channel| >= c.channelCap
    ensures On(c, y', p, q) && y'.desk == y.desk && y'.s.owner == y.s.owner && y'.s.channel == y.s.channel
    ensures Sails(c, p, ViewOf(y'.s, p), Refused) && ViewOf(y'.s, q) == ViewOf(y.s, q)
  {
    var checked := Moves(c, y, p, q, CheckClosed);
    var announced := Moves(c, checked, p, q, Announce);
    y' := Moves(c, announced, p, q, Refuse);
  }

  lemma {:induction false} Received(c: Config, y: Crew, p: int, q: int) returns (y': Crew)
    requires ValidConfig(c) && On(c, y, p, q) && Sails(c, p, ViewOf(y.s, p), Queued)
    requires p in y.s.owner && y.s.channel == [y.s.owner[p]]
    ensures On(c, y', p, q) && y'.desk == y.desk && y'.s.owner == y.s.owner
    ensures Sails(c, p, ViewOf(y'.s, p), Working) && ViewOf(y'.s, q) == ViewOf(y.s, q)
  {
    assert Structure(c, y.s) by {
      SoundHere(c, false, CrewBoot(c), y, p);
    }
    ReceiveTurn(c, y, p);
    ReceiveTurn(c, y, q);
    LeadsThen(c, false, CrewBoot(c), y, CarryOn(y.s.owner[p], Receive));
    y' := y.(s := DoReceive(y.s));
  }

  /** A worker takes the batch of `p` and handles it. */
  lemma {:induction false} Served(c: Config, y: Crew, p: int, q: int) returns (y': Crew)
    requires ValidConfig(c) && On(c, y, p, q) && Sails(c, p, ViewOf(y.s, p), Queued)
    requires p in y.s.owner && y.s.channel == [y.s.owner[p]]
    ensures On(c, y', p, q) && y'.desk == y.desk && y'.s.owner == y.s.owner
    ensures Sails(c, p, ViewOf(y'.s, p), Handled) && ViewOf(y'.s, q) == ViewOf(y.s, q)
  {
    var working := Received(c, y, p, q);
    y' := Moves(c, working, p, q, Complete);
  }

  lemma {:induction false} NobodyListed(s: State, i: nat, p: int, q: int)
    requires i in s.flights && Carrier(s, i) == p && p in s.bufs && s.bufs[p].messages == []
    requires s.bufs.Keys <= {p, q} && q in s.bufs && s.bufs[q].inFlight
    ensures var s' := Land(s, i, s.bufs[p].(inFlight := false)); Lists(s'.bufs, []) && s'.owner == s.owner - {p}
  {
  }

  lemma {:induction false} NobodyWaits(c: Config, y: Crew, p: int, q: int)
    requires ValidConfig(c) && y.s.bufs.Keys <= {p, q} && p != q && p in y.s.owner && p in y.s.trail
    requires Known(y.s, y.s.owner[p]) && Carrier(y.s, y.s.owner[p]) == p && Sails(c, p, ViewOf(y.s, p), Handled)
    requires q in y.s.bufs && y.s.bufs[q].inFlight
    ensures CrewCan(c, y, SweepUp(y.s.owner[p], []))
    ensures StateAfter(c, y, SweepUp(y.s.owner[p], [])).owner == y.s.owner - {p}
  {
    var i := y.s.owner[p];
    NobodyListed(y.s, i, p, q);
    assert StateAfter(c, y, SweepUp(i, [])) == Land(y.s, i, y.s.bufs[p].(inFlight := false));
  }

  /** And finds nobody waiting. */
  lemma {:induction false} SweepsAlone(c: Config, y: Crew, p: int, q: int) returns (y': Crew)
    requires ValidConfig(c) && On(c, y, p, q) && Sails(c, p, ViewOf(y.s, p), Handled)
    requires p in y.s.owner && ViewOf(y.s, q).buf.Some? && ViewOf(y.s, q).buf.value.inFlight
    ensures On(c, y', p, q) && y'.desk == y.desk && y'.s.owner == y.s.owner - {p}
    ensures ViewOf(y'.s, p).flight.None? && ViewOf(y'.s, q) == ViewOf(y.s, q)
  {
    assert Structure(c, y.s) by {
      SoundHere(c, false, CrewBoot(c), y, p);
    }
    Seen(c, y.s, p, q, Sweep);
    NobodyWaits(c, y, p, q);
    y' := Watch(c, y, SweepUp(y.s.owner[p], []), p, q);
  }

  /** The undo of `p` ends with nobody else there. */
  lemma {:induction false} LeftBehind(c: Config, y: Crew, p: int, q: int) returns (y': Crew)
    requires ValidConfig(c) && On(c, y, p, q) && Sails(c, p, ViewOf(y.s, p), Refused) && ViewOf(y.s, q).flight.None?
    requires p in y.s.owner && y.desk == InSend(p, Some(y.s.owner[p])) && c.logs[p] != []
    ensures On(c, y', p, q) && Running(y'.s) && Waiting(y'.s.bufs, p) && !Covered(y', p)
  {
    var undone := Moves(c, y, p, q, Undo);
    y' := Moves(c, undone, p, q, PutBack);
    NothingFlies(c, y', p, q);
  }

  lemma FlightsAreSeen(c: Config, s: State)
    requires Structure(c, s)
    ensures forall i :: i in s.flights ==> Carrier(s, i) in s.trail && ViewOf(s, Carrier(s, i)).flight.Some?
  {
  }

  lemma {:induction false} NothingFlies(c: Config, y: Crew, p: int, q: int)
    requires ValidConfig(c) && On(c, y, p, q) && ViewOf(y.s, p).flight.None? && ViewOf(y.s, q).flight.None?
    ensures forall i :: i !in y.s.flights
  {
    SoundHere(c, false, CrewBoot(c), y, p);
    FlightsAreSeen(c, y.s);
  }

  /**
   * The put-back of Send comes after the only other batch was handled and swept: the
   * partition has a message, no timer and no batch, and nobody is left to come.
   */
  lemma {:induction false} WakeUpLostWhenUndoIsOvertaken() returns (steps: seq<CrewStep>, y: Crew)
    ensures ValidConfig(TwoPartitions(1)) && CrewRun(TwoPartitions(1), CrewBoot(TwoPartitions(1)), steps, y)
    ensures Running(y.s) && Waiting(y.s.bufs, 1) && !Covered(y, 1)
  {
    var c := TwoPartitions(1);
    var filled := ChannelFilled(1);
    var refused := SecondRefused(filled);
    var served := Served(c, refused, 0, 1);
    var swept := SweepsAlone(c, served, 0, 1);
    y := LeftBehind(c, swept, 1, 0);
    steps := LeadsIsRun(c, false, CrewBoot(c), y);
  }

  lemma {:induction false} SecondRefused(y: Crew) returns (y': Crew)
    requires var c := TwoPartitions(1);
      && ValidConfig(c) && On(c, y, 0, 1) && y.desk == Free && 0 in y.s.owner && 1 !in y.s.owner
      && y.s.channel == [y.s.owner[0]]
      && Sails(c, 0, ViewOf(y.s, 0), Queued) && ViewOf(y.s, 1) == Idle()
    ensures var c := TwoPartitions(1);
      && On(c, y', 0, 1) && 0 in y'.s.owner && 1 in y'.s.owner && y'.s.channel == [y'.s.owner[0]]
      && y'.desk == InSend(1, Some(y'.s.owner[1]))
      && Sails(c, 0, ViewOf(y'.s, 0), Queued) && Sails(c, 1, ViewOf(y'.s, 1), Refused)
  {
    var c := TwoPartitions(1);
    var sent := AppendAll(c, y, 1, 0);
    var cut := CutAll(c, sent, 1, 0);
    y' := Refuses(c, cut, 1, 0);
  }

  /** Send of the second partition meets the full channel, and the next commit passes its message. */
  lemma {:induction false} CommitUnsafeWhenChannelFull() returns (steps: seq<CrewStep>, y: Crew)
    ensures ValidConfig(TwoPartitions(1)) && CrewRun(TwoPartitions(1), CrewBoot(TwoPartitions(1)), steps, y)
    ensures 1 in y.s.committed && 1 in y.s.trail
    ensures TwoPartitions(1).logs[1][0].offset < y.s.committed[1]
    ensures TwoPartitions(1).logs[1][0].offset !in y.s.trail[1].done
  {
    var c := TwoPartitions(1);
    var filled := ChannelFilled(1);
    var sent := AppendAll(c, filled, 1, 0);
    AnewFrom(c, CrewBoot(c), sent, 1);
    var back := PlayCutAndRefused(c, sent, SendTry, 1);
    y := PlayCommit(c, sent, back, 1);
    LeadsJoin(c, false, CrewBoot(c), sent, y);
    steps := LeadsIsRun(c, false, CrewBoot(c), y);
  }

  /** The linger callback of the second partition meets the full channel and is overtaken by a revocation. */
  lemma {:induction false} ConservationFailsWhenUndoIsRevoked() returns (steps: seq<CrewStep>, y: Crew)
    ensures ValidConfig(TwoPartitions(2)) && CrewRun(TwoPartitions(2), CrewBoot(TwoPartitions(2)), steps, y)
    ensures !Accounted(y.s, 1)
  {
    var c := TwoPartitions(2);
    var filled := ChannelFilled(2);
    var sent := AppendAll(c, filled, 1, 0);
    var refused := TimerRefused(c, sent, 1);
    AnewFrom(c, CrewBoot(c), refused, 1);
    assert Token(c, 1, ViewOf(refused.s, 1)) by {
      SoundHere(c, false, refused, refused, 1);
    }
    y := RevokedUndo(c, refused, 1);
    LeadsJoin(c, false, CrewBoot(c), refused, y);
    steps := LeadsIsRun(c, false, CrewBoot(c), y);
  }

  /** Send starts the timer and returns; the callback cuts the batch and meets the full channel. */
  lemma {:induction false} TimerRefused(c: Config, y: Crew, p: int) returns (y': Crew)
    requires ValidConfig(c) && Comes(c, false, CrewBoot(c), y, p) && y.desk == InSend(p, None)
    requires var b := ViewOf(y.s, p).buf; b.Some? && 0 < |b.value.messages| < c.batchSize && !b.value.inFlight
    requires |y.s.channel| >= c.channelCap && ViewOf(y.s, p).t.phase == Assigned
    ensures Comes(c, false, CrewBoot(c), y', p) && UndoOpen(y', p)
  {
    var cut := PlaySendCut(c, false, CrewBoot(c), y, p);
    y' := PlayRefused(c, false, CrewBoot(c), cut, p);
  }
}
