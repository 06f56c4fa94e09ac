/** Another batch's sweep dispatches a waiting partition. */
module Sweeps {
  import opened Types
  import opened Buffers
  import opened Pipeline
  import opened Views
  import opened Schedule
  import opened Replay

  lemma NotItsCarrier(c: Config, s: State, p: int, i: nat)
    requires Structure(c, s) && p in s.trail && ViewOf(s, p).flight.None? && i in s.flights
    ensures Carrier(s, i) != p && Known(s, i)
  {
  }

  /** How far a batch is from its sweep. */
  function ToSweep(stage: Stage): nat {
    match stage
    case Queued => 2
    case Working => 1
    case _ => 0
  }

  /** The next step on the way of `i`: a worker takes the oldest batch, or handles `i`. */
  function Onward(s: State, i: nat): CrewStep
    requires Due(s, i) && s.flights[i].stage != Handled
  {
    if s.flights[i].stage == Working then CarryOn(i, Complete)
    else if s.channel == [] then CarryOn(i, Receive)
    else CarryOn(s.channel[0], Receive)
  }

  /** It brings `i` nearer to its sweep, or a batch before it out of the channel. */
  predicate Nearer(s: State, s': State, i: nat)
    requires Due(s, i)
  {
    && Due(s', i) && ToSweep(s'.flights[i].stage) <= ToSweep(s.flights[i].stage)
    && (ToSweep(s'.flights[i].stage) == ToSweep(s.flights[i].stage) ==> |s'.channel| < |s.channel|)
  }

  lemma ReceiveIsNearer(s: State, i: nat)
    requires Due(s, i) && s.flights[i].stage == Queued && s.channel != [] && s.channel[0] in s.flights
    ensures Nearer(s, DoReceive(s), i)
  {
  }

  lemma {:induction false} OnwardStep(c: Config, y: Crew, p: int, i: nat)
    requires ValidConfig(c) && Structure(c, y.s) && p in y.s.trail && ViewOf(y.s, p).flight.None?
    requires Due(y.s, i) && y.s.flights[i].stage != Handled
    ensures var t := Onward(y.s, i);
      && CrewCan(c, y, t) && SeenBy(y.s, ActionOf(y, t), p) == Aside
      && Nearer(y.s, CrewAfter(c, y, t).s, i) && CrewAfter(c, y, t).desk == y.desk
  {
    NotItsCarrier(c, y.s, p, i);
    if y.s.flights[i].stage == Queued {
      assert i in y.s.channel;
      ReceiveTurn(c, y, p);
      NotItsCarrier(c, y.s, p, y.s.channel[0]);
      ReceiveIsNearer(y.s, i);
    }
  }

  /** Workers take batches until `i` is handled; `p` has none. */
  lemma {:induction false} PlayUntilHandled(c: Config, y0: Crew, y: Crew, p: int, i: nat) returns (y': Crew)
    requires ValidConfig(c) && Comes(c, false, y0, y, p) && ViewOf(y.s, p).flight.None? && Due(y.s, i)
    ensures Comes(c, false, y0, y', p) && y'.desk == y.desk && ViewOf(y'.s, p) == ViewOf(y.s, p)
    ensures Due(y'.s, i) && y'.s.flights[i].stage == Handled
    decreases ToSweep(y.s.flights[i].stage), |y.s.channel|
  {
    y' := y;
    if y.s.flights[i].stage != Handled {
      assert Structure(c, y.s) by {
        SoundHere(c, false, y0, y, p);
      }
      OnwardStep(c, y, p, i);
      var next := Play(c, false, y0, y, Onward(y.s, i), p);
      y' := PlayUntilHandled(c, y0, next, p, i);
    }
  }

  lemma {:induction false} OtherSweepTurn(c: Config, y: Crew, p: int, i: nat) returns (pending: seq<int>)
    requires ValidConfig(c) && Structure(c, y.s) && p in y.s.trail && ViewOf(y.s, p).flight.None?
    requires i in y.s.flights && y.s.flights[i].stage == Handled && Waiting(y.s.bufs, p)
    ensures pending != [] && pending[0] == p && CrewCan(c, y, SweepUp(i, pending))
    ensures SeenBy(y.s, Fly(i, Sweep), p) == Aside
  {
    NotItsCarrier(c, y.s, p, i);
    var s' := Land(y.s, i, y.s.bufs[Carrier(y.s, i)].(inFlight := false));
    pending := ListFrom(s'.bufs, p);
    assert StateAfter(c, y, SweepUp(i, pending)) == s';
  }

  /** Some batch that is due is handled, and its sweep, or the timer that it starts, cuts the batch of `p`. */
  lemma {:induction false} PlaySweptAlong(c: Config, y0: Crew, y: Crew, p: int) returns (y': Crew)
    requires ValidConfig(c) && Comes(c, false, y0, y, p) && Busy(y.s) && ViewOf(y.s, p).flight.None?
    requires var b := ViewOf(y.s, p).buf; b.Some? && b.value.messages != [] && !b.value.inFlight
    ensures Comes(c, false, y0, y', p) && y'.desk == y.desk
    ensures ViewOf(y'.s, p) == Cut(c, p, ViewOf(y.s, p))
  {
    var i :| Due(y.s, i);
    var handled := PlayUntilHandled(c, y0, y, p, i);
    assert Structure(c, handled.s) by {
      SoundHere(c, false, y0, handled, p);
    }
    var pending := OtherSweepTurn(c, handled, p, i);
    var swept := Play(c, false, y0, handled, SweepUp(i, pending), p);
    y' := PlayDrain(c, false, y0, swept, p, handled.next, pending);
  }
}
