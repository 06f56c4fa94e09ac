/** What a panic, a cancellation and a Close leave behind. */
module Shutdown {
  import opened Offsets
  import opened Pipeline
  import opened Views
  import opened Delivery
  import opened Atomic

  // ---- Abandonment sticks ----

  /** Only its own goroutine moves a flight. */
  lemma OtherFlightsStayPart(c: Config, s: State, p: int, e: PartEvent, i: nat)
    requires c.batchSize > 0 && PartEnabled(c, s, p, e) && i in s.flights && i < s.nextFlight
    ensures i in ApplyPart(c, s, p, e).flights && ApplyPart(c, s, p, e).flights[i] == s.flights[i]
  {
  }

  lemma OtherFlightsStay(s: State, j: nat, f: FlightEvent, i: nat)
    requires Known(s, j) && (f.Receive? ==> s.channel != [] && s.channel[0] == j) && i in s.flights && i != j
    ensures i in ApplyFlight(s, j, f).flights && ApplyFlight(s, j, f).flights[i] == s.flights[i]
  {
  }

  lemma {:induction false} AbandonedStep(c: Config, s: State, a: Action, i: nat)
    requires ValidConfig(c) && Tokens(c, s) && Enabled(c, s, a)
    requires i in s.flights && s.flights[i].stage == Abandoned
    ensures i in Apply(c, s, a).flights && Apply(c, s, a).flights[i] == s.flights[i]
  {
    match a {
      case At(p, e) => OtherFlightsStayPart(c, s, p, e, i);
      case Fly(j, f) => OtherFlightsStay(s, j, f, i);
      case _ =>
    }
  }

  lemma {:induction false} AbandonedRun(c: Config, s: State, acts: seq<Action>, last: State, i: nat)
    requires ValidConfig(c) && Tokens(c, s) && Run(c, s, acts, last)
    requires i in s.flights && s.flights[i].stage == Abandoned
    ensures Tokens(c, last) && i in last.flights && last.flights[i] == s.flights[i]
    decreases |acts|
  {
    if acts != [] {
      AbandonedStep(c, s, acts[0], i);
      TokensStep(c, s, acts[0]);
      AbandonedRun(c, Apply(c, s, acts[0]), acts[1..], last, i);
    }
  }

  /**
   * Once a worker leaves a batch, its partition never has another batch and is never
   * offered for commit again, through any number of revocations and assignments.
   */
  lemma {:induction false} AbandonmentSticks(c: Config, before: seq<Action>, s: State, acts: seq<Action>,
                                             last: State, i: nat, j: nat)
    requires ValidConfig(c) && Run(c, Init(c), before, s) && Run(c, s, acts, last)
    requires i in s.flights && s.flights[i].stage == Abandoned
    ensures i in last.flights && last.flights[i] == s.flights[i]
    ensures j in last.flights && last.flights[j].batch.partition == s.flights[i].batch.partition ==> j == i
    ensures s.flights[i].batch.partition !in Committable(last.records)
  {
    InitTokens(c);
    TokensRun(c, Init(c), before, s);
    AbandonedRun(c, s, acts, last, i);
    var p := s.flights[i].batch.partition;
    assert Token(c, p, ViewOf(last, p));
  }

  // ---- Sending on a closed channel ----

  /** Past the closed check of dispatchBatch and not yet at the channel. */
  predicate BeforeSend(s: State, i: nat) {
    i in s.flights && (s.flights[i].stage == Checked || s.flights[i].stage == Announced)
  }

  lemma {:induction false} NoneBeforeSendPart(c: Config, s: State, p: int, e: PartEvent)
    requires c.batchSize > 0 && PartEnabled(c, s, p, e) && s.closed && forall i :: !BeforeSend(s, i)
    ensures ApplyPart(c, s, p, e).closed && forall i :: !BeforeSend(ApplyPart(c, s, p, e), i)
  {
    var s' := ApplyPart(c, s, p, e);
    forall i ensures !BeforeSend(s', i) {
      assert !BeforeSend(s, i);
    }
  }

  lemma {:induction false} NoneBeforeSendFlight(c: Config, s: State, j: nat, f: FlightEvent)
    requires FlightEnabled(c, s, j, f) && s.closed && forall i :: !BeforeSend(s, i)
    ensures ApplyFlight(s, j, f).closed && forall i :: !BeforeSend(ApplyFlight(s, j, f), i)
  {
    var s' := ApplyFlight(s, j, f);
    assert !BeforeSend(s, j);
    forall i ensures !BeforeSend(s', i) {
      assert !BeforeSend(s, i);
    }
  }

  lemma {:induction false} NoneBeforeSendStep(c: Config, s: State, a: Action)
    requires ValidConfig(c) && Enabled(c, s, a) && s.closed && forall i :: !BeforeSend(s, i)
    ensures Apply(c, s, a).closed && forall i :: !BeforeSend(Apply(c, s, a), i)
  {
    match a {
      case At(p, e) => NoneBeforeSendPart(c, s, p, e);
      case Fly(j, f) => NoneBeforeSendFlight(c, s, j, f);
      case Close =>
      case Snapshot => assert forall i :: BeforeSend(Apply(c, s, a), i) == BeforeSend(s, i);
      case Commit(_) => assert forall i :: BeforeSend(Apply(c, s, a), i) == BeforeSend(s, i);
    }
  }

  lemma {:induction false} NoneBeforeSendRun(c: Config, s: State, acts: seq<Action>, last: State)
    requires ValidConfig(c) && Run(c, s, acts, last) && s.closed && forall i :: !BeforeSend(s, i)
    ensures forall i :: !BeforeSend(last, i)
    decreases |acts|
  {
    if acts != [] {
      NoneBeforeSendStep(c, s, acts[0]);
      NoneBeforeSendRun(c, Apply(c, s, acts[0]), acts[1..], last);
    }
  }

  ghost predicate SendsOnClosed(c: Config, s: State, acts: seq<Action>, last: State, i: nat)
    requires ValidConfig(c)
  {
    Run(c, s, acts, last) && FlightEnabled(c, last, i, SendClosed)
  }

  lemma {:induction false} SendFollows(c: Config, s: State, i: nat) returns (acts: seq<Action>, last: State)
    requires ValidConfig(c) && s.closed && BeforeSend(s, i) && Known(s, i)
    ensures SendsOnClosed(c, s, acts, last, i)
  {
    acts, last := [], s;
    if s.flights[i].stage == Checked {
      RunThen(c, s, [], s, Fly(i, Announce));
      acts, last := [] + [Fly(i, Announce)], DoAnnounce(s, i);
    }
  }

  /**
   * After Close, some continuation sends on the closed channel exactly when a dispatch
   * was between its closed check and its send: the check does not prevent the race.
   */
  lemma {:induction false} SendOnClosedIffDispatchUnderWay(c: Config, before: seq<Action>, s: State)
    requires ValidConfig(c) && Run(c, Init(c), before, s) && s.closed
    ensures (exists acts, last, i :: SendsOnClosed(c, s, acts, last, i)) <==> (exists i :: BeforeSend(s, i))
  {
    InitTokens(c);
    TokensRun(c, Init(c), before, s);
    if i :| BeforeSend(s, i) {
      var acts, last := SendFollows(c, s, i);
    } else {
      forall acts, last, i | Run(c, s, acts, last) ensures !SendsOnClosed(c, s, acts, last, i) {
        NoneBeforeSendRun(c, s, acts, last);
        assert !BeforeSend(last, i);
      }
    }
  }
}
