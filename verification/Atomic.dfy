/**
 * The interleaved pipeline and the dispatcher's methods agree: an undisturbed call of a
 * method is a run of pipeline steps that does to the shared state what the method does.
 */
module Atomic {
  import opened Types
  import opened Offsets
  import opened Buffers
  import opened Pipeline
  import opened Views
  import opened Delivery
  import Dispatcher

  lemma {:induction false} RunThen(c: Config, s: State, acts: seq<Action>, mid: State, a: Action)
    requires ValidConfig(c) && Run(c, s, acts, mid) && Enabled(c, mid, a)
    ensures Run(c, s, acts + [a], Apply(c, mid, a))
    decreases |acts|
  {
    if acts == [] {
      assert [a][1..] == [];
      assert Run(c, Apply(c, s, a), [], Apply(c, s, a));
    } else {
      RunThen(c, Apply(c, s, acts[0]), acts[1..], mid, a);
      assert (acts + [a])[1..] == acts[1..] + [a];
    }
  }

  lemma {:induction false} RunJoin(c: Config, s: State, a: seq<Action>, mid: State, b: seq<Action>, last: State)
    requires ValidConfig(c) && Run(c, s, a, mid) && Run(c, mid, b, last)
    ensures Run(c, s, a + b, last)
    decreases |a|
  {
    if a == [] {
      assert a + b == b;
    } else {
      RunJoin(c, Apply(c, s, a[0]), a[1..], mid, b, last);
      assert (a + b)[1..] == a[1..] + b;
    }
  }

  lemma {:induction false} RunOne(c: Config, s: State, a: Action)
    requires ValidConfig(c) && Enabled(c, s, a)
    ensures Run(c, s, [a], Apply(c, s, a))
  {
    RunThen(c, s, [], s, a);
    assert [] + [a] == [a];
  }

  predicate ChannelKnown(s: State) {
    forall k :: 0 <= k < |s.channel| ==> s.channel[k] in s.flights
  }

  /** The batches waiting in the channel. */
  function Queue(s: State): seq<Batch>
    requires ChannelKnown(s)
  {
    seq(|s.channel|, k requires 0 <= k < |s.channel| => s.flights[s.channel[k]].batch)
  }

  /** The part of the pipeline state that the dispatcher's methods see. */
  function SharedOf(s: State): Dispatcher.Shared
    requires ChannelKnown(s)
  {
    Dispatcher.Shared(s.bufs, Queue(s), s.records, s.closed)
  }

  /** What the goroutine that made these steps returns. */
  function Answer(acts: seq<Action>): Dispatcher.Outcome {
    if acts == [] || !acts[|acts| - 1].Fly? then Dispatcher.Accepted
    else match acts[|acts| - 1].f
      case PutBack => Dispatcher.Backpressure
      case CheckClosed => Dispatcher.Rejected
      case _ => Dispatcher.Accepted
  }

  lemma AnswerAfter(a: Action, acts: seq<Action>)
    requires a.At?
    ensures Answer([a] + acts) == Answer(acts)
  {
  }

  // ---- Cutting a batch and dispatching it ----

  predicate Cutter(e: PartEvent) {
    e.TryDispatch? || e.Flush?
  }

  /** `e` would cut a batch of `p`. */
  predicate CanCut(c: Config, s: State, p: int, e: PartEvent) {
    && p in s.bufs && p in s.trail && p in c.logs && !s.bufs[p].inFlight && s.bufs[p].messages != []
    && Cutter(e) && (e.TryDispatch? ==> |s.bufs[p].messages| >= c.batchSize)
  }

  /** The flight of the next batch of `p`, at some stage. */
  function NextFlight(c: Config, s: State, p: int, stage: Stage): Flight
    requires c.batchSize > 0 && p in s.bufs && p in s.trail && s.bufs[p].messages != []
  {
    Flight(CutBatch(p, c.batchSize, s.bufs[p]), stage, s.trail[p].gen, s.trail[p].start + |s.trail[p].handled|)
  }

  /** One goroutine makes `e` and then carries flight `i` through the steps `fs`. */
  predicate OneGoroutine(acts: seq<Action>, p: int, e: PartEvent, i: nat, fs: seq<FlightEvent>) {
    && |acts| == |fs| + 1 && acts[0] == At(p, e)
    && forall k :: 0 <= k < |fs| ==> acts[k + 1] == Fly(i, fs[k])
  }

  lemma OneGoroutineOn(acts: seq<Action>, p: int, e: PartEvent, i: nat, fs: seq<FlightEvent>, f: FlightEvent)
    requires OneGoroutine(acts, p, e, i, fs)
    ensures OneGoroutine(acts + [Fly(i, f)], p, e, i, fs + [f])
  {
  }

  /** The steps of dispatchBatch, if `e` cuts a batch. */
  function DispatchSteps(c: Config, s: State, p: int, e: PartEvent): seq<FlightEvent> {
    if !CanCut(c, s, p, e) then []
    else if s.closed then [CheckClosed]
    else if |s.channel| < c.channelCap then [CheckClosed] + [Announce] + [Enqueue]
    else [CheckClosed] + [Announce] + [Refuse] + [Undo] + [PutBack]
  }

  /** The steps of an undisturbed tryDispatch or flushPartition, dispatchBatch included. */
  predicate AttemptSteps(c: Config, s: State, p: int, e: PartEvent, acts: seq<Action>) {
    if p !in s.bufs then acts == [] else OneGoroutine(acts, p, e, s.nextFlight, DispatchSteps(c, s, p, e))
  }

  /** The state after the batch was cut and its flight reached `stage` without a record. */
  function CutState(c: Config, s: State, p: int, stage: Stage): State
    requires c.batchSize > 0 && p in s.bufs && p in s.trail && s.bufs[p].messages != []
  {
    s.(bufs := s.bufs[p := AfterCut(c.batchSize, s.bufs[p])],
       flights := s.flights[s.nextFlight := NextFlight(c, s, p, stage)],
       nextFlight := s.nextFlight + 1,
       owner := s.owner[p := s.nextFlight])
  }

  function AnnouncedState(c: Config, s: State, p: int, stage: Stage): State
    requires c.batchSize > 0 && p in s.bufs && p in s.trail && s.bufs[p].messages != []
  {
    CutState(c, s, p, stage).(
      records := Dispatched(s.records, p, NextFlight(c, s, p, stage).batch.maxOffset),
      trail := s.trail[p := s.trail[p].(fate := Open)])
  }

  function QueuedState(c: Config, s: State, p: int): State
    requires c.batchSize > 0 && p in s.bufs && p in s.trail && s.bufs[p].messages != []
  {
    AnnouncedState(c, s, p, Queued).(channel := s.channel + [s.nextFlight])
  }

  /** The full-channel branch, up to but not including the put-back. */
  function ReturnedState(c: Config, s: State, p: int): State
    requires c.batchSize > 0 && p in s.bufs && p in s.trail && s.bufs[p].messages != []
  {
    var b := NextFlight(c, s, p, Returned).batch;
    CutState(c, s, p, Returned).(
      records := Completed(Dispatched(s.records, p, b.maxOffset), p, b.maxOffset),
      trail := s.trail[p := s.trail[p].(fate := Undone(|b.messages|))])
  }

  lemma {:induction false} CutOne(c: Config, s: State, p: int, e: PartEvent)
    requires ValidConfig(c) && CanCut(c, s, p, e)
    ensures Run(c, s, [At(p, e)], CutState(c, s, p, Assembled))
  {
    RunOne(c, s, At(p, e));
    assert Apply(c, s, At(p, e)) == CutState(c, s, p, Assembled);
  }

  lemma {:induction false} CutRun(c: Config, s: State, p: int, e: PartEvent) returns (acts: seq<Action>)
    requires ValidConfig(c) && CanCut(c, s, p, e)
    ensures Run(c, s, acts, CutState(c, s, p, if s.closed then Stranded else Checked))
    ensures Answer(acts) == Dispatcher.Rejected
    ensures OneGoroutine(acts, p, e, s.nextFlight, [CheckClosed])
  {
    var i := s.nextFlight;
    var s1 := CutState(c, s, p, Assembled);
    CutOne(c, s, p, e);
    acts := [At(p, e)];
    RunThen(c, s, acts, s1, Fly(i, CheckClosed));
    var stage := if s.closed then Stranded else Checked;
    assert Apply(c, s1, Fly(i, CheckClosed)) == CutState(c, s, p, stage) by {
      assert s1.flights[i := NextFlight(c, s, p, stage)] == s.flights[i := NextFlight(c, s, p, stage)];
    }
    OneGoroutineOn(acts, p, e, i, [], CheckClosed);
    assert [] + [CheckClosed] == [CheckClosed];
    acts := acts + [Fly(i, CheckClosed)];
  }

  lemma {:induction false} AnnounceFollows(c: Config, s: State, p: int)
    requires c.batchSize > 0 && p in s.bufs && p in s.trail && s.bufs[p].messages != []
    ensures var s2 := CutState(c, s, p, Checked);
      FlightEnabled(c, s2, s.nextFlight, Announce) && DoAnnounce(s2, s.nextFlight) == AnnouncedState(c, s, p, Announced)
  {
    var i, s2 := s.nextFlight, CutState(c, s, p, Checked);
    assert s2.flights[i := NextFlight(c, s, p, Announced)] == s.flights[i := NextFlight(c, s, p, Announced)];
  }

  lemma {:induction false} AnnounceRun(c: Config, s: State, p: int, e: PartEvent) returns (acts: seq<Action>)
    requires ValidConfig(c) && CanCut(c, s, p, e) && !s.closed
    ensures Run(c, s, acts, AnnouncedState(c, s, p, Announced))
    ensures OneGoroutine(acts, p, e, s.nextFlight, [CheckClosed] + [Announce])
  {
    var i := s.nextFlight;
    acts := CutRun(c, s, p, e);
    AnnounceFollows(c, s, p);
    RunThen(c, s, acts, CutState(c, s, p, Checked), Fly(i, Announce));
    OneGoroutineOn(acts, p, e, i, [CheckClosed], Announce);
    acts := acts + [Fly(i, Announce)];
  }

  lemma {:induction false} QueueRun(c: Config, s: State, p: int, e: PartEvent) returns (acts: seq<Action>)
    requires ValidConfig(c) && CanCut(c, s, p, e) && !s.closed && |s.channel| < c.channelCap
    ensures Run(c, s, acts, QueuedState(c, s, p)) && Answer(acts) == Dispatcher.Accepted
    ensures OneGoroutine(acts, p, e, s.nextFlight, [CheckClosed] + [Announce] + [Enqueue])
  {
    var i := s.nextFlight;
    acts := AnnounceRun(c, s, p, e);
    var s3 := AnnouncedState(c, s, p, Announced);
    RunThen(c, s, acts, s3, Fly(i, Enqueue));
    assert Apply(c, s3, Fly(i, Enqueue)) == QueuedState(c, s, p) by {
      assert s3.flights[i := NextFlight(c, s, p, Queued)] == s.flights[i := NextFlight(c, s, p, Queued)];
    }
    OneGoroutineOn(acts, p, e, i, [CheckClosed] + [Announce], Enqueue);
    acts := acts + [Fly(i, Enqueue)];
  }

  lemma {:induction false} RefuseRun(c: Config, s: State, p: int, e: PartEvent) returns (acts: seq<Action>)
    requires ValidConfig(c) && CanCut(c, s, p, e) && !s.closed && |s.channel| >= c.channelCap
    ensures Run(c, s, acts, AnnouncedState(c, s, p, Refused))
    ensures OneGoroutine(acts, p, e, s.nextFlight, [CheckClosed] + [Announce] + [Refuse])
  {
    var i := s.nextFlight;
    acts := AnnounceRun(c, s, p, e);
    var s3 := AnnouncedState(c, s, p, Announced);
    RunThen(c, s, acts, s3, Fly(i, Refuse));
    assert Apply(c, s3, Fly(i, Refuse)) == AnnouncedState(c, s, p, Refused) by {
      assert s3.flights[i := NextFlight(c, s, p, Refused)] == s.flights[i := NextFlight(c, s, p, Refused)];
    }
    OneGoroutineOn(acts, p, e, i, [CheckClosed] + [Announce], Refuse);
    acts := acts + [Fly(i, Refuse)];
  }

  lemma {:induction false} ReturnRun(c: Config, s: State, p: int, e: PartEvent) returns (acts: seq<Action>)
    requires ValidConfig(c) && CanCut(c, s, p, e) && !s.closed && |s.channel| >= c.channelCap
    ensures Run(c, s, acts, ReturnedState(c, s, p))
    ensures OneGoroutine(acts, p, e, s.nextFlight, [CheckClosed] + [Announce] + [Refuse] + [Undo])
  {
    acts := RefuseRun(c, s, p, e);
    UndoReturns(c, s, p);
    RunThen(c, s, acts, AnnouncedState(c, s, p, Refused), Fly(s.nextFlight, Undo));
    OneGoroutineOn(acts, p, e, s.nextFlight, [CheckClosed] + [Announce] + [Refuse], Undo);
    acts := acts + [Fly(s.nextFlight, Undo)];
  }

  lemma {:induction false} UndoReturns(c: Config, s: State, p: int)
    requires c.batchSize > 0 && p in s.bufs && p in s.trail && s.bufs[p].messages != []
    ensures var s4 := AnnouncedState(c, s, p, Refused);
      FlightEnabled(c, s4, s.nextFlight, Undo) && DoUndo(s4, s.nextFlight) == ReturnedState(c, s, p)
  {
    var i, s4, f := s.nextFlight, AnnouncedState(c, s, p, Refused), NextFlight(c, s, p, Refused);
    assert s4.flights[i] == f && f.batch == NextFlight(c, s, p, Returned).batch && f.gen == s4.trail[p].gen;
    assert s4.flights[i := f.(stage := Returned)] == s.flights[i := f.(stage := Returned)];
    assert s4.trail[p := s4.trail[p].(fate := Undone(|f.batch.messages|))]
        == s.trail[p := s.trail[p].(fate := Undone(|f.batch.messages|))];
  }

  /** After the put-back the partition has all its messages again. */
  lemma {:induction false} PutBackLands(c: Config, s: State, p: int)
    requires c.batchSize > 0 && p in s.bufs && p in s.trail && s.bufs[p].messages != [] && !s.bufs[p].inFlight
    requires s.nextFlight !in s.flights
    ensures var s5 := ReturnedState(c, s, p);
      var last := Land(s5, s.nextFlight, AfterPutBack(s5.flights[s.nextFlight].batch, s5.bufs[p]));
      && last.flights == s.flights && last.channel == s.channel && last.closed == s.closed
      && last.bufs == s.bufs[p := s.bufs[p].(armed := false)]
      && last.records == s5.records
  {
    var s5 := ReturnedState(c, s, p);
    var ms, n := s.bufs[p].messages, CutLen(c.batchSize, s.bufs[p]);
    assert ms[..n] + ms[n..] == ms;
    assert s5.flights - {s.nextFlight} == s.flights;
    assert AfterPutBack(s5.flights[s.nextFlight].batch, s5.bufs[p]) == s.bufs[p].(armed := false);
  }

  lemma {:induction false} PutBackRun(c: Config, s: State, p: int, e: PartEvent)
    returns (acts: seq<Action>, last: State)
    requires ValidConfig(c) && CanCut(c, s, p, e) && !s.closed && |s.channel| >= c.channelCap
    requires s.nextFlight !in s.flights
    ensures Run(c, s, acts, last) && Answer(acts) == Dispatcher.Backpressure
    ensures last.flights == s.flights && last.channel == s.channel && last.closed == s.closed
    ensures last.bufs == s.bufs[p := s.bufs[p].(armed := false)]
    ensures last.records == ReturnedState(c, s, p).records
    ensures AttemptSteps(c, s, p, e, acts)
  {
    var i := s.nextFlight;
    acts := ReturnRun(c, s, p, e);
    var s5 := ReturnedState(c, s, p);
    RunThen(c, s, acts, s5, Fly(i, PutBack));
    last := Apply(c, s5, Fly(i, PutBack));
    OneGoroutineOn(acts, p, e, i, [CheckClosed] + [Announce] + [Refuse] + [Undo], PutBack);
    acts := acts + [Fly(i, PutBack)];
    PutBackLands(c, s, p);
  }

  // ---- The shared state after it ----

  /** The batches of the channel do not depend on other flights. */
  lemma SameQueue(s: State, s': State)
    requires s'.channel == s.channel && ChannelKnown(s)
    requires forall k :: 0 <= k < |s.channel| ==>
      s.channel[k] in s'.flights && s'.flights[s.channel[k]].batch == s.flights[s.channel[k]].batch
    ensures ChannelKnown(s') && Queue(s') == Queue(s)
  {
  }

  /** tryDispatch or flushPartition as the dispatcher's functions have it. */
  function Attempted(c: Config, d: Dispatcher.Shared, p: int, e: PartEvent): (Dispatcher.Shared, Dispatcher.Outcome)
    requires c.batchSize > 0
  {
    if e.TryDispatch? then Dispatcher.Tried(c.batchSize, c.channelCap, d, p)
    else Dispatcher.Flushed(c.batchSize, c.channelCap, d, p)
  }

  lemma {:induction false} ShortShared(c: Config, s: State, p: int, e: PartEvent)
    requires ValidConfig(c) && Tokens(c, s) && p in s.bufs && Cutter(e) && !CanCut(c, s, p, e)
    ensures ChannelKnown(ApplyPart(c, s, p, e))
    ensures Attempted(c, SharedOf(s), p, e) == (SharedOf(ApplyPart(c, s, p, e)), Dispatcher.Accepted)
  {
    SameQueue(s, ApplyPart(c, s, p, e));
  }

  lemma {:induction false} StrandShared(c: Config, s: State, p: int, e: PartEvent)
    requires c.batchSize > 0 && CanCut(c, s, p, e) && Tokens(c, s) && s.closed
    ensures ChannelKnown(CutState(c, s, p, Stranded))
    ensures Attempted(c, SharedOf(s), p, e) == (SharedOf(CutState(c, s, p, Stranded)), Dispatcher.Rejected)
  {
    SameQueue(s, CutState(c, s, p, Stranded));
  }

  lemma {:induction false} QueueShared(c: Config, s: State, p: int, e: PartEvent)
    requires c.batchSize > 0 && CanCut(c, s, p, e) && Tokens(c, s) && !s.closed && |s.channel| < c.channelCap
    ensures ChannelKnown(QueuedState(c, s, p))
    ensures Attempted(c, SharedOf(s), p, e) == (SharedOf(QueuedState(c, s, p)), Dispatcher.Accepted)
  {
    assert Queue(QueuedState(c, s, p)) == Queue(s) + [CutBatch(p, c.batchSize, s.bufs[p])];
  }

  lemma {:induction false} PutBackShared(c: Config, s: State, p: int, e: PartEvent, last: State)
    requires c.batchSize > 0 && CanCut(c, s, p, e) && Tokens(c, s) && !s.closed && |s.channel| >= c.channelCap
    requires last.flights == s.flights && last.channel == s.channel && last.closed == s.closed
    requires last.bufs == s.bufs[p := s.bufs[p].(armed := false)]
    requires last.records == ReturnedState(c, s, p).records
    ensures ChannelKnown(last)
    ensures Attempted(c, SharedOf(s), p, e) == (SharedOf(last), Dispatcher.Backpressure)
  {
    SameQueue(s, last);
    var ms, n := s.bufs[p].messages, CutLen(c.batchSize, s.bufs[p]);
    assert ms[..n] + ms[n..] == ms;
    assert Attempted(c, SharedOf(s), p, e).0.bufs == last.bufs;
  }

  /** An undisturbed tryDispatch or flushPartition, in all its branches, with its answer. */
  lemma {:induction false} AttemptRun(c: Config, s: State, p: int, e: PartEvent)
    returns (acts: seq<Action>, last: State)
    requires ValidConfig(c) && Tokens(c, s) && Cutter(e)
    ensures Run(c, s, acts, last) && Tokens(c, last)
    ensures Attempted(c, SharedOf(s), p, e) == (SharedOf(last), Answer(acts))
    ensures AttemptSteps(c, s, p, e, acts)
  {
    if p !in s.bufs {
      acts, last := [], s;
    } else if !CanCut(c, s, p, e) {
      RunOne(c, s, At(p, e));
      acts, last := [At(p, e)], ApplyPart(c, s, p, e);
      ShortShared(c, s, p, e);
    } else if s.closed {
      acts := CutRun(c, s, p, e);
      last := CutState(c, s, p, Stranded);
      StrandShared(c, s, p, e);
    } else if |s.channel| < c.channelCap {
      acts := QueueRun(c, s, p, e);
      last := QueuedState(c, s, p);
      QueueShared(c, s, p, e);
    } else {
      acts, last := PutBackRun(c, s, p, e);
      PutBackShared(c, s, p, e, last);
    }
    TokensRun(c, s, acts, last);
  }

  // ---- The other methods ----

  /** One step that leaves the queue alone. */
  lemma {:induction false} QuietStep(c: Config, s: State, a: Action, s': State)
    requires ValidConfig(c) && Tokens(c, s) && Enabled(c, s, a) && s' == Apply(c, s, a)
    requires s'.channel == s.channel && forall k :: 0 <= k < |s.channel| ==>
      s.channel[k] in s'.flights && s'.flights[s.channel[k]].batch == s.flights[s.channel[k]].batch
    ensures Run(c, s, [a], s') && Tokens(c, s') && Queue(s') == Queue(s)
  {
    RunOne(c, s, a);
    TokensStep(c, s, a);
    SameQueue(s, s');
  }

  lemma {:induction false} DeliverShared(c: Config, s: State, p: int, n: nat)
    requires ValidConfig(c) && Tokens(c, s) && PartEnabled(c, s, p, Deliver(n))
    ensures Run(c, s, [At(p, Deliver(n))], DoDeliver(c, s, p, n)) && Tokens(c, DoDeliver(c, s, p, n))
    ensures SharedOf(DoDeliver(c, s, p, n))
         == Dispatcher.Appended(SharedOf(s), p, c.logs[p][s.trail[p].pos..s.trail[p].pos + n])
  {
    QuietStep(c, s, At(p, Deliver(n)), DoDeliver(c, s, p, n));
  }

  lemma {:induction false} SendRun(c: Config, s: State, p: int, n: nat) returns (acts: seq<Action>, last: State)
    requires ValidConfig(c) && Tokens(c, s) && InPhase(c, s, p, Assigned) && Remaining(c, s, p, n)
    ensures Run(c, s, acts, last) && Tokens(c, last)
    ensures Dispatcher.Sent(c.batchSize, c.channelCap, SharedOf(s), p, c.logs[p][s.trail[p].pos..s.trail[p].pos + n])
         == (SharedOf(last), if s.closed then Dispatcher.Rejected else Answer(acts))
    ensures if s.closed then acts == []
            else |acts| >= 2 && acts[0] == At(p, Deliver(n))
                 && AttemptSteps(c, DoDeliver(c, s, p, n), p, TryDispatch, acts[1..])
  {
    if s.closed {
      return [], s;
    }
    DeliverShared(c, s, p, n);
    var mid, more := DoDeliver(c, s, p, n), [];
    more, last := AttemptRun(c, mid, p, TryDispatch);
    RunJoin(c, s, [At(p, Deliver(n))], mid, more, last);
    acts := [At(p, Deliver(n))] + more;
    AnswerAfter(At(p, Deliver(n)), more);
  }

  lemma {:induction false} TimerShared(c: Config, s: State, p: int)
    requires ValidConfig(c) && Tokens(c, s) && p in s.bufs
    ensures Run(c, s, [At(p, TimerFires)], DoTimerFires(s, p)) && Tokens(c, DoTimerFires(s, p))
    ensures SharedOf(DoTimerFires(s, p)) == Dispatcher.Disarmed(SharedOf(s), p)
  {
    QuietStep(c, s, At(p, TimerFires), DoTimerFires(s, p));
  }

  lemma {:induction false} LingerRun(c: Config, s: State, p: int) returns (acts: seq<Action>, last: State)
    requires ValidConfig(c) && Tokens(c, s)
    ensures Run(c, s, acts, last) && Tokens(c, last)
    ensures SharedOf(last)
         == Dispatcher.Flushed(c.batchSize, c.channelCap, Dispatcher.Disarmed(SharedOf(s), p), p).0
    ensures if p !in s.bufs then acts == []
            else |acts| >= 2 && acts[0] == At(p, TimerFires)
                 && AttemptSteps(c, DoTimerFires(s, p), p, Flush, acts[1..])
  {
    if p !in s.bufs {
      return [], s;
    }
    TimerShared(c, s, p);
    var mid, more := DoTimerFires(s, p), [];
    more, last := AttemptRun(c, mid, p, Flush);
    RunJoin(c, s, [At(p, TimerFires)], mid, more, last);
    acts := [At(p, TimerFires)] + more;
  }

  /** The partitions for which tryDispatch was called, in turn. */
  function Attempts(acts: seq<Action>): seq<int> {
    if acts == [] then []
    else
      var a := acts[|acts| - 1];
      Attempts(acts[..|acts| - 1]) + if a.At? && a.e.TryDispatch? then [a.p] else []
  }

  lemma {:induction false} AttemptsJoin(a: seq<Action>, b: seq<Action>)
    ensures Attempts(a + b) == Attempts(a) + Attempts(b)
    decreases |b|
  {
    if b == [] {
      assert a + b == a;
    } else {
      assert (a + b)[..|a + b| - 1] == a + b[..|b| - 1];
      AttemptsJoin(a, b[..|b| - 1]);
    }
  }

  lemma {:induction false} NoAttempts(acts: seq<Action>)
    requires forall k :: 0 <= k < |acts| ==> acts[k].Fly?
    ensures Attempts(acts) == []
    decreases |acts|
  {
    if acts != [] {
      NoAttempts(acts[..|acts| - 1]);
    }
  }

  lemma {:induction false} OneAttempt(acts: seq<Action>, p: int, i: nat, fs: seq<FlightEvent>)
    requires OneGoroutine(acts, p, TryDispatch, i, fs)
    ensures Attempts(acts) == [p]
  {
    assert acts == [At(p, TryDispatch)] + acts[1..];
    assert forall k :: 0 <= k < |acts[1..]| ==> acts[1..][k] == Fly(i, fs[k]);
    AttemptsJoin([At(p, TryDispatch)], acts[1..]);
    NoAttempts(acts[1..]);
    assert [At(p, TryDispatch)][..0] == [];
  }

  /** Attempts make no buffer and remove none. */
  lemma {:induction false} SameKeys(c: Config, s: State, last: State, p: int)
    requires c.batchSize > 0 && ChannelKnown(s) && ChannelKnown(last)
    requires SharedOf(last) == Dispatcher.Tried(c.batchSize, c.channelCap, SharedOf(s), p).0
    ensures last.bufs.Keys == s.bufs.Keys
  {
  }

  lemma {:induction false} FirstAttempt(c: Config, s: State, p: int) returns (acts: seq<Action>, last: State)
    requires ValidConfig(c) && Tokens(c, s)
    ensures Run(c, s, acts, last) && Tokens(c, last) && last.bufs.Keys == s.bufs.Keys
    ensures Dispatcher.Tried(c.batchSize, c.channelCap, SharedOf(s), p) == (SharedOf(last), Answer(acts))
    ensures p in s.bufs ==> Attempts(acts) == [p]
  {
    acts, last := AttemptRun(c, s, p, TryDispatch);
    SameKeys(c, s, last, p);
    if p in s.bufs {
      OneAttempt(acts, p, s.nextFlight, DispatchSteps(c, s, p, TryDispatch));
    }
  }

  lemma {:induction false} MoreAttempts(pending: seq<int>, first: seq<Action>, more: seq<Action>, tried: nat)
    requires pending != [] && tried < |pending|
    ensures Answer(more) != Dispatcher.Accepted ==> Answer(first + more) == Answer(more)
    ensures Attempts(first) == [pending[0]] && Attempts(more) == pending[1..][..tried] ==>
      Attempts(first + more) == pending[..tried + 1]
  {
    AttemptsJoin(first, more);
    assert pending[..tried + 1] == [pending[0]] + pending[1..][..tried];
    assert more != [] ==> (first + more)[|first + more| - 1] == more[|more| - 1];
  }

  /** The loop over the pending partitions: tryDispatch for one after the other, up to the first refusal. */
  lemma {:induction false} DrainRun(c: Config, s: State, pending: seq<int>)
    returns (acts: seq<Action>, last: State, tried: nat)
    requires ValidConfig(c) && Tokens(c, s)
    ensures Run(c, s, acts, last) && Tokens(c, last)
    ensures SharedOf(last) == Dispatcher.Drained(c.batchSize, c.channelCap, SharedOf(s), pending)
    ensures tried <= |pending| && (tried < |pending| ==> Answer(acts) != Dispatcher.Accepted)
    ensures (forall q :: q in pending ==> q in s.bufs) ==> Attempts(acts) == pending[..tried]
    decreases |pending|
  {
    if pending == [] {
      return [], s, 0;
    }
    var first, mid := FirstAttempt(c, s, pending[0]);
    if Answer(first) != Dispatcher.Accepted {
      return first, mid, 1;
    }
    var more;
    more, last, tried := DrainRun(c, mid, pending[1..]);
    RunJoin(c, s, first, mid, more, last);
    MoreAttempts(pending, first, more, tried);
    acts, tried := first + more, tried + 1;
  }

  lemma {:induction false} CompleteShared(c: Config, s: State, i: nat)
    requires ValidConfig(c) && Tokens(c, s) && FlightEnabled(c, s, i, Complete)
    ensures Run(c, s, [Fly(i, Complete)], DoComplete(s, i)) && Tokens(c, DoComplete(s, i))
    ensures SharedOf(DoComplete(s, i)) == SharedOf(s).(
      records := Completed(s.records, s.flights[i].batch.partition, s.flights[i].batch.maxOffset))
  {
    QuietStep(c, s, Fly(i, Complete), DoComplete(s, i));
  }

  lemma SweepFollows(c: Config, s: State, i: nat)
    requires FlightEnabled(c, s, i, Complete)
    ensures FlightEnabled(c, DoComplete(s, i), i, Sweep) && DoComplete(s, i).flights[i].batch == s.flights[i].batch
  {
  }

  lemma {:induction false} SweepShared(c: Config, s: State, i: nat) returns (last: State)
    requires ValidConfig(c) && Tokens(c, s) && FlightEnabled(c, s, i, Sweep)
    ensures Run(c, s, [Fly(i, Sweep)], last) && Tokens(c, last)
    ensures SharedOf(last) == Dispatcher.Released(SharedOf(s), s.flights[i].batch.partition)
  {
    last := Land(s, i, s.bufs[s.flights[i].batch.partition].(inFlight := false));
    forall k | 0 <= k < |s.channel| ensures s.channel[k] != i {
      assert s.flights[s.channel[k]].stage == Queued;
    }
    QuietStep(c, s, Fly(i, Sweep), last);
  }

  lemma {:induction false} CompleteAndSweep(c: Config, s: State, i: nat) returns (acts: seq<Action>, last: State)
    requires ValidConfig(c) && Tokens(c, s) && FlightEnabled(c, s, i, Complete)
    ensures Run(c, s, acts, last) && Tokens(c, last)
    ensures var d, b := SharedOf(s), s.flights[i].batch;
      SharedOf(last)
      == Dispatcher.Released(d.(records := Completed(d.records, b.partition, b.maxOffset)), b.partition)
    ensures |acts| == 2 && acts[0] == Fly(i, Complete) && acts[1] == Fly(i, Sweep)
  {
    var mid := DoComplete(s, i);
    CompleteShared(c, s, i);
    SweepFollows(c, s, i);
    last := SweepShared(c, mid, i);
    acts := [Fly(i, Complete)] + [Fly(i, Sweep)];
    RunJoin(c, s, [Fly(i, Complete)], mid, [Fly(i, Sweep)], last);
  }

  /** A completing end of processBatch: BatchComplete, then onBatchDone. */
  lemma {:induction false} CompletionRun(c: Config, s: State, i: nat, pending: seq<int>)
    returns (acts: seq<Action>, last: State, tried: nat)
    requires ValidConfig(c) && Tokens(c, s) && FlightEnabled(c, s, i, Complete)
    ensures Run(c, s, acts, last) && Tokens(c, last)
    ensures var d, b := SharedOf(s), s.flights[i].batch;
      var done := Dispatcher.Released(d.(records := Completed(d.records, b.partition, b.maxOffset)), b.partition);
      SharedOf(last) == Dispatcher.Drained(c.batchSize, c.channelCap, done, pending)
    ensures |acts| >= 2 && acts[0] == Fly(i, Complete) && acts[1] == Fly(i, Sweep)
    ensures tried <= |pending| && (tried < |pending| ==> Answer(acts[2..]) != Dispatcher.Accepted)
    ensures (forall q :: q in pending ==> q in s.bufs) ==> Attempts(acts[2..]) == pending[..tried]
  {
    var both, mid := CompleteAndSweep(c, s, i);
    assert mid.bufs.Keys == s.bufs.Keys;
    var more;
    more, last, tried := DrainRun(c, mid, pending);
    RunJoin(c, s, both, mid, more, last);
    acts := both + more;
    assert acts[2..] == more;
  }

  lemma {:induction false} CloseRun(c: Config, s: State)
    requires ValidConfig(c) && Tokens(c, s) && !s.closed
    ensures Run(c, s, [Close], DoClose(s)) && Tokens(c, DoClose(s))
    ensures SharedOf(DoClose(s)) == Dispatcher.Closed(SharedOf(s))
  {
    QuietStep(c, s, Close, DoClose(s));
  }

  lemma {:induction false} RevokeShared(c: Config, s: State, p: int)
    requires ValidConfig(c) && Tokens(c, s) && PartEnabled(c, s, p, RevokeClear)
    ensures Run(c, s, [At(p, RevokeClear)], DoRevokeClear(s, p)) && Tokens(c, DoRevokeClear(s, p))
    ensures SharedOf(DoRevokeClear(s, p))
         == SharedOf(s).(bufs := s.bufs[p := s.bufs[p].(messages := [], armed := false)])
  {
    QuietStep(c, s, At(p, RevokeClear), DoRevokeClear(s, p));
  }

  /** The partitions of `ps` are in the given phase, each named once. */
  predicate AllIn(c: Config, s: State, ps: seq<int>, phase: Phase) {
    && (forall k :: 0 <= k < |ps| ==> InPhase(c, s, ps[k], phase))
    && (forall j, k :: 0 <= j < k < |ps| ==> ps[j] != ps[k])
  }

  /** The step `e` for each of `ps` in turn. */
  predicate InTurn(acts: seq<Action>, ps: seq<int>, e: PartEvent) {
    |acts| == |ps| && forall k :: 0 <= k < |ps| ==> acts[k] == At(ps[k], e)
  }

  lemma OneMoreTurn(ps: seq<int>, e: PartEvent, more: seq<Action>)
    requires ps != [] && InTurn(more, ps[1..], e)
    ensures InTurn([At(ps[0], e)] + more, ps, e)
  {
  }

  lemma {:induction false} RevokeRun(c: Config, s: State, ps: seq<int>) returns (acts: seq<Action>, last: State)
    requires ValidConfig(c) && Tokens(c, s) && AllIn(c, s, ps, Assigned)
         && forall k :: 0 <= k < |ps| ==> ps[k] in s.bufs
    ensures Run(c, s, acts, last) && Tokens(c, last)
    ensures SharedOf(last) == Dispatcher.Revoked(SharedOf(s), ps)
    ensures InTurn(acts, ps, RevokeClear)
    decreases |ps|
  {
    if ps == [] {
      assert Dispatcher.Revoked(SharedOf(s), ps).bufs == s.bufs;
      return [], s;
    }
    var p, mid := ps[0], DoRevokeClear(s, ps[0]);
    RevokeShared(c, s, p);
    assert AllIn(c, mid, ps[1..], Assigned);
    var more;
    more, last := RevokeRun(c, mid, ps[1..]);
    RunJoin(c, s, [At(p, RevokeClear)], mid, more, last);
    OneMoreTurn(ps, RevokeClear, more);
    acts := [At(p, RevokeClear)] + more;
    Dispatcher.RevokeFirst(SharedOf(s), ps);
  }

  lemma {:induction false} AssignShared(c: Config, s: State, p: int)
    requires ValidConfig(c) && Tokens(c, s) && PartEnabled(c, s, p, Assign)
    ensures var s' := DoAssign(s, p, ResumeAt(c, s, p));
      && Run(c, s, [At(p, Assign)], s') && Tokens(c, s') && s'.closed == s.closed
      && SharedOf(s') == SharedOf(s).(bufs := if p in s.bufs then s.bufs else s.bufs[p := NewBuf()])
  {
    QuietStep(c, s, At(p, Assign), DoAssign(s, p, ResumeAt(c, s, p)));
  }

  lemma {:induction false} AssignRun(c: Config, s: State, ps: seq<int>) returns (acts: seq<Action>, last: State)
    requires ValidConfig(c) && Tokens(c, s) && !s.closed && AllIn(c, s, ps, Unassigned)
    ensures Run(c, s, acts, last) && Tokens(c, last)
    ensures SharedOf(last) == Dispatcher.AssignedTo(SharedOf(s), ps)
    ensures InTurn(acts, ps, Assign)
    decreases |ps|
  {
    if ps == [] {
      assert Dispatcher.AssignedTo(SharedOf(s), ps).bufs == s.bufs;
      return [], s;
    }
    var p, mid := ps[0], DoAssign(s, ps[0], ResumeAt(c, s, ps[0]));
    AssignShared(c, s, p);
    assert AllIn(c, mid, ps[1..], Unassigned);
    var more;
    more, last := AssignRun(c, mid, ps[1..]);
    RunJoin(c, s, [At(p, Assign)], mid, more, last);
    OneMoreTurn(ps, Assign, more);
    acts := [At(p, Assign)] + more;
    Dispatcher.AssignFirst(SharedOf(s), ps);
  }
}
