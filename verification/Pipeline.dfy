/**
 * The delivery pipeline as a transition system.
 *
 * Every step is one critical section (or one channel operation) of Send, a rebalance
 * callback, a commit, a linger timer or a worker, and a run is any sequence of steps whose
 * guards hold. Who makes the steps is not recorded, so runs include interleavings that no
 * goroutine of the code could produce; module Schedule says which ones it can. A batch that
 * has been cut from a buffer is a "flight"; its stage says how far the goroutine that
 * carries it has got. Workers and timers are not counted: any number of flights may be at
 * any stage.
 */
module Pipeline {
  import opened Types
  import opened Offsets
  import opened Buffers

  /**
   * `logs` is what the broker holds: for each partition, the messages at or above the
   * group's first position, in ascending offset order.
   */
  datatype Config = Config(batchSize: nat, channelCap: nat, logs: map<int, seq<Message>>)

  ghost predicate ValidConfig(c: Config) {
    && c.batchSize > 0
    && c.channelCap > 0
    && forall p :: p in c.logs ==> Ascending(c.logs[p])
  }

  datatype Stage =
    | Assembled   // cut under mu, inFlight set
    | Checked     // the closed check of dispatchBatch passed
    | Announced   // BatchDispatched was called
    | Refused     // the channel was full
    | Returned    // the undo called BatchComplete
    | Queued      // in the channel
    | Working     // at a worker
    | Handled     // processBatch called BatchComplete
    | Abandoned   // the worker panicked or left because of cancellation
    | Stranded    // the closed check failed: nobody carries the batch on

  /** `gen` and `at` are history: the assignment it was cut in and its index in the log. */
  datatype Flight = Flight(batch: Batch, stage: Stage, gen: nat, at: nat)

  datatype Phase = Assigned | Revoking | Unassigned

  /** History: what became of the partition's latest BatchDispatched in this assignment. */
  datatype Fate = Fresh | Open | Finished | Undone(len: nat)

  /**
   * History of one partition. In the current assignment the log was polled from index
   * `start` up to `pos`; `sent` is what was handed to Send, `handled` and `acked` the
   * messages and offsets that reached a completing end, `dropped` what a revocation
   * cleared from the buffer. `done` collects the offsets handled since the run began.
   */
  datatype Trail = Trail(phase: Phase, gen: nat, start: nat, pos: nat, sent: seq<Message>,
                         handled: seq<Message>, dropped: seq<Message>,
                         acked: set<int>, fate: Fate, done: set<int>)

  datatype State = State(
    bufs: map<int, Buf>,          // dispatcher.partitions
    closed: bool,                 // dispatcher.closed
    channel: seq<nat>,            // dispatcher.batchCh, as flight numbers
    records: Records,             // coordinator.partitions
    snapshot: map<int, int>,      // offsets the poll loop last read from the coordinator
    committed: map<int, int>,     // offsets the broker stores for the group
    flights: map<nat, Flight>,
    nextFlight: nat,
    owner: map<int, nat>,         // history: the flight that set a partition's inFlight flag
    trail: map<int, Trail>)

  function Init(c: Config): State {
    State(map[], false, [], map[], map[], map[], map[], 0, map[],
          map p | p in c.logs :: Trail(Unassigned, 0, 0, 0, [], [], [], {}, Fresh, {}))
  }

  /** Steps that work on one partition's buffer or assignment. */
  datatype PartEvent =
    | Assign                 // OnPartitionsAssigned
    | RevokeClear            // dispatcher part of OnPartitionsRevoked
    | Reset                  // coordinator part of OnPartitionsRevoked
    | Deliver(n: nat)        // Poll returned n messages and Send buffered them
    | Discard(n: nat)        // Poll returned n messages and the poll loop dropped them
    | TryDispatch            // critical section of tryDispatch
    | TimerFires             // first critical section of the linger callback
    | Flush                  // critical section of flushPartition

  /** Steps of the goroutine that carries a batch. */
  datatype FlightEvent =
    | CheckClosed            // dispatchBatch, step by step
    | Announce
    | Enqueue
    | Refuse
    | Undo
    | PutBack
    | SendClosed             // the channel send panics: the channel is closed
    | Receive                // a worker takes the oldest queued batch
    | Complete               // a completing end of processBatch
    | Sweep                  // critical section of onBatchDone
    | Abandon                // panic or cancellation

  datatype Action =
    | At(p: int, e: PartEvent)
    | Fly(i: nat, f: FlightEvent)
    | Close                       // dispatcher.Close
    | Snapshot                    // Committable
    | Commit(ps: set<int>)        // a successful CommitOffsets of part of the snapshot

  predicate InPhase(c: Config, s: State, p: int, phase: Phase) {
    p in c.logs && p in s.trail && s.trail[p].phase == phase
  }

  predicate Remaining(c: Config, s: State, p: int, n: nat)
    requires p in c.logs && p in s.trail
  {
    0 < n && s.trail[p].pos + n <= |c.logs[p]|
  }

  predicate PartEnabled(c: Config, s: State, p: int, e: PartEvent) {
    match e
    case Assign => InPhase(c, s, p, Unassigned) && !s.closed
    case RevokeClear => InPhase(c, s, p, Assigned) && p in s.bufs
    case Reset => InPhase(c, s, p, Revoking)
    case Deliver(n) => InPhase(c, s, p, Assigned) && !s.closed && Remaining(c, s, p, n)
    case Discard(n) => InPhase(c, s, p, Assigned) && Remaining(c, s, p, n)
    case _ => p in s.bufs && p in s.trail && p in c.logs
  }

  predicate Known(s: State, i: nat) {
    i in s.flights && s.flights[i].batch.partition in s.trail && s.flights[i].batch.partition in s.bufs
  }

  function StageBefore(f: FlightEvent): Stage {
    match f
    case CheckClosed => Assembled
    case Announce => Checked
    case Enqueue => Announced
    case Refuse => Announced
    case SendClosed => Announced
    case Undo => Refused
    case PutBack => Returned
    case Receive => Queued
    case Complete => Working
    case Sweep => Handled
    case Abandon => Working
  }

  predicate FlightEnabled(c: Config, s: State, i: nat, f: FlightEvent) {
    && Known(s, i)
    && s.flights[i].stage == StageBefore(f)
    && (f.Enqueue? ==> !s.closed && |s.channel| < c.channelCap)
    && (f.Refuse? ==> !s.closed && |s.channel| >= c.channelCap)
    && (f.SendClosed? ==> s.closed)
    && (f.Receive? ==> s.channel != [] && s.channel[0] == i)
  }

  predicate Enabled(c: Config, s: State, a: Action) {
    match a
    case At(p, e) => PartEnabled(c, s, p, e)
    case Fly(i, f) => FlightEnabled(c, s, i, f)
    case Close => !s.closed
    case Snapshot => true
    case Commit(ps) => ps <= s.snapshot.Keys
  }

  /** The two panics of the coordinator. */
  predicate Panics(s: State, i: nat, f: FlightEvent)
    requires i in s.flights
  {
    var b := s.flights[i].batch;
    || (f.Announce? && !CanDispatch(s.records, b.partition))
    || ((f.Undo? || f.Complete?) && !CanComplete(s.records, b.partition, b.maxOffset))
  }

  /** The first index whose offset is at least `offset`: where a consumer resumes. */
  function Seek(log: seq<Message>, offset: int): (k: nat)
    ensures k <= |log|
    ensures forall j :: 0 <= j < k ==> log[j].offset < offset
    ensures k < |log| ==> log[k].offset >= offset
  {
    if log == [] || log[0].offset >= offset then 0 else 1 + Seek(log[1..], offset)
  }

  function ResumeAt(c: Config, s: State, p: int): nat
    requires p in c.logs
  {
    if p in s.committed then Seek(c.logs[p], s.committed[p]) else 0
  }

  /** tryDispatch and flushPartition: cut a batch and mark the partition in flight. */
  function Launch(c: Config, s: State, p: int): State
    requires p in s.bufs && s.bufs[p].messages != [] && c.batchSize > 0 && p in s.trail
  {
    var t := s.trail[p];
    var f := Flight(CutBatch(p, c.batchSize, s.bufs[p]), Assembled, t.gen, t.start + |t.handled|);
    s.(bufs := s.bufs[p := AfterCut(c.batchSize, s.bufs[p])],
       flights := s.flights[s.nextFlight := f],
       nextFlight := s.nextFlight + 1,
       owner := s.owner[p := s.nextFlight])
  }

  function SetStage(s: State, i: nat, stage: Stage): State
    requires i in s.flights
  {
    s.(flights := s.flights[i := s.flights[i].(stage := stage)])
  }

  /** The partition is no longer in flight and the carrying goroutine has let go. */
  function Land(s: State, i: nat, b: Buf): State
    requires i in s.flights
  {
    var p := s.flights[i].batch.partition;
    s.(bufs := s.bufs[p := b], flights := s.flights - {i}, owner := s.owner - {p})
  }

  function Mark(t: Trail, f: Flight, fate: Fate): Trail {
    if f.gen == t.gen then t.(fate := fate) else t
  }

  ghost function MarkHandled(t: Trail, f: Flight): Trail {
    var t' := t.(done := t.done + OffsetsOf(f.batch.messages));
    if f.gen != t.gen then t'
    else t'.(handled := t.handled + f.batch.messages,
             acked := t.acked + OffsetsOf(f.batch.messages),
             fate := Finished)
  }

  function DoAssign(s: State, p: int, k: nat): State
    requires p in s.trail
  {
    s.(bufs := if p in s.bufs then s.bufs else s.bufs[p := NewBuf()],
       trail := s.trail[p := Trail(Assigned, s.trail[p].gen + 1, k, k, [], [], [], {}, Fresh, s.trail[p].done)])
  }

  function DoRevokeClear(s: State, p: int): State
    requires p in s.bufs && p in s.trail
  {
    s.(bufs := s.bufs[p := s.bufs[p].(messages := [], armed := false)],
       trail := s.trail[p := s.trail[p].(phase := Revoking, dropped := s.bufs[p].messages)])
  }

  function DoReset(s: State, p: int): State
    requires p in s.trail
  {
    s.(records := s.records - {p}, trail := s.trail[p := s.trail[p].(phase := Unassigned)])
  }

  function DoDeliver(c: Config, s: State, p: int, n: nat): State
    requires p in s.trail && p in c.logs && s.trail[p].pos + n <= |c.logs[p]|
  {
    var t := s.trail[p];
    var b := if p in s.bufs then s.bufs[p] else NewBuf();
    var ms := c.logs[p][t.pos..t.pos + n];
    s.(bufs := s.bufs[p := b.(messages := b.messages + ms)],
       trail := s.trail[p := t.(pos := t.pos + n, sent := t.sent + ms)])
  }

  function DoDiscard(s: State, p: int, n: nat): State
    requires p in s.trail
  {
    s.(trail := s.trail[p := s.trail[p].(pos := s.trail[p].pos + n)])
  }

  function DoTryDispatch(c: Config, s: State, p: int): State
    requires p in s.bufs && c.batchSize > 0 && p in s.trail
  {
    var b := s.bufs[p];
    if b.inFlight || b.messages == [] then s
    else if |b.messages| >= c.batchSize then Launch(c, s, p)
    else s.(bufs := s.bufs[p := b.(armed := true)])
  }

  function DoTimerFires(s: State, p: int): State
    requires p in s.bufs
  {
    s.(bufs := s.bufs[p := s.bufs[p].(armed := false)])
  }

  function DoFlush(c: Config, s: State, p: int): State
    requires p in s.bufs && c.batchSize > 0 && p in s.trail
  {
    if s.bufs[p].inFlight || s.bufs[p].messages == [] then s else Launch(c, s, p)
  }

  function DoAnnounce(s: State, i: nat): State
    requires i in s.flights && s.flights[i].batch.partition in s.trail
  {
    var f := s.flights[i];
    var p := f.batch.partition;
    s.(flights := s.flights[i := f.(stage := Announced)],
       records := Dispatched(s.records, p, f.batch.maxOffset),
       trail := s.trail[p := Mark(s.trail[p], f, Open)])
  }

  function DoEnqueue(s: State, i: nat): State
    requires i in s.flights
  {
    s.(flights := s.flights[i := s.flights[i].(stage := Queued)], channel := s.channel + [i])
  }

  function DoUndo(s: State, i: nat): State
    requires i in s.flights && s.flights[i].batch.partition in s.trail
  {
    var f := s.flights[i];
    var p := f.batch.partition;
    s.(flights := s.flights[i := f.(stage := Returned)],
       records := Completed(s.records, p, f.batch.maxOffset),
       trail := s.trail[p := Mark(s.trail[p], f, Undone(|f.batch.messages|))])
  }

  function DoReceive(s: State): State
    requires s.channel != [] && s.channel[0] in s.flights
  {
    s.(flights := s.flights[s.channel[0] := s.flights[s.channel[0]].(stage := Working)],
       channel := s.channel[1..])
  }

  ghost function DoComplete(s: State, i: nat): State
    requires i in s.flights && s.flights[i].batch.partition in s.trail
  {
    var f := s.flights[i];
    var p := f.batch.partition;
    s.(flights := s.flights[i := f.(stage := Handled)],
       records := Completed(s.records, p, f.batch.maxOffset),
       trail := s.trail[p := MarkHandled(s.trail[p], f)])
  }

  function DoClose(s: State): State {
    s.(closed := true, bufs := map p | p in s.bufs :: s.bufs[p].(armed := false))
  }

  function DoCommit(s: State, ps: set<int>): State
    requires ps <= s.snapshot.Keys
  {
    s.(committed := map p | p in s.committed.Keys + ps :: if p in ps then s.snapshot[p] else s.committed[p])
  }

  function ApplyPart(c: Config, s: State, p: int, e: PartEvent): State
    requires c.batchSize > 0 && PartEnabled(c, s, p, e)
  {
    match e
    case Assign => DoAssign(s, p, ResumeAt(c, s, p))
    case RevokeClear => DoRevokeClear(s, p)
    case Reset => DoReset(s, p)
    case Deliver(n) => DoDeliver(c, s, p, n)
    case Discard(n) => DoDiscard(s, p, n)
    case TryDispatch => DoTryDispatch(c, s, p)
    case TimerFires => DoTimerFires(s, p)
    case Flush => DoFlush(c, s, p)
  }

  ghost function ApplyFlight(s: State, i: nat, f: FlightEvent): State
    requires Known(s, i) && (f.Receive? ==> s.channel != [] && s.channel[0] == i)
  {
    var b := s.bufs[s.flights[i].batch.partition];
    match f
    case CheckClosed => SetStage(s, i, if s.closed then Stranded else Checked)
    case Announce => DoAnnounce(s, i)
    case Enqueue => DoEnqueue(s, i)
    case Refuse => SetStage(s, i, Refused)
    case SendClosed => SetStage(s, i, Abandoned)
    case Undo => DoUndo(s, i)
    case PutBack => Land(s, i, AfterPutBack(s.flights[i].batch, b))
    case Receive => DoReceive(s)
    case Complete => DoComplete(s, i)
    case Sweep => Land(s, i, b.(inFlight := false))
    case Abandon => SetStage(s, i, Abandoned)
  }

  ghost function Apply(c: Config, s: State, a: Action): State
    requires ValidConfig(c) && Enabled(c, s, a)
  {
    match a
    case At(p, e) => ApplyPart(c, s, p, e)
    case Fly(i, f) => ApplyFlight(s, i, f)
    case Close => DoClose(s)
    case Snapshot => s.(snapshot := Committable(s.records))
    case Commit(ps) => DoCommit(s, ps)
  }

  /** `acts` leads from `s` to `last`. */
  ghost predicate Run(c: Config, s: State, acts: seq<Action>, last: State)
    requires ValidConfig(c)
    decreases |acts|
  {
    if acts == [] then s == last
    else Enabled(c, s, acts[0]) && Run(c, Apply(c, s, acts[0]), acts[1..], last)
  }
}
