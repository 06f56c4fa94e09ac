/**
 * One partition's share of the pipeline state, and what each action does to it. The
 * invariants of the pipeline are stated per partition on these views.
 */
module Views {
  import opened Types
  import opened Offsets
  import opened Buffers
  import opened Pipeline

  /** `read` and `stored` are the partition's entries in the last report and at the broker. */
  datatype View = View(buf: Option<Buf>, rec: Option<Record>, flight: Option<Flight>, t: Trail,
                       read: Option<int>, stored: Option<int>)

  function Entry(m: map<int, int>, p: int): Option<int> {
    if p in m then Some(m[p]) else None
  }

  function ViewOf(s: State, p: int): View
    requires p in s.trail
  {
    View(if p in s.bufs then Some(s.bufs[p]) else None,
         if p in s.records then Some(s.records[p]) else None,
         if p in s.owner && s.owner[p] in s.flights then Some(s.flights[s.owner[p]]) else None,
         s.trail[p], Entry(s.snapshot, p), Entry(s.committed, p))
  }

  function Carrier(s: State, i: nat): int
    requires i in s.flights
  {
    s.flights[i].batch.partition
  }

  /** The record of `p` after BatchComplete. */
  function RecCompleted(rec: Option<Record>): Option<Record> {
    if rec.None? then None else Some(rec.value.(inFlight := false, completed := true))
  }

  function Cut(c: Config, p: int, v: View): View
    requires v.buf.Some? && v.buf.value.messages != [] && c.batchSize > 0
  {
    v.(buf := Some(AfterCut(c.batchSize, v.buf.value)),
       flight := Some(Flight(CutBatch(p, c.batchSize, v.buf.value), Assembled, v.t.gen, v.t.start + |v.t.handled|)))
  }

  /** The index where a new assignment resumes. */
  function Resume(c: Config, p: int, v: View): nat
    requires p in c.logs
  {
    if v.stored.Some? then Seek(c.logs[p], v.stored.value) else 0
  }

  function VAssign(v: View, k: nat): View {
    v.(buf := Some(if v.buf.Some? then v.buf.value else NewBuf()),
       t := Trail(Assigned, v.t.gen + 1, k, k, [], [], [], {}, Fresh, v.t.done))
  }

  function VRevoke(v: View): View
    requires v.buf.Some?
  {
    v.(buf := Some(v.buf.value.(messages := [], armed := false)),
       t := v.t.(phase := Revoking, dropped := v.buf.value.messages))
  }

  function VReset(v: View): View {
    v.(rec := None, t := v.t.(phase := Unassigned))
  }

  function VDeliver(c: Config, p: int, v: View, n: nat): View
    requires p in c.logs && v.t.pos + n <= |c.logs[p]|
  {
    var b := if v.buf.Some? then v.buf.value else NewBuf();
    var ms := c.logs[p][v.t.pos..v.t.pos + n];
    v.(buf := Some(b.(messages := b.messages + ms)),
       t := v.t.(pos := v.t.pos + n, sent := v.t.sent + ms))
  }

  function VDiscard(v: View, n: nat): View {
    v.(t := v.t.(pos := v.t.pos + n))
  }

  function VTry(c: Config, p: int, v: View): View
    requires v.buf.Some? && c.batchSize > 0
  {
    if v.buf.value.inFlight || v.buf.value.messages == [] then v
    else if |v.buf.value.messages| >= c.batchSize then Cut(c, p, v)
    else v.(buf := Some(v.buf.value.(armed := true)))
  }

  function VFlush(c: Config, p: int, v: View): View
    requires v.buf.Some? && c.batchSize > 0
  {
    if v.buf.value.inFlight || v.buf.value.messages == [] then v else Cut(c, p, v)
  }

  function VMove(v: View, stage: Stage): View
    requires v.flight.Some?
  {
    v.(flight := Some(v.flight.value.(stage := stage)))
  }

  function VAnnounce(v: View): View
    requires v.flight.Some?
  {
    v.(flight := Some(v.flight.value.(stage := Announced)),
       rec := Some(Record(v.flight.value.batch.maxOffset, true, false)),
       t := Mark(v.t, v.flight.value, Open))
  }

  function VUndo(v: View): View
    requires v.flight.Some?
  {
    v.(flight := Some(v.flight.value.(stage := Returned)),
       rec := RecCompleted(v.rec),
       t := Mark(v.t, v.flight.value, Undone(|v.flight.value.batch.messages|)))
  }

  ghost function VComplete(v: View): View
    requires v.flight.Some?
  {
    v.(flight := Some(v.flight.value.(stage := Handled)),
       rec := RecCompleted(v.rec),
       t := MarkHandled(v.t, v.flight.value))
  }

  function VDisarm(v: View): View {
    if v.buf.None? then v else v.(buf := Some(v.buf.value.(armed := false)))
  }

  function VLand(v: View, b: Buf): View {
    v.(buf := Some(b), flight := None)
  }

  /** The guard of a partition event, as far as the partition's own view decides it. */
  predicate PartFits(c: Config, p: int, v: View, e: PartEvent)
    requires p in c.logs
  {
    match e
    case Assign => v.t.phase == Unassigned
    case RevokeClear => v.t.phase == Assigned && v.buf.Some?
    case Reset => v.t.phase == Revoking
    case Deliver(n) => v.t.phase == Assigned && v.t.pos + n <= |c.logs[p]|
    case Discard(n) => v.t.phase == Assigned && v.t.pos + n <= |c.logs[p]|
    case _ => v.buf.Some?
  }

  function PartStep(c: Config, p: int, v: View, e: PartEvent): View
    requires p in c.logs && c.batchSize > 0 && PartFits(c, p, v, e)
  {
    match e
    case Assign => VAssign(v, Resume(c, p, v))
    case RevokeClear => VRevoke(v)
    case Reset => VReset(v)
    case Deliver(n) => VDeliver(c, p, v, n)
    case Discard(n) => VDiscard(v, n)
    case TryDispatch => VTry(c, p, v)
    case TimerFires => VDisarm(v)
    case Flush => VFlush(c, p, v)
  }

  predicate FlightFits(v: View, f: FlightEvent) {
    v.buf.Some? && v.flight.Some? && v.flight.value.stage == StageBefore(f)
  }

  ghost function FlightStep(v: View, f: FlightEvent, closed: bool): View
    requires FlightFits(v, f)
  {
    match f
    case CheckClosed => VMove(v, if closed then Stranded else Checked)
    case Announce => VAnnounce(v)
    case Enqueue => VMove(v, Queued)
    case Refuse => VMove(v, Refused)
    case SendClosed => VMove(v, Abandoned)
    case Undo => VUndo(v)
    case PutBack => VLand(v, AfterPutBack(v.flight.value.batch, v.buf.value))
    case Receive => VMove(v, Working)
    case Complete => VComplete(v)
    case Sweep => VLand(v, v.buf.value.(inFlight := false))
    case Abandon => VMove(v, Abandoned)
  }

  // ---- One flight per partition, one record per flight ----

  ghost predicate OwnersMatch(s: State) {
    && (forall p :: p in s.owner ==> s.owner[p] in s.flights && s.flights[s.owner[p]].batch.partition == p)
    && (forall i :: i in s.flights ==>
          i < s.nextFlight && s.flights[i].batch.partition in s.owner
          && s.owner[s.flights[i].batch.partition] == i)
  }

  ghost predicate ChannelMatches(c: Config, s: State) {
    && |s.channel| <= c.channelCap
    && (forall k :: 0 <= k < |s.channel| ==> Known(s, s.channel[k]) && s.flights[s.channel[k]].stage == Queued)
    && (forall j, k :: 0 <= j < k < |s.channel| ==> s.channel[j] != s.channel[k])
    && (forall i :: i in s.flights && s.flights[i].stage == Queued ==> i in s.channel)
  }

  ghost predicate Keyed(c: Config, s: State) {
    && s.trail.Keys == c.logs.Keys
    && s.bufs.Keys <= c.logs.Keys
    && s.records.Keys <= s.bufs.Keys
    && s.owner.Keys <= s.bufs.Keys
    && OwnersMatch(s)
  }

  ghost predicate Structure(c: Config, s: State) {
    Keyed(c, s) && ChannelMatches(c, s)
  }

  predicate BeforeAnnounce(stage: Stage) {
    stage == Assembled || stage == Checked || stage == Stranded
  }

  predicate AfterComplete(stage: Stage) {
    stage == Returned || stage == Handled
  }

  /** The inFlight flag is a token, and the record speaks of the flight that holds it. */
  ghost predicate Token(c: Config, p: int, v: View) {
    && (v.flight.Some? <==> v.buf.Some? && v.buf.value.inFlight)
    && (v.flight.Some? ==> !v.buf.value.armed)
    && (v.flight.Some? ==>
          var b := v.flight.value.batch;
          && b.partition == p
          && 1 <= |b.messages| <= c.batchSize
          && b.maxOffset == b.messages[|b.messages| - 1].offset
          && v.flight.value.gen <= v.t.gen)
    && (v.rec.Some? ==> v.rec.value.completed == !v.rec.value.inFlight)
    && (v.rec.Some? && v.rec.value.inFlight ==>
          && v.flight.Some?
          && !BeforeAnnounce(v.flight.value.stage)
          && !AfterComplete(v.flight.value.stage))
    && (v.rec.Some? && v.flight.Some? && !BeforeAnnounce(v.flight.value.stage) ==>
          && v.rec.value.maxOffset == v.flight.value.batch.maxOffset
          && v.rec.value.completed == AfterComplete(v.flight.value.stage))
  }

  ghost predicate Tokens(c: Config, s: State) {
    && Structure(c, s)
    && forall p :: p in s.trail ==> Token(c, p, ViewOf(s, p))
  }

  lemma InitTokens(c: Config)
    requires ValidConfig(c)
    ensures Tokens(c, Init(c))
  {
  }

  predicate RecordConsistent(s: State, p: int) {
    p in s.records ==> s.records[p].completed == !s.records[p].inFlight
  }

  lemma StageView(s: State, i: nat, stage: Stage, q: int)
    requires OwnersMatch(s) && q in s.trail && i in s.flights
    ensures ViewOf(SetStage(s, i, stage), q)
         == if Carrier(s, i) == q then VMove(ViewOf(s, q), stage) else ViewOf(s, q)
  {
  }

  lemma LaunchView(c: Config, s: State, p: int, q: int)
    requires c.batchSize > 0 && OwnersMatch(s) && q in s.trail && p in s.trail
    requires p in s.bufs && s.bufs[p].messages != [] && p !in s.owner
    ensures ViewOf(Launch(c, s, p), q) == if p == q then Cut(c, p, ViewOf(s, q)) else ViewOf(s, q)
  {
  }

  lemma LandView(s: State, i: nat, b: Buf, q: int)
    requires OwnersMatch(s) && q in s.trail && i in s.flights
    ensures ViewOf(Land(s, i, b), q) == if Carrier(s, i) == q then VLand(ViewOf(s, q), b) else ViewOf(s, q)
  {
  }

  lemma AnnounceView(s: State, i: nat, q: int)
    requires OwnersMatch(s) && q in s.trail && i in s.flights && Carrier(s, i) in s.trail
    ensures ViewOf(DoAnnounce(s, i), q) == if Carrier(s, i) == q then VAnnounce(ViewOf(s, q)) else ViewOf(s, q)
  {
  }

  lemma UndoView(s: State, i: nat, q: int)
    requires OwnersMatch(s) && q in s.trail && i in s.flights && Carrier(s, i) in s.trail
    requires CanComplete(s.records, Carrier(s, i), s.flights[i].batch.maxOffset)
    requires RecordConsistent(s, Carrier(s, i))
    ensures ViewOf(DoUndo(s, i), q) == if Carrier(s, i) == q then VUndo(ViewOf(s, q)) else ViewOf(s, q)
  {
  }

  lemma CompleteView(s: State, i: nat, q: int)
    requires OwnersMatch(s) && q in s.trail && i in s.flights && Carrier(s, i) in s.trail
    requires CanComplete(s.records, Carrier(s, i), s.flights[i].batch.maxOffset)
    requires RecordConsistent(s, Carrier(s, i))
    ensures ViewOf(DoComplete(s, i), q) == if Carrier(s, i) == q then VComplete(ViewOf(s, q)) else ViewOf(s, q)
  {
  }

  lemma ReceiveView(s: State, q: int)
    requires OwnersMatch(s) && q in s.trail && s.channel != [] && s.channel[0] in s.flights
    ensures ViewOf(DoReceive(s), q)
         == if Carrier(s, s.channel[0]) == q then VMove(ViewOf(s, q), Working) else ViewOf(s, q)
  {
  }

  lemma EnqueueView(s: State, i: nat, q: int)
    requires OwnersMatch(s) && q in s.trail && i in s.flights
    ensures ViewOf(DoEnqueue(s, i), q) == if Carrier(s, i) == q then VMove(ViewOf(s, q), Queued) else ViewOf(s, q)
  {
  }

  lemma AssignView(s: State, p: int, k: nat, q: int)
    requires p in s.trail && q in s.trail
    ensures ViewOf(DoAssign(s, p, k), q) == if p == q then VAssign(ViewOf(s, q), k) else ViewOf(s, q)
  {
  }

  lemma RevokeView(s: State, p: int, q: int)
    requires p in s.trail && p in s.bufs && q in s.trail
    ensures ViewOf(DoRevokeClear(s, p), q) == if p == q then VRevoke(ViewOf(s, q)) else ViewOf(s, q)
  {
  }

  lemma DeliverView(c: Config, s: State, p: int, n: nat, q: int)
    requires p in s.trail && p in c.logs && s.trail[p].pos + n <= |c.logs[p]| && q in s.trail
    ensures ViewOf(DoDeliver(c, s, p, n), q) == if p == q then VDeliver(c, p, ViewOf(s, q), n) else ViewOf(s, q)
  {
  }

  lemma ResetView(s: State, p: int, q: int)
    requires p in s.trail && q in s.trail
    ensures ViewOf(DoReset(s, p), q) == if p == q then VReset(ViewOf(s, q)) else ViewOf(s, q)
  {
  }

  lemma DiscardView(s: State, p: int, n: nat, q: int)
    requires p in s.trail && q in s.trail
    ensures ViewOf(DoDiscard(s, p, n), q) == if p == q then VDiscard(ViewOf(s, q), n) else ViewOf(s, q)
  {
  }

  lemma TimerView(s: State, p: int, q: int)
    requires p in s.bufs && q in s.trail
    ensures ViewOf(DoTimerFires(s, p), q) == if p == q then VDisarm(ViewOf(s, q)) else ViewOf(s, q)
  {
  }

  lemma {:induction false} TryView(c: Config, s: State, p: int, q: int)
    requires c.batchSize > 0 && OwnersMatch(s) && p in s.bufs && p in s.trail && q in s.trail
    requires !s.bufs[p].inFlight ==> p !in s.owner
    ensures ViewOf(DoTryDispatch(c, s, p), q) == if p == q then VTry(c, p, ViewOf(s, q)) else ViewOf(s, q)
    ensures ViewOf(DoFlush(c, s, p), q) == if p == q then VFlush(c, p, ViewOf(s, q)) else ViewOf(s, q)
  {
    if !s.bufs[p].inFlight && s.bufs[p].messages != [] {
      LaunchView(c, s, p, q);
    }
  }

  lemma {:induction false} PartView(c: Config, s: State, p: int, e: PartEvent, q: int)
    requires ValidConfig(c) && Keyed(c, s) && PartEnabled(c, s, p, e) && q in s.trail
    requires Token(c, p, ViewOf(s, p))
    ensures PartFits(c, p, ViewOf(s, p), e) && q in ApplyPart(c, s, p, e).trail
    ensures ViewOf(ApplyPart(c, s, p, e), q)
         == if p == q then PartStep(c, p, ViewOf(s, p), e) else ViewOf(s, q)
  {
    match e {
      case Assign => AssignView(s, p, ResumeAt(c, s, p), q);
      case RevokeClear => RevokeView(s, p, q);
      case Reset => ResetView(s, p, q);
      case Deliver(n) => DeliverView(c, s, p, n, q);
      case Discard(n) => DiscardView(s, p, n, q);
      case TryDispatch => TryView(c, s, p, q);
      case TimerFires => TimerView(s, p, q);
      case Flush => TryView(c, s, p, q);
    }
  }

  lemma {:induction false} FlightView(c: Config, s: State, i: nat, f: FlightEvent, q: int)
    requires ValidConfig(c) && Keyed(c, s) && FlightEnabled(c, s, i, f) && q in s.trail
    requires Token(c, Carrier(s, i), ViewOf(s, Carrier(s, i))) && !Panics(s, i, f)
    ensures FlightFits(ViewOf(s, Carrier(s, i)), f) && q in ApplyFlight(s, i, f).trail
    ensures ViewOf(ApplyFlight(s, i, f), q)
         == if Carrier(s, i) == q then FlightStep(ViewOf(s, q), f, s.closed) else ViewOf(s, q)
  {
    var b := s.bufs[Carrier(s, i)];
    match f {
      case CheckClosed => StageView(s, i, if s.closed then Stranded else Checked, q);
      case Announce => AnnounceView(s, i, q);
      case Enqueue => EnqueueView(s, i, q);
      case Refuse => StageView(s, i, Refused, q);
      case SendClosed => StageView(s, i, Abandoned, q);
      case Undo => UndoView(s, i, q);
      case PutBack => LandView(s, i, AfterPutBack(s.flights[i].batch, b), q);
      case Receive => ReceiveView(s, q);
      case Complete => CompleteView(s, i, q);
      case Sweep => LandView(s, i, b.(inFlight := false), q);
      case Abandon => StageView(s, i, Abandoned, q);
    }
  }

  lemma CloseView(s: State, q: int)
    requires q in s.trail
    ensures ViewOf(DoClose(s), q) == VDisarm(ViewOf(s, q))
  {
  }

  /** Neither coordinator panic is reachable in one step. */
  lemma NoPanicHere(c: Config, s: State, i: nat, f: FlightEvent)
    requires Keyed(c, s) && FlightEnabled(c, s, i, f) && Token(c, Carrier(s, i), ViewOf(s, Carrier(s, i)))
    ensures !Panics(s, i, f)
  {
  }

  lemma TokenPart(c: Config, p: int, v: View, e: PartEvent)
    requires p in c.logs && c.batchSize > 0 && Token(c, p, v) && PartFits(c, p, v, e)
    ensures Token(c, p, PartStep(c, p, v, e))
  {
  }

  lemma TokenFlight(c: Config, p: int, v: View, f: FlightEvent, closed: bool)
    requires Token(c, p, v) && FlightFits(v, f)
    ensures Token(c, p, FlightStep(v, f, closed))
  {
  }

  lemma LaunchStructure(c: Config, s: State, p: int)
    requires Structure(c, s) && c.batchSize > 0 && p in s.trail
    requires p in s.bufs && s.bufs[p].messages != [] && p !in s.owner
    ensures Structure(c, Launch(c, s, p))
  {
  }

  lemma StageStructure(c: Config, s: State, i: nat, stage: Stage)
    requires Structure(c, s) && Known(s, i) && s.flights[i].stage != Queued && stage != Queued
    ensures Structure(c, SetStage(s, i, stage))
  {
  }

  lemma LandStructure(c: Config, s: State, i: nat, b: Buf)
    requires Structure(c, s) && Known(s, i) && s.flights[i].stage != Queued
    ensures Structure(c, Land(s, i, b))
  {
  }

  lemma EnqueueStructure(c: Config, s: State, i: nat)
    requires Structure(c, s) && Known(s, i) && s.flights[i].stage != Queued && |s.channel| < c.channelCap
    ensures Structure(c, DoEnqueue(s, i))
  {
  }

  lemma ReceiveStructure(c: Config, s: State)
    requires Structure(c, s) && s.channel != []
    ensures Structure(c, DoReceive(s))
  {
  }

  /** Changes of buffers, records and trails alone do not disturb owners and channel. */
  lemma SameFlights(c: Config, s: State, s': State)
    requires Structure(c, s)
    requires s'.trail.Keys == s.trail.Keys && s.bufs.Keys <= s'.bufs.Keys <= c.logs.Keys
    requires s'.records.Keys <= s'.bufs.Keys
    requires s'.flights == s.flights && s'.owner == s.owner && s'.channel == s.channel && s'.nextFlight == s.nextFlight
    ensures Structure(c, s')
  {
  }

  lemma {:induction false} RebalanceStructure(c: Config, s: State, p: int, e: PartEvent)
    requires c.batchSize > 0 && Structure(c, s) && PartEnabled(c, s, p, e)
    requires e.Assign? || e.RevokeClear? || e.Reset? || e.Deliver? || e.Discard?
    ensures Structure(c, ApplyPart(c, s, p, e))
  {
    SameFlights(c, s, ApplyPart(c, s, p, e));
  }

  lemma {:induction false} PartStructure(c: Config, s: State, p: int, e: PartEvent)
    requires c.batchSize > 0 && Structure(c, s) && PartEnabled(c, s, p, e) && Token(c, p, ViewOf(s, p))
    ensures Structure(c, ApplyPart(c, s, p, e))
  {
    match e {
      case TryDispatch =>
        if !s.bufs[p].inFlight && |s.bufs[p].messages| >= c.batchSize {
          LaunchStructure(c, s, p);
        } else {
          SameFlights(c, s, DoTryDispatch(c, s, p));
        }
      case Flush =>
        if !s.bufs[p].inFlight && s.bufs[p].messages != [] {
          LaunchStructure(c, s, p);
        }
      case TimerFires => SameFlights(c, s, DoTimerFires(s, p));
      case _ => RebalanceStructure(c, s, p, e);
    }
  }

  /** A record and a trail entry are rewritten, and the flight moves on. */
  lemma {:induction false} RecordStructure(c: Config, s: State, i: nat, stage: Stage, s': State)
    requires Structure(c, s) && Known(s, i) && s.flights[i].stage != Queued && stage != Queued
    requires s' == SetStage(s, i, stage).(records := s'.records, trail := s'.trail)
    requires s'.records.Keys <= s.bufs.Keys && s'.trail.Keys == s.trail.Keys
    ensures Structure(c, s')
  {
    StageStructure(c, s, i, stage);
    SameFlights(c, SetStage(s, i, stage), s');
  }

  lemma {:induction false} MoveStructure(c: Config, s: State, i: nat, f: FlightEvent)
    requires Structure(c, s) && FlightEnabled(c, s, i, f)
    requires f.CheckClosed? || f.Refuse? || f.SendClosed? || f.Abandon?
    ensures Structure(c, ApplyFlight(s, i, f))
  {
    var stage := if f.Refuse? then Refused
                 else if !f.CheckClosed? then Abandoned else if s.closed then Stranded else Checked;
    StageStructure(c, s, i, stage);
  }

  lemma {:induction false} RecordMoveStructure(c: Config, s: State, i: nat, f: FlightEvent)
    requires Structure(c, s) && FlightEnabled(c, s, i, f) && (f.Announce? || f.Undo? || f.Complete?)
    ensures Structure(c, ApplyFlight(s, i, f))
  {
    match f {
      case Announce => RecordStructure(c, s, i, Announced, DoAnnounce(s, i));
      case Undo => RecordStructure(c, s, i, Returned, DoUndo(s, i));
      case Complete => RecordStructure(c, s, i, Handled, DoComplete(s, i));
    }
  }

  lemma {:induction false} FlightStructure(c: Config, s: State, i: nat, f: FlightEvent)
    requires Structure(c, s) && FlightEnabled(c, s, i, f)
    ensures Structure(c, ApplyFlight(s, i, f))
  {
    var b := s.bufs[Carrier(s, i)];
    match f {
      case Enqueue => EnqueueStructure(c, s, i);
      case Receive => ReceiveStructure(c, s);
      case PutBack => LandStructure(c, s, i, AfterPutBack(s.flights[i].batch, b));
      case Sweep => LandStructure(c, s, i, b.(inFlight := false));
      case Announce => RecordMoveStructure(c, s, i, f);
      case Undo => RecordMoveStructure(c, s, i, f);
      case Complete => RecordMoveStructure(c, s, i, f);
      case _ => MoveStructure(c, s, i, f);
    }
  }

  lemma {:induction false} PartTokens(c: Config, s: State, p: int, e: PartEvent)
    requires ValidConfig(c) && Tokens(c, s) && PartEnabled(c, s, p, e)
    ensures Tokens(c, ApplyPart(c, s, p, e))
  {
    var s' := ApplyPart(c, s, p, e);
    PartStructure(c, s, p, e);
    forall q | q in s'.trail ensures Token(c, q, ViewOf(s', q)) {
      PartView(c, s, p, e, q);
      if p == q {
        TokenPart(c, p, ViewOf(s, p), e);
      }
    }
  }

  lemma {:induction false} FlightTokens(c: Config, s: State, i: nat, f: FlightEvent)
    requires ValidConfig(c) && Tokens(c, s) && FlightEnabled(c, s, i, f)
    ensures Tokens(c, ApplyFlight(s, i, f))
  {
    var s' := ApplyFlight(s, i, f);
    NoPanicHere(c, s, i, f);
    FlightStructure(c, s, i, f);
    forall q | q in s'.trail ensures Token(c, q, ViewOf(s', q)) {
      FlightView(c, s, i, f, q);
      if Carrier(s, i) == q {
        TokenFlight(c, q, ViewOf(s, q), f, s.closed);
      }
    }
  }

  lemma {:induction false} CloseTokens(c: Config, s: State)
    requires Tokens(c, s)
    ensures Tokens(c, DoClose(s))
  {
    SameFlights(c, s, DoClose(s));
    forall q | q in s.trail ensures Token(c, q, ViewOf(DoClose(s), q)) {
      CloseView(s, q);
    }
  }

  /** Reports and commits move no flight and touch no buffer, record or trail. */
  lemma OffsetsOnly(c: Config, s: State, s': State)
    requires s' == s.(snapshot := s'.snapshot, committed := s'.committed)
    ensures forall q :: q in s.trail ==>
      ViewOf(s', q) == ViewOf(s, q).(read := Entry(s'.snapshot, q), stored := Entry(s'.committed, q))
    ensures Structure(c, s) ==> Structure(c, s')
  {
  }

  lemma {:induction false} TokensStep(c: Config, s: State, a: Action)
    requires ValidConfig(c) && Tokens(c, s) && Enabled(c, s, a)
    ensures Tokens(c, Apply(c, s, a))
  {
    match a {
      case At(p, e) => PartTokens(c, s, p, e);
      case Fly(i, f) => FlightTokens(c, s, i, f);
      case Close => CloseTokens(c, s);
      case Snapshot => OffsetsOnly(c, s, Apply(c, s, a));
      case Commit(_) => OffsetsOnly(c, s, Apply(c, s, a));
    }
  }

  // ---- What an action is for one partition ----

  datatype Local =
    | Part(e: PartEvent)
    | Carry(f: FlightEvent, closed: bool)
    | Disarm
    | Read
    | Store
    | Aside

  function SeenBy(s: State, a: Action, p: int): Local {
    match a
    case At(q, e) => if q == p then Part(e) else Aside
    case Fly(i, f) => if i in s.flights && Carrier(s, i) == p then Carry(f, s.closed) else Aside
    case Close => Disarm
    case Snapshot => Read
    case Commit(ps) => if p in ps then Store else Aside
  }

  predicate LocalFits(c: Config, p: int, v: View, l: Local)
    requires p in c.logs
  {
    match l
    case Part(e) => PartFits(c, p, v, e)
    case Carry(f, _) => FlightFits(v, f)
    case Store => v.read.Some?
    case _ => true
  }

  function Reported(rec: Option<Record>): Option<int> {
    if rec.Some? && rec.value.completed then Some(rec.value.maxOffset + 1) else None
  }

  ghost function LocalStep(c: Config, p: int, v: View, l: Local): View
    requires p in c.logs && c.batchSize > 0 && LocalFits(c, p, v, l)
  {
    match l
    case Part(e) => PartStep(c, p, v, e)
    case Carry(f, closed) => FlightStep(v, f, closed)
    case Disarm => VDisarm(v)
    case Read => v.(read := Reported(v.rec))
    case Store => v.(stored := v.read)
    case Aside => v
  }

  /** The pipeline, seen from one partition, is a machine of its own. */
  lemma {:induction false} StepView(c: Config, s: State, a: Action, p: int)
    requires ValidConfig(c) && Tokens(c, s) && Enabled(c, s, a) && p in s.trail
    ensures p in c.logs && p in Apply(c, s, a).trail && LocalFits(c, p, ViewOf(s, p), SeenBy(s, a, p))
    ensures ViewOf(Apply(c, s, a), p) == LocalStep(c, p, ViewOf(s, p), SeenBy(s, a, p))
  {
    match a {
      case At(q, e) => PartView(c, s, q, e, p);
      case Fly(i, f) =>
        NoPanicHere(c, s, i, f);
        FlightView(c, s, i, f, p);
      case Close => CloseView(s, p);
      case Snapshot => OffsetsOnly(c, s, Apply(c, s, a));
      case Commit(_) => OffsetsOnly(c, s, Apply(c, s, a));
    }
  }
}
