/**
 * The books of one partition: every message sent in this assignment is handled, in
 * flight, buffered or dropped, in order; and an offset is only offered for commit when
 * everything below it was handled. All invariants are about one partition's view and are
 * proved step by step for whatever that partition sees of an action.
 */
module Ledger {
  import opened Types
  import opened Buffers
  import opened Pipeline
  import opened Views

  /** The flight was cut in the current assignment. */
  predicate IsCurrent(v: View) {
    v.flight.Some? && v.flight.value.gen == v.t.gen
  }

  function Live(v: View): seq<Message> {
    if IsCurrent(v) && v.flight.value.stage != Handled then v.flight.value.batch.messages else []
  }

  function Buffered(v: View): seq<Message> {
    if v.buf.Some? then v.buf.value.messages else []
  }

  /** Sent in this assignment and not handled, in order. */
  function Rest(v: View): seq<Message> {
    Live(v) + Buffered(v) + v.t.dropped
  }

  predicate InUndo(v: View) {
    v.flight.Some? && (v.flight.value.stage == Refused || v.flight.value.stage == Returned)
  }

  /** Announced and not yet completed. */
  predicate Outstanding(stage: Stage) {
    !BeforeAnnounce(stage) && !AfterComplete(stage)
  }

  // ---- Conservation ----

  /**
   * What was handed to Send is exactly what was handled, then the live or abandoned batch,
   * then the buffer, then what a revocation dropped; in this order.
   */
  ghost predicate Balanced(v: View) {
    && v.t.handled + (Live(v) + Buffered(v) + v.t.dropped) == v.t.sent
    && (v.t.phase == Assigned ==> v.t.dropped == [])
    && v.t.acked == OffsetsOf(v.t.handled)
  }

  /** Everything in `ms` lies below what the log still holds from `pos` on. */
  ghost predicate AheadOf(ms: seq<Message>, log: seq<Message>, pos: nat) {
    forall i, j :: 0 <= i < |ms| && pos <= j < |log| ==> ms[i].offset < log[j].offset
  }

  ghost predicate Conserved(c: Config, p: int, v: View)
    requires p in c.logs
  {
    && Balanced(v)
    && v.t.start <= v.t.pos <= |c.logs[p]|
    && Ascending(v.t.sent) && AheadOf(v.t.sent, c.logs[p], v.t.pos)
    && (v.t.phase != Assigned ==> Buffered(v) == [])
    && (InUndo(v) ==> IsCurrent(v) && v.t.phase == Assigned)
  }

  /**
   * No undo is caught by a revocation: its partition is not revoked before the put-back,
   * and it is not begun by a batch whose partition has been revoked.
   */
  predicate UndoUncaught(v: View, l: Local) {
    && (l == Part(RevokeClear) ==> !InUndo(v))
    && (l.Carry? && l.f.Refuse? ==> IsCurrent(v) && v.t.phase == Assigned)
  }

  /** In a stretch `h + b + rest` of the log, `b` starts right after `h`. */
  lemma {:induction false} Stretch(log: seq<Message>, start: nat, pos: nat, h: seq<Message>, b: seq<Message>,
                                   rest: seq<Message>)
    requires start <= pos <= |log| && h + (b + rest) == log[start..pos]
    ensures start + |h| + |b| <= pos
    ensures b == log[start + |h|..start + |h| + |b|]
  {
    var sent := log[start..pos];
    assert |sent| == |h| + |b| + |rest|;
    forall i | 0 <= i < |b| ensures b[i] == log[start + |h| + i] {
      assert (h + (b + rest))[|h| + i] == b[i];
      assert sent[|h| + i] == log[start + |h| + i];
    }
  }

  lemma SliceExtends(log: seq<Message>, a: nat, b: nat, n: nat)
    requires a <= b && b + n <= |log|
    ensures log[a..b] + log[b..b + n] == log[a..b + n]
  {
  }

  lemma AppendLast(h: seq<Message>, l: seq<Message>, b: seq<Message>, more: seq<Message>)
    ensures h + (l + (b + more) + []) == (h + (l + b + [])) + more
  {
  }

  /** What the log yields next may be appended. */
  lemma {:induction false} DeliveryAscends(ms: seq<Message>, log: seq<Message>, pos: nat, n: nat)
    requires Ascending(ms) && Ascending(log) && AheadOf(ms, log, pos) && pos + n <= |log|
    ensures Ascending(ms + log[pos..pos + n]) && AheadOf(ms + log[pos..pos + n], log, pos + n)
  {
    var all := ms + log[pos..pos + n];
    forall i | 0 <= i < |all| ensures all[i] == if i < |ms| then ms[i] else log[pos + (i - |ms|)] {
    }
  }

  lemma {:induction false} DeliverConserves(c: Config, p: int, v: View, n: nat)
    requires ValidConfig(c) && p in c.logs && PartFits(c, p, v, Deliver(n)) && Conserved(c, p, v)
    ensures Conserved(c, p, VDeliver(c, p, v, n))
  {
    var more := c.logs[p][v.t.pos..v.t.pos + n];
    var v' := VDeliver(c, p, v, n);
    DeliveryAscends(v.t.sent, c.logs[p], v.t.pos, n);
    assert Live(v') == Live(v) && Buffered(v') == Buffered(v) + more && v.t.dropped == [];
    AppendLast(v.t.handled, Live(v), Buffered(v), more);
  }

  lemma {:induction false} CutConserves(c: Config, p: int, v: View)
    requires p in c.logs && c.batchSize > 0 && Token(c, p, v) && Conserved(c, p, v)
    requires v.buf.Some? && v.buf.value.messages != [] && !v.buf.value.inFlight
    ensures Conserved(c, p, Cut(c, p, v))
    ensures Rest(Cut(c, p, v)) == Rest(v)
  {
    var n := CutLen(c.batchSize, v.buf.value);
    var ms := v.buf.value.messages;
    assert ms == ms[..n] + ms[n..];
    assert Rest(Cut(c, p, v)) == Rest(v);
  }

  lemma {:induction false} ConservedPart(c: Config, p: int, v: View, e: PartEvent)
    requires ValidConfig(c) && p in c.logs && Token(c, p, v) && PartFits(c, p, v, e)
    requires Conserved(c, p, v) && UndoUncaught(v, Part(e))
    ensures Conserved(c, p, PartStep(c, p, v, e))
  {
    var v' := PartStep(c, p, v, e);
    match e {
      case Assign =>
        assert Rest(v') == [];
      case Deliver(n) =>
        DeliverConserves(c, p, v, n);
      case _ =>
        if v'.flight != v.flight {
          CutConserves(c, p, v);
        } else {
          assert Rest(v') == Rest(v);
        }
    }
  }

  /** Only completion takes messages out of the unhandled rest. */
  lemma FlightKeepsRest(c: Config, p: int, v: View, f: FlightEvent, closed: bool)
    requires p in c.logs && FlightFits(v, f) && Conserved(c, p, v) && !f.Complete?
    ensures Rest(FlightStep(v, f, closed)) == Rest(v)
    ensures FlightStep(v, f, closed).t == v.t.(fate := FlightStep(v, f, closed).t.fate)
  {
  }

  lemma {:induction false} CompleteConserves(c: Config, p: int, v: View)
    requires p in c.logs && Token(c, p, v) && FlightFits(v, Complete) && Conserved(c, p, v)
    ensures Conserved(c, p, VComplete(v))
  {
    var v' := VComplete(v);
    OffsetsOfConcat(v.t.handled, v.flight.value.batch.messages);
    if IsCurrent(v) {
      assert v.t.handled + Rest(v) == v'.t.handled + Rest(v');
    } else {
      assert Rest(v') == Rest(v);
    }
  }

  lemma {:induction false} ConservedFlight(c: Config, p: int, v: View, f: FlightEvent, closed: bool)
    requires p in c.logs && Token(c, p, v) && FlightFits(v, f)
    requires Conserved(c, p, v) && UndoUncaught(v, Carry(f, closed))
    ensures Conserved(c, p, FlightStep(v, f, closed))
  {
    if f.Complete? {
      CompleteConserves(c, p, v);
    } else {
      FlightKeepsRest(c, p, v, f, closed);
    }
  }

  lemma {:induction false} ConservedStep(c: Config, p: int, v: View, l: Local)
    requires ValidConfig(c) && p in c.logs && Token(c, p, v) && LocalFits(c, p, v, l)
    requires Conserved(c, p, v) && UndoUncaught(v, l)
    ensures Conserved(c, p, LocalStep(c, p, v, l))
  {
    match l {
      case Part(e) => ConservedPart(c, p, v, e);
      case Carry(f, closed) => ConservedFlight(c, p, v, f, closed);
      case _ => assert Rest(LocalStep(c, p, v, l)) == Rest(v);
    }
  }

  // ---- Commit safety ----

  ghost predicate DoneTo(log: seq<Message>, done: set<int>, n: nat) {
    n <= |log| && forall j :: 0 <= j < n ==> log[j].offset in done
  }

  /** Every message of the log below `offset` was handled. */
  ghost predicate SafeAt(log: seq<Message>, done: set<int>, offset: int) {
    forall j :: 0 <= j < |log| && log[j].offset < offset ==> log[j].offset in done
  }

  /** A live flight is a stretch of the log with nothing unhandled before it. */
  ghost predicate FlightBacked(log: seq<Message>, done: set<int>, f: Flight) {
    && f.at + |f.batch.messages| <= |log|
    && f.batch.messages == log[f.at..f.at + |f.batch.messages|]
    && DoneTo(log, done, f.at)
  }

  ghost predicate Backed(c: Config, p: int, v: View)
    requires p in c.logs
  {
    && v.t.start <= v.t.pos <= |c.logs[p]| && v.t.sent == c.logs[p][v.t.start..v.t.pos]
    && DoneTo(c.logs[p], v.t.done, v.t.start + |v.t.handled|)
    && (v.flight.Some? && v.flight.value.stage != Handled ==>
          FlightBacked(c.logs[p], v.t.done, v.flight.value))
    && (v.flight.Some? && !IsCurrent(v) ==> v.t.fate == Fresh)
    && (IsCurrent(v) && Outstanding(v.flight.value.stage) ==> v.t.fate == Open)
    && (v.rec.Some? && v.rec.value.completed && !v.t.fate.Undone? ==>
          SafeAt(c.logs[p], v.t.done, v.rec.value.maxOffset + 1))
    && (v.rec.Some? && v.rec.value.completed && v.t.phase == Unassigned ==> !v.t.fate.Undone?)
    && (v.read.Some? ==> SafeAt(c.logs[p], v.t.done, v.read.value))
    && (v.stored.Some? ==> SafeAt(c.logs[p], v.t.done, v.stored.value))
  }

  /** In addition nothing polled is discarded and no report is read while the partition stands undone. */
  predicate Kept(v: View, l: Local) {
    && UndoUncaught(v, l)
    && !(l.Part? && l.e.Discard?)
    && (l.Read? && v.rec.Some? && v.rec.value.completed ==> !v.t.fate.Undone?)
  }

  lemma {:induction false} DoneToIsSafe(log: seq<Message>, done: set<int>, n: nat)
    requires Ascending(log) && 0 < n && DoneTo(log, done, n)
    ensures SafeAt(log, done, log[n - 1].offset + 1)
  {
    assert forall j :: n <= j < |log| ==> log[n - 1].offset < log[j].offset;
  }

  lemma {:induction false} HandledStretch(log: seq<Message>, done: set<int>, f: Flight)
    requires FlightBacked(log, done, f)
    ensures DoneTo(log, done + OffsetsOf(f.batch.messages), f.at + |f.batch.messages|)
  {
    var ms := f.batch.messages;
    forall j | 0 <= j < f.at + |ms| ensures log[j].offset in done + OffsetsOf(ms) {
      if j >= f.at {
        assert ms[j - f.at] == log[j];
        assert ms[j - f.at] in ms;
      }
    }
  }

  /** A batch cut from the front of what follows the handled messages. */
  lemma {:induction false} CutIsBacked(log: seq<Message>, done: set<int>, start: nat, pos: nat,
                                       h: seq<Message>, ms: seq<Message>, f: Flight)
    requires start <= pos <= |log| && h + ms == log[start..pos] && DoneTo(log, done, start + |h|)
    requires f.batch.messages <= ms && f.at == start + |h|
    ensures FlightBacked(log, done, f)
  {
    var n := |f.batch.messages|;
    assert ms == ms[..n] + ms[n..];
    Stretch(log, start, pos, h, ms[..n], ms[n..]);
  }

  lemma {:induction false} CutBacked(c: Config, p: int, v: View)
    requires p in c.logs && c.batchSize > 0 && Token(c, p, v) && Conserved(c, p, v) && Backed(c, p, v)
    requires v.buf.Some? && v.buf.value.messages != [] && !v.buf.value.inFlight
    ensures Backed(c, p, Cut(c, p, v))
  {
    assert Rest(v) == v.buf.value.messages;
    CutIsBacked(c.logs[p], v.t.done, v.t.start, v.t.pos, v.t.handled, v.buf.value.messages, Cut(c, p, v).flight.value);
  }

  lemma {:induction false} ResumeIsDone(c: Config, p: int, v: View)
    requires p in c.logs && Backed(c, p, v)
    ensures Resume(c, p, v) <= |c.logs[p]| && DoneTo(c.logs[p], v.t.done, Resume(c, p, v))
  {
    if v.stored.Some? {
      assert SafeAt(c.logs[p], v.t.done, v.stored.value);
    }
  }

  lemma {:induction false} AssignBacked(c: Config, p: int, v: View)
    requires p in c.logs && Token(c, p, v) && PartFits(c, p, v, Assign) && Backed(c, p, v)
    ensures Backed(c, p, VAssign(v, Resume(c, p, v)))
  {
    ResumeIsDone(c, p, v);
  }

  lemma {:induction false} DeliverBacked(c: Config, p: int, v: View, n: nat)
    requires p in c.logs && PartFits(c, p, v, Deliver(n)) && Backed(c, p, v)
    ensures Backed(c, p, VDeliver(c, p, v, n))
  {
    SliceExtends(c.logs[p], v.t.start, v.t.pos, n);
  }

  lemma SameBacked(c: Config, p: int, v: View, v': View)
    requires p in c.logs && Backed(c, p, v)
    requires v'.t == v.t.(phase := v'.t.phase, dropped := v'.t.dropped) && v'.flight == v.flight
    requires v'.read == v.read && v'.stored == v.stored && (v'.rec == v.rec || v'.rec == None)
    requires v'.t.phase == Unassigned && v'.rec.Some? ==> v.t.phase == Unassigned
    ensures Backed(c, p, v')
  {
  }

  lemma {:induction false} BackedPart(c: Config, p: int, v: View, e: PartEvent)
    requires ValidConfig(c) && p in c.logs && Token(c, p, v) && PartFits(c, p, v, e)
    requires Conserved(c, p, v) && Kept(v, Part(e)) && Backed(c, p, v)
    ensures Backed(c, p, PartStep(c, p, v, e))
  {
    match e {
      case Assign => AssignBacked(c, p, v);
      case Deliver(n) => DeliverBacked(c, p, v, n);
      case Discard(_) =>
      case _ =>
        if PartStep(c, p, v, e).flight != v.flight {
          CutBacked(c, p, v);
        } else {
          SameBacked(c, p, v, PartStep(c, p, v, e));
        }
    }
  }

  lemma {:induction false} HandledPrefixGrows(c: Config, p: int, v: View)
    requires p in c.logs && Conserved(c, p, v) && Backed(c, p, v)
    requires IsCurrent(v) && v.flight.value.stage != Handled
    ensures DoneTo(c.logs[p], v.t.done + OffsetsOf(v.flight.value.batch.messages),
                   v.t.start + |v.t.handled| + |v.flight.value.batch.messages|)
  {
    var f := v.flight.value;
    assert Rest(v) == f.batch.messages + (Buffered(v) + v.t.dropped);
    Stretch(c.logs[p], v.t.start, v.t.pos, v.t.handled, f.batch.messages, Buffered(v) + v.t.dropped);
    HandledStretch(c.logs[p], v.t.done, f.(at := v.t.start + |v.t.handled|));
  }

  /** Completing a backed flight makes its last offset safe. */
  lemma {:induction false} HandledIsSafe(log: seq<Message>, done: set<int>, f: Flight)
    requires Ascending(log) && FlightBacked(log, done, f) && f.batch.messages != []
    ensures SafeAt(log, done + OffsetsOf(f.batch.messages), f.batch.messages[|f.batch.messages| - 1].offset + 1)
  {
    HandledStretch(log, done, f);
    DoneToIsSafe(log, done + OffsetsOf(f.batch.messages), f.at + |f.batch.messages|);
  }

  lemma DoneGrows(log: seq<Message>, done: set<int>, more: set<int>, n: nat)
    requires DoneTo(log, done, n)
    ensures DoneTo(log, done + more, n)
  {
  }

  lemma SafeGrows(log: seq<Message>, done: set<int>, more: set<int>, offset: int)
    requires SafeAt(log, done, offset)
    ensures SafeAt(log, done + more, offset)
  {
  }

  lemma {:induction false} CompletePrefix(c: Config, p: int, v: View)
    requires p in c.logs && FlightFits(v, Complete) && Conserved(c, p, v) && Backed(c, p, v)
    ensures DoneTo(c.logs[p], VComplete(v).t.done, VComplete(v).t.start + |VComplete(v).t.handled|)
  {
    if IsCurrent(v) {
      HandledPrefixGrows(c, p, v);
    } else {
      DoneGrows(c.logs[p], v.t.done, OffsetsOf(v.flight.value.batch.messages), v.t.start + |v.t.handled|);
    }
  }

  lemma {:induction false} CompleteSafe(c: Config, p: int, v: View, offset: int)
    requires ValidConfig(c) && p in c.logs && Token(c, p, v) && FlightFits(v, Complete) && Backed(c, p, v)
    requires offset == v.flight.value.batch.maxOffset + 1 || SafeAt(c.logs[p], v.t.done, offset)
    ensures SafeAt(c.logs[p], VComplete(v).t.done, offset)
  {
    var b := v.flight.value.batch;
    if offset == b.maxOffset + 1 {
      HandledIsSafe(c.logs[p], v.t.done, v.flight.value);
    } else {
      SafeGrows(c.logs[p], v.t.done, OffsetsOf(b.messages), offset);
    }
  }

  lemma {:induction false} CompleteBacked(c: Config, p: int, v: View)
    requires ValidConfig(c) && p in c.logs && Token(c, p, v) && FlightFits(v, Complete)
    requires Conserved(c, p, v) && Backed(c, p, v)
    ensures Backed(c, p, VComplete(v))
  {
    var v' := VComplete(v);
    assert v'.flight.value.stage == Handled && v'.t.pos == v.t.pos && v'.t.sent == v.t.sent && !v'.t.fate.Undone?;
    CompletePrefix(c, p, v);
    CompleteSafe(c, p, v, v.flight.value.batch.maxOffset + 1);
    if v.read.Some? {
      CompleteSafe(c, p, v, v.read.value);
    }
    if v.stored.Some? {
      CompleteSafe(c, p, v, v.stored.value);
    }
  }

  lemma AnnounceBacked(c: Config, p: int, v: View)
    requires p in c.logs && FlightFits(v, Announce) && Backed(c, p, v)
    ensures Backed(c, p, VAnnounce(v))
  {
  }

  lemma UndoBacked(c: Config, p: int, v: View)
    requires p in c.logs && FlightFits(v, Undo) && Conserved(c, p, v) && Backed(c, p, v)
    ensures Backed(c, p, VUndo(v))
  {
  }

  lemma MoveBacked(c: Config, p: int, v: View, f: FlightEvent, closed: bool)
    requires p in c.logs && Token(c, p, v) && FlightFits(v, f) && Backed(c, p, v)
    requires !f.Complete? && !f.Announce? && !f.Undo?
    ensures Backed(c, p, FlightStep(v, f, closed))
  {
    assert FlightStep(v, f, closed).t == v.t && FlightStep(v, f, closed).rec == v.rec;
  }

  lemma {:induction false} BackedFlight(c: Config, p: int, v: View, f: FlightEvent, closed: bool)
    requires ValidConfig(c) && p in c.logs && Token(c, p, v) && FlightFits(v, f)
    requires Conserved(c, p, v) && Backed(c, p, v)
    ensures Backed(c, p, FlightStep(v, f, closed))
  {
    match f {
      case Complete => CompleteBacked(c, p, v);
      case Announce => AnnounceBacked(c, p, v);
      case Undo => UndoBacked(c, p, v);
      case _ => MoveBacked(c, p, v, f, closed);
    }
  }

  lemma {:induction false} BackedStep(c: Config, p: int, v: View, l: Local)
    requires ValidConfig(c) && p in c.logs && Token(c, p, v) && LocalFits(c, p, v, l)
    requires Conserved(c, p, v) && Backed(c, p, v) && Kept(v, l)
    ensures Backed(c, p, LocalStep(c, p, v, l))
  {
    match l {
      case Part(e) => BackedPart(c, p, v, e);
      case Carry(f, closed) => BackedFlight(c, p, v, f, closed);
      case _ =>
    }
  }

  // ---- Within one assignment ----

  ghost predicate UndoneFits(c: Config, v: View, k: nat) {
    && 1 <= k <= c.batchSize
    && k <= |Rest(v)|
    && (v.rec.Some? ==> v.rec.value.completed && v.rec.value.maxOffset == Rest(v)[k - 1].offset)
    && (v.flight.Some? ==>
          && IsCurrent(v)
          && (BeforeAnnounce(v.flight.value.stage) || v.flight.value.stage == Returned)
          && k <= |v.flight.value.batch.messages|)
  }

  /** The batch was cut and BatchDispatched has not been called for it. */
  predicate Unannounced(v: View) {
    v.flight.Some? && BeforeAnnounce(v.flight.value.stage)
  }

  /**
   * What the record of the partition goes back to. While nothing of this assignment was
   * announced (fate Fresh), a record can only stem from a batch of an earlier one.
   */
  ghost predicate Traced(c: Config, v: View) {
    && (v.flight.Some? && !IsCurrent(v) ==> v.t.fate == Fresh)
    && (IsCurrent(v) && !Unannounced(v) ==> v.t.fate != Fresh)
    && (v.rec.Some? && v.t.phase == Unassigned ==> !Unannounced(v))
    && (v.rec.Some? && v.t.fate == Fresh && Unannounced(v) ==> IsCurrent(v))
    && match v.t.fate
       case Fresh => v.t.handled == []
       case Open => IsCurrent(v) && Outstanding(v.flight.value.stage)
       case Finished =>
         && v.t.handled != []
         && (v.rec.Some? ==> v.rec.value.completed
                             && v.rec.value.maxOffset == v.t.handled[|v.t.handled| - 1].offset)
         && (v.flight.Some? ==> !Outstanding(v.flight.value.stage) && v.flight.value.stage != Returned)
       case Undone(k) => UndoneFits(c, v, k)
  }

  lemma {:induction false} CutTraced(c: Config, p: int, v: View)
    requires p in c.logs && c.batchSize > 0 && Token(c, p, v) && Conserved(c, p, v) && Traced(c, v)
    requires v.buf.Some? && v.buf.value.messages != [] && !v.buf.value.inFlight
    ensures Traced(c, Cut(c, p, v))
  {
    CutConserves(c, p, v);
  }

  lemma RestGrows(c: Config, p: int, v: View, n: nat)
    requires p in c.logs && PartFits(c, p, v, Deliver(n)) && v.t.dropped == []
    ensures Rest(v) <= Rest(VDeliver(c, p, v, n))
  {
  }

  /** With the unhandled rest, record, flight and fate unchanged, so is the trace. */
  lemma SameTraced(c: Config, v: View, v': View)
    requires Traced(c, v) && Rest(v) <= Rest(v') && v'.flight == v.flight
    requires v'.rec == v.rec || v'.rec == None
    requires v'.t.fate == v.t.fate && v'.t.handled == v.t.handled && v'.t.gen == v.t.gen
    requires v'.t.phase == Unassigned ==> v'.rec == None || v.t.phase == Unassigned
    ensures Traced(c, v')
  {
  }

  lemma {:induction false} TracedPart(c: Config, p: int, v: View, e: PartEvent)
    requires p in c.logs && c.batchSize > 0 && Token(c, p, v) && PartFits(c, p, v, e)
    requires Conserved(c, p, v) && Traced(c, v)
    ensures Traced(c, PartStep(c, p, v, e))
  {
    var v' := PartStep(c, p, v, e);
    match e {
      case Assign =>
      case Deliver(n) =>
        RestGrows(c, p, v, n);
        SameTraced(c, v, v');
      case _ =>
        if v'.flight != v.flight {
          CutTraced(c, p, v);
        } else {
          assert Rest(v') == Rest(v);
          SameTraced(c, v, v');
        }
    }
  }

  lemma CompleteTraced(c: Config, p: int, v: View)
    requires p in c.logs && Token(c, p, v) && FlightFits(v, Complete) && Traced(c, v)
    ensures Traced(c, VComplete(v))
  {
  }

  lemma {:induction false} UndoTraced(c: Config, p: int, v: View)
    requires p in c.logs && Token(c, p, v) && FlightFits(v, Undo) && Conserved(c, p, v) && Traced(c, v)
    ensures Traced(c, VUndo(v))
  {
    var v' := VUndo(v);
    var k := |v.flight.value.batch.messages|;
    assert Rest(v')[k - 1] == v.flight.value.batch.messages[k - 1];
  }

  lemma AnnounceTraced(c: Config, p: int, v: View)
    requires p in c.logs && Token(c, p, v) && FlightFits(v, Announce) && Traced(c, v)
    ensures Traced(c, VAnnounce(v))
  {
  }

  lemma {:induction false} TracedFlight(c: Config, p: int, v: View, f: FlightEvent, closed: bool)
    requires p in c.logs && Token(c, p, v) && FlightFits(v, f) && Conserved(c, p, v) && Traced(c, v)
    ensures Traced(c, FlightStep(v, f, closed))
  {
    match f {
      case Complete => CompleteTraced(c, p, v);
      case Undo => UndoTraced(c, p, v);
      case Announce => AnnounceTraced(c, p, v);
      case _ => FlightKeepsRest(c, p, v, f, closed);
    }
  }

  lemma {:induction false} TracedStep(c: Config, p: int, v: View, l: Local)
    requires p in c.logs && c.batchSize > 0 && Token(c, p, v) && LocalFits(c, p, v, l)
    requires Conserved(c, p, v) && Traced(c, v)
    ensures Traced(c, LocalStep(c, p, v, l))
  {
    match l {
      case Part(e) => TracedPart(c, p, v, e);
      case Carry(f, closed) => TracedFlight(c, p, v, f, closed);
      case _ =>
        assert Rest(LocalStep(c, p, v, l)) == Rest(v);
        SameTraced(c, v, LocalStep(c, p, v, l));
    }
  }

  // ---- Records that outlive their assignment ----

  /** BatchDispatched is about to be called for a batch of an earlier assignment. */
  predicate AnnouncesLate(v: View, l: Local) {
    l.Carry? && l.f.Announce? && v.flight.Some? && !IsCurrent(v)
  }

  /** An assignment begins while the record of an earlier one is still there and may be completed. */
  predicate Inherits(v: View, l: Local) {
    l == Part(Assign) && v.rec.Some? && !Dead(v)
  }

  /** Its worker left the batch: it will never be completed. */
  predicate Dead(v: View) {
    v.flight.Some? && v.flight.value.stage == Abandoned
  }

  /** The record stems from an earlier assignment and may be or become a report. */
  predicate Stale(v: View) {
    v.rec.Some? && v.t.fate == Fresh && !Dead(v)
  }

  /**
   * For the offset tracker: no BatchDispatched comes after the coordinator has forgotten
   * the batch's assignment.
   */
  predicate InTime(v: View, l: Local) {
    && UndoUncaught(v, l)
    && (l.Carry? && l.f.Announce? ==> IsCurrent(v) && v.t.phase != Unassigned)
  }

  ghost predicate TimelyRecord(v: View) {
    v.rec.Some? ==> v.t.phase != Unassigned && v.t.fate != Fresh
  }

  lemma {:induction false} TimelyStep(c: Config, p: int, v: View, l: Local)
    requires p in c.logs && c.batchSize > 0 && Token(c, p, v) && LocalFits(c, p, v, l) && Conserved(c, p, v)
    requires Traced(c, v) && TimelyRecord(v) && InTime(v, l)
    ensures TimelyRecord(LocalStep(c, p, v, l))
  {
  }

  /** Where a stale record comes from, unless this very step makes it. */
  predicate StaleBefore(v: View, v': View) {
    Stale(v') ==>
      && Stale(v) && v'.rec.value.maxOffset == v.rec.value.maxOffset
      && v'.t.sent == v.t.sent && v.t.pos <= v'.t.pos && (v'.t.phase == Assigned ==> v.t.phase == Assigned)
  }

  lemma StaleByPart(c: Config, p: int, v: View, e: PartEvent)
    requires p in c.logs && c.batchSize > 0 && Token(c, p, v) && PartFits(c, p, v, e) && !e.Assign? && !e.Deliver?
    ensures StaleBefore(v, PartStep(c, p, v, e))
  {
  }

  lemma StaleByFlight(c: Config, p: int, v: View, f: FlightEvent, closed: bool)
    requires Token(c, p, v) && FlightFits(v, f) && !AnnouncesLate(v, Carry(f, closed))
    ensures StaleBefore(v, FlightStep(v, f, closed))
  {
  }

  lemma {:induction false} StaleFrom(c: Config, p: int, v: View, l: Local)
    requires p in c.logs && c.batchSize > 0 && Token(c, p, v) && LocalFits(c, p, v, l)
    requires !AnnouncesLate(v, l) && l != Part(Assign) && !(l.Part? && l.e.Deliver?)
    ensures StaleBefore(v, LocalStep(c, p, v, l))
  {
    match l {
      case Part(e) => StaleByPart(c, p, v, e);
      case Carry(f, closed) => StaleByFlight(c, p, v, f, closed);
      case _ =>
    }
  }

  /** Every message of the log from index `k` on lies above the offset. */
  predicate BelowLog(offset: int, log: seq<Message>, k: nat) {
    forall j :: k <= j < |log| ==> offset < log[j].offset
  }

  predicate BelowAll(offset: int, ms: seq<Message>) {
    forall j :: 0 <= j < |ms| ==> offset < ms[j].offset
  }

  /**
   * For the account of the undo: a record of an earlier assignment lies below every message
   * that this one has sent or can still send.
   */
  predicate BelowTheRest(c: Config, p: int, v: View, l: Local) {
    && UndoUncaught(v, l)
    && (p in c.logs && AnnouncesLate(v, l) ==>
          && BelowAll(v.flight.value.batch.maxOffset, v.t.sent)
          && (v.t.phase == Assigned ==> BelowLog(v.flight.value.batch.maxOffset, c.logs[p], v.t.pos)))
    && (p in c.logs && Inherits(v, l) ==> BelowLog(v.rec.value.maxOffset, c.logs[p], Resume(c, p, v)))
  }

  ghost predicate StaleIsBelow(c: Config, p: int, v: View)
    requires p in c.logs
  {
    Stale(v) ==>
      && BelowAll(v.rec.value.maxOffset, v.t.sent)
      && (v.t.phase == Assigned ==> BelowLog(v.rec.value.maxOffset, c.logs[p], v.t.pos))
  }

  lemma {:induction false} DeliverBelow(c: Config, p: int, v: View, n: nat)
    requires p in c.logs && PartFits(c, p, v, Deliver(n)) && StaleIsBelow(c, p, v)
    ensures StaleIsBelow(c, p, VDeliver(c, p, v, n))
  {
    var sent := VDeliver(c, p, v, n).t.sent;
    assert forall j :: |v.t.sent| <= j < |sent| ==> sent[j] == c.logs[p][v.t.pos + (j - |v.t.sent|)];
  }

  lemma {:induction false} StaleIsBelowStep(c: Config, p: int, v: View, l: Local)
    requires p in c.logs && c.batchSize > 0 && Token(c, p, v) && LocalFits(c, p, v, l) && Conserved(c, p, v)
    requires Traced(c, v) && StaleIsBelow(c, p, v) && BelowTheRest(c, p, v, l)
    ensures StaleIsBelow(c, p, LocalStep(c, p, v, l))
  {
    if l.Part? && l.e.Deliver? {
      DeliverBelow(c, p, v, l.e.n);
    } else if l != Part(Assign) && !AnnouncesLate(v, l) {
      StaleFrom(c, p, v, l);
    }
  }

  /** The first batch of the assignment, whenever it is cut, ends at or above the offset. */
  predicate FirstEndsFrom(c: Config, p: int, v: View, offset: int)
    requires p in c.logs && c.batchSize > 0
  {
    if v.t.sent == [] then forall j :: v.t.pos <= j < |c.logs[p]| ==> offset <= c.logs[p][j].offset
    else offset <= v.t.sent[Least(c.batchSize, |v.t.sent|) - 1].offset
  }

  function Least(a: nat, b: nat): nat {
    if a < b then a else b
  }

  /**
   * For reports that never go down: the first batch of this assignment cannot end below a
   * record of an earlier one.
   */
  predicate NotAboveTheFirst(c: Config, p: int, v: View, l: Local) {
    && UndoUncaught(v, l)
    && (p in c.logs && c.batchSize > 0 && AnnouncesLate(v, l) && v.t.phase == Assigned ==>
          FirstEndsFrom(c, p, v, v.flight.value.batch.maxOffset))
    && (p in c.logs && Inherits(v, l) ==>
          forall j :: Resume(c, p, v) <= j < |c.logs[p]| ==> v.rec.value.maxOffset <= c.logs[p][j].offset)
  }

  ghost predicate StaleIsNotAbove(c: Config, p: int, v: View)
    requires p in c.logs && c.batchSize > 0
  {
    Stale(v) ==>
      && (v.t.phase == Assigned ==> FirstEndsFrom(c, p, v, v.rec.value.maxOffset))
      && (IsCurrent(v) ==> v.rec.value.maxOffset <= v.flight.value.batch.maxOffset)
  }

  lemma {:induction false} LaterEnd(ms: seq<Message>, more: seq<Message>, size: nat)
    requires Ascending(ms + more) && ms != [] && size > 0
    ensures ms[Least(size, |ms|) - 1].offset <= (ms + more)[Least(size, |ms + more|) - 1].offset
  {
    var i := Least(size, |ms|) - 1;
    assert (ms + more)[i] == ms[i];
  }

  lemma {:induction false} DeliverFirst(c: Config, p: int, v: View, n: nat, offset: int)
    requires ValidConfig(c) && p in c.logs && PartFits(c, p, v, Deliver(n)) && Conserved(c, p, v)
    requires FirstEndsFrom(c, p, v, offset)
    ensures FirstEndsFrom(c, p, VDeliver(c, p, v, n), offset)
  {
    var more := c.logs[p][v.t.pos..v.t.pos + n];
    if v.t.sent == [] {
      assert v.t.sent + more == more;
    } else {
      DeliveryAscends(v.t.sent, c.logs[p], v.t.pos, n);
      LaterEnd(v.t.sent, more, c.batchSize);
    }
  }

  /** The first batch is cut from the front of everything sent. */
  lemma {:induction false} FirstCut(c: Config, p: int, v: View, offset: int)
    requires p in c.logs && c.batchSize > 0 && Token(c, p, v) && Conserved(c, p, v) && Traced(c, v) && v.t.fate == Fresh
    requires v.buf.Some? && v.buf.value.messages != [] && !v.buf.value.inFlight && FirstEndsFrom(c, p, v, offset)
    ensures offset <= Cut(c, p, v).flight.value.batch.maxOffset
  {
    assert Rest(v) == v.buf.value.messages;
    assert [] + Rest(v) == Rest(v);
  }

  lemma {:induction false} StaleIsNotAboveStep(c: Config, p: int, v: View, l: Local)
    requires ValidConfig(c) && p in c.logs && Token(c, p, v) && LocalFits(c, p, v, l) && Conserved(c, p, v)
    requires Traced(c, v) && StaleIsNotAbove(c, p, v) && NotAboveTheFirst(c, p, v, l)
    ensures StaleIsNotAbove(c, p, LocalStep(c, p, v, l))
  {
    if l.Part? && l.e.Deliver? {
      if Stale(v) {
        DeliverFirst(c, p, v, l.e.n, v.rec.value.maxOffset);
      }
    } else if l != Part(Assign) && !AnnouncesLate(v, l) {
      StaleFrom(c, p, v, l);
      if Stale(LocalStep(c, p, v, l)) {
        CurrentBatchStays(c, p, v, l);
      }
    }
  }

  /** A current batch was there before or has just been cut. */
  lemma {:induction false} CurrentBatchStays(c: Config, p: int, v: View, l: Local)
    requires p in c.logs && c.batchSize > 0 && Token(c, p, v) && LocalFits(c, p, v, l) && Conserved(c, p, v)
    requires Traced(c, v) && StaleIsNotAbove(c, p, v) && l != Part(Assign) && Stale(v) && Stale(LocalStep(c, p, v, l))
    ensures IsCurrent(LocalStep(c, p, v, l)) ==>
      v.rec.value.maxOffset <= LocalStep(c, p, v, l).flight.value.batch.maxOffset
  {
    if l.Part? && LocalStep(c, p, v, l).flight != v.flight {
      FirstCut(c, p, v, v.rec.value.maxOffset);
    }
  }
}
