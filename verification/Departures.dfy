/**
 * Where the code departs from its stated intent: from every reachable state of the kind
 * described, some schedule of the poll loop, timers and workers leads to the failure.
 */
module Departures {
  import opened Types
  import opened Offsets
  import opened Buffers
  import opened Pipeline
  import opened Views
  import opened Ledger
  import opened CommitSafety
  import opened Assignment
  import opened Schedule
  import opened Replay
  import opened Desks
  import opened Sweeps

  /** A schedule from the start has come to `y`, and every step of it met `ok` for `p`. */
  ghost predicate Stands(c: Config, steps: seq<CrewStep>, y: Crew, p: int, ok: (View, Local) -> bool)
    requires ValidConfig(c)
  {
    && CrewRun(c, CrewBoot(c), steps, y) && Throughout(c, CrewBoot(c), steps, p, ok)
    && !y.s.closed && p in y.s.trail && p in c.logs
  }

  lemma {:induction false} StandsSound(c: Config, steps: seq<CrewStep>, y: Crew, p: int, ok: (View, Local) -> bool)
    requires ValidConfig(c) && Stands(c, steps, y, p, ok)
    ensures Comes(c, false, y, y, p) && Token(c, p, ViewOf(y.s, p))
  {
    RunLeads(c, CrewBoot(c), steps, y);
    SoundHere(c, false, y, y, p);
  }

  lemma {:induction false} StandsConserved(c: Config, steps: seq<CrewStep>, y: Crew, p: int)
    requires ValidConfig(c) && Stands(c, steps, y, p, UndoUncaught)
    ensures Conserved(c, p, ViewOf(y.s, p)) && Traced(c, ViewOf(y.s, p))
  {
    var acts := ScheduleIsRun(c, CrewBoot(c), steps, y, p, UndoUncaught);
    InitTokens(c);
    InitConserved(c, p);
    TracedRun(c, Init(c), acts, y.s, p);
  }

  /** While the poll loop finishes what it is doing, the books of `p` stay as they are. */
  lemma {:induction false} UnmovedBooks(c: Config, p: int, v: View, w: View)
    requires ValidConfig(c) && p in c.logs && Token(c, p, v) && Conserved(c, p, v) && Traced(c, v) && Unmoved(v, w)
    ensures Conserved(c, p, w) && Traced(c, w)
  {
    if v.t.phase == Revoking && w != v.(read := w.read) {
      ConservedStep(c, p, v, Part(Reset));
      TracedStep(c, p, v, Part(Reset));
      ReadBooks(c, p, VReset(v), w);
    } else {
      ReadBooks(c, p, v, w);
    }
  }

  lemma ReadBooks(c: Config, p: int, v: View, w: View)
    requires p in c.logs && Conserved(c, p, v) && Traced(c, v) && w == v.(read := w.read)
    ensures Conserved(c, p, w) && Traced(c, w)
  {
  }

  /** Send carries batches of the current assignment only. */
  lemma {:induction false} LateIsNotCarried(c: Config, y0: Crew, y: Crew, p: int)
    requires ValidConfig(c) && Comes(c, false, y0, y, p)
    requires var v := ViewOf(y.s, p); v.flight.None? || !IsCurrent(v) || v.t.phase != Assigned
    ensures NotCarrying(y, p)
  {
    DeskSoundHere(c, false, y0, y, p);
  }

  // ---- A full channel lets an unhandled message be committed ----

  lemma {:induction false} FirstIsUnhandled(c: Config, p: int, v: View)
    requires ValidConfig(c) && p in c.logs && Token(c, p, v) && Conserved(c, p, v)
    requires v.buf.Some? && !v.buf.value.inFlight && v.buf.value.messages != []
    ensures v.buf.value.messages[0].offset !in v.t.acked
    ensures v.buf.value.messages[0].offset <= CutBatch(p, c.batchSize, v.buf.value).maxOffset
  {
    var ms := v.buf.value.messages;
    assert Rest(v) == ms;
    SentAscends(c, p, v);
    HandledBelowRest(v.t.handled, ms);
    assert ms[0] in ms;
  }

  /** A goroutine is about to cut a batch of `p`: Send, a sweep or a timer's callback. */
  predicate AboutToCut(c: Config, y: Crew, t: CrewStep, p: int) {
    && DeskFits(y, t) && p in y.s.bufs && !y.s.bufs[p].inFlight && y.s.bufs[p].messages != []
    && match t
       case SendTry => y.desk.p == p && |y.s.bufs[p].messages| >= c.batchSize
       case DrainTry(k) => y.jobs[k].rest[0] == p && |y.s.bufs[p].messages| >= c.batchSize
       case FlushNow(k) => y.jobs[k].p == p
       case _ => false
  }

  /** The batch is cut; a goroutine other than Send waits until the poll loop is between two calls. */
  lemma {:induction false} PlayCut(c: Config, y: Crew, t: CrewStep, p: int) returns (y': Crew)
    requires ValidConfig(c) && Comes(c, false, y, y, p) && AboutToCut(c, y, t, p)
    ensures Comes(c, false, y, y', p) && DeskOk(y', p) && |y'.s.channel| >= |y.s.channel|
    ensures Unmoved(Cut(c, p, ViewOf(y.s, p)), ViewOf(y'.s, p))
  {
    assert Token(c, p, ViewOf(y.s, p)) by {
      SoundHere(c, false, y, y, p);
    }
    LateIsNotCarried(c, y, y, p);
    var cut := Play(c, false, y, y, t, p);
    assert cut.s == Launch(c, y.s, p);
    y' := cut;
    if !t.SendTry? {
      y' := PlayHome(c, y, cut, p);
    }
  }

  /**
   * Whenever Send, a sweep or the linger flush cuts a batch and meets a full channel, the
   * next commit passes the whole batch, which is back in the buffer, although nothing has
   * been handled since. Unless an undo was caught before, already the batch's first message
   * is unhandled in this assignment; only an earlier assignment can have handled it.
   */
  lemma {:induction false} FullChannelCommitsUnhandled(c: Config, steps: seq<CrewStep>, y: Crew, t: CrewStep, p: int)
    returns (more: seq<CrewStep>, last: Crew)
    requires ValidConfig(c) && CrewRun(c, CrewBoot(c), steps, y) && !y.s.closed && p in y.s.trail && p in c.logs
    requires AboutToCut(c, y, t, p) && |y.s.channel| >= c.channelCap
    ensures CrewRun(c, y, more, last) && p in last.s.committed && p in last.s.trail
    ensures last.s.committed[p] == CutBatch(p, c.batchSize, y.s.bufs[p]).maxOffset + 1
    ensures last.s.trail[p].done == y.s.trail[p].done && last.s.trail[p].acked == y.s.trail[p].acked
    ensures var first := y.s.bufs[p].messages[0];
      Throughout(c, CrewBoot(c), steps, p, UndoUncaught) ==>
        first.offset < last.s.committed[p] && first.offset !in last.s.trail[p].acked
  {
    RunLeads(c, CrewBoot(c), steps, y);
    last := PlayCutAndRefused(c, y, t, p);
    last := PlayCommit(c, y, last, p);
    more := LeadsIsRun(c, false, y, last);
    if Throughout(c, CrewBoot(c), steps, p, UndoUncaught) {
      StandsSound(c, steps, y, p, UndoUncaught);
      StandsConserved(c, steps, y, p);
      FirstIsUnhandled(c, p, ViewOf(y.s, p));
    }
  }

  /** The batch is cut, refused and put back. */
  lemma {:induction false} PlayCutAndRefused(c: Config, y: Crew, t: CrewStep, p: int) returns (y': Crew)
    requires ValidConfig(c) && Comes(c, false, y, y, p) && AboutToCut(c, y, t, p) && |y.s.channel| >= c.channelCap
    ensures Comes(c, false, y, y', p) && y'.desk == Free
    ensures var v, w := ViewOf(y.s, p), ViewOf(y'.s, p);
      && Reported(w.rec) == Some(CutBatch(p, c.batchSize, v.buf.value).maxOffset + 1)
      && w.t.acked == v.t.acked && w.t.done == v.t.done
  {
    var cut := PlayCut(c, y, t, p);
    y' := PlayRefusedAndUndone(c, y, cut, p);
  }

  lemma {:induction false} PlayRefusedAndUndone(c: Config, y0: Crew, y: Crew, p: int) returns (y': Crew)
    requires ValidConfig(c) && Comes(c, false, y0, y, p) && FlightFits(ViewOf(y.s, p), CheckClosed) && DeskOk(y, p)
    requires |y.s.channel| >= c.channelCap
    ensures Comes(c, false, y0, y', p) && y'.desk == Free
    ensures var v, w := ViewOf(y.s, p), ViewOf(y'.s, p);
      && Reported(w.rec) == Some(v.flight.value.batch.maxOffset + 1)
      && w.t.acked == v.t.acked && w.t.done == v.t.done
  {
    var refused := PlayRefused(c, false, y0, y, p);
    y' := PlayUndone(c, y0, refused, p);
  }

  // ---- An undo caught by a revocation ----

  /** The poll loop may revoke a partition whose batch is being undone. */
  predicate UndoOpen(y: Crew, p: int)
    requires p in y.s.trail
  {
    DeskFits(y, Lose(p)) && InUndo(ViewOf(y.s, p)) && ViewOf(y.s, p).t.phase == Assigned
  }

  /** A batch of a revoked assignment is about to find the channel full. */
  predicate LateRefusal(c: Config, y: Crew, p: int)
    requires p in y.s.trail
  {
    var v := ViewOf(y.s, p);
    FlightFits(v, Refuse) && |y.s.channel| >= c.channelCap && (!IsCurrent(v) || v.t.phase != Assigned)
  }

  /** What is put back after the revocation is still there in the next assignment. */
  lemma {:induction false} BackInNextAssignment(c: Config, y0: Crew, y: Crew, p: int) returns (y': Crew)
    requires ValidConfig(c) && Comes(c, false, y0, y, p) && UndoOpen(y, p) && Token(c, p, ViewOf(y.s, p))
    ensures Comes(c, false, y0, y', p) && y'.desk == Free && (Busy(y.s) ==> Busy(y'.s))
    ensures BackAgain(c, p, ViewOf(y.s, p), ViewOf(y'.s, p))
  {
    var lost := Play(c, false, y0, y, Lose(p), p);
    var home := PlayHome(c, y0, lost, p);
    y' := PlayBackAndGain(c, y0, home, p);
  }

  /** The batch that `v` shows in flight is all that the next assignment finds in the buffer. */
  predicate BackAgain(c: Config, p: int, v: View, w: View)
    requires p in c.logs && v.flight.Some?
  {
    var k := Resume(c, p, v);
    && w.buf == Some(Buf(v.flight.value.batch.messages, false, false)) && w.flight.None?
    && w.t == Trail(Assigned, v.t.gen + 1, k, k, [], [], [], {}, Fresh, v.t.done)
  }

  lemma {:induction false} PlayBackAndGain(c: Config, y0: Crew, y: Crew, p: int) returns (y': Crew)
    requires ValidConfig(c) && Comes(c, false, y0, y, p) && y.desk == Free && InUndo(ViewOf(y.s, p))
    requires var v := ViewOf(y.s, p);
      v.t.phase == Unassigned && v.buf.Some? && v.buf.value.messages == [] && !v.buf.value.armed
    ensures Comes(c, false, y0, y', p) && y'.desk == Free && (Busy(y.s) ==> Busy(y'.s))
    ensures BackAgain(c, p, ViewOf(y.s, p), ViewOf(y'.s, p))
  {
    var back := PlayBack(c, y0, y, p);
    y' := PlayGain(c, y0, back, p);
    assert forall ms: seq<Message> :: ms + [] == ms;
  }

  lemma {:induction false} PlayBack(c: Config, y0: Crew, y: Crew, p: int) returns (y': Crew)
    requires ValidConfig(c) && Comes(c, false, y0, y, p) && y.desk == Free
    requires InUndo(ViewOf(y.s, p)) && ViewOf(y.s, p).buf.Some?
    ensures Comes(c, false, y0, y', p) && y'.desk == Free && (Busy(y.s) ==> Busy(y'.s))
    ensures var v, w := ViewOf(y.s, p), ViewOf(y'.s, p);
      && w.buf == Some(AfterPutBack(v.flight.value.batch, v.buf.value)) && w.flight.None? && w.stored == v.stored
      && w.t.gen == v.t.gen && w.t.done == v.t.done && w.t.phase == v.t.phase
  {
    if ViewOf(y.s, p).flight.value.stage == Refused {
      y' := PlayUndone(c, y0, y, p);
    } else {
      y' := PlayFlight(c, false, y0, y, p, PutBack);
    }
  }

  lemma {:induction false} RevokedUndo(c: Config, y: Crew, p: int) returns (last: Crew)
    requires ValidConfig(c) && Comes(c, false, y, y, p) && UndoOpen(y, p) && Token(c, p, ViewOf(y.s, p))
    ensures Comes(c, false, y, last, p) && !Accounted(last.s, p)
  {
    last := BackInNextAssignment(c, y, y, p);
    assert Rest(ViewOf(last.s, p)) == ViewOf(y.s, p).flight.value.batch.messages;
  }

  /** The batch is refused, and the poll loop comes to rest between two calls. */
  lemma {:induction false} PlayLateRefusal(c: Config, y: Crew, p: int) returns (y': Crew)
    requires ValidConfig(c) && Comes(c, false, y, y, p) && LateRefusal(c, y, p)
    ensures Comes(c, false, y, y', p) && y'.desk == Free && (Busy(y.s) ==> Busy(y'.s))
    ensures Unmoved(VMove(ViewOf(y.s, p), Refused), ViewOf(y'.s, p)) && ViewOf(y'.s, p).t.phase != Revoking
  {
    assert Structure(c, y.s) by {
      SoundHere(c, false, y, y, p);
    }
    FlightTurn(c, y, p, Refuse);
    LateIsNotCarried(c, y, y, p);
    var refused := Play(c, false, y, y, CarryOn(y.s.owner[p], Refuse), p);
    y' := PlayHome(c, y, refused, p);
  }

  lemma {:induction false} RefusedLate(c: Config, y: Crew, p: int) returns (last: Crew)
    requires ValidConfig(c) && Comes(c, false, y, y, p) && LateRefusal(c, y, p)
    requires Token(c, p, ViewOf(y.s, p)) && Balanced(ViewOf(y.s, p))
    ensures Comes(c, false, y, last, p) && !Accounted(last.s, p)
  {
    var v := ViewOf(y.s, p);
    var refused := PlayLateRefusal(c, y, p);
    assert Balanced(ViewOf(refused.s, p)) && Rest(ViewOf(refused.s, p)) == Rest(v);
    last := UndoneLate(c, y, refused, p);
  }

  lemma {:induction false} UndoneLate(c: Config, y0: Crew, y: Crew, p: int) returns (last: Crew)
    requires ValidConfig(c) && Comes(c, false, y0, y, p) && y.desk == Free && FlightFits(ViewOf(y.s, p), Undo)
    requires var v := ViewOf(y.s, p);
      && v.flight.value.batch.messages != [] && Balanced(v)
      && (v.t.phase == Unassigned || (v.t.phase == Assigned && !IsCurrent(v)))
    ensures Comes(c, false, y0, last, p) && !Accounted(last.s, p)
  {
    var v := ViewOf(y.s, p);
    last := PlayUndone(c, y0, y, p);
    if v.t.phase == Unassigned {
      last := PlayGain(c, y0, last, p);
      assert Rest(ViewOf(last.s, p)) != [];
    } else {
      assert |Rest(ViewOf(last.s, p))| == |Rest(v)| + |v.flight.value.batch.messages|;
    }
  }

  /**
   * The condition of conservation is exact before Close: an undo that a revocation can
   * catch, and a refusal that comes after one, each have a continuation in which what is
   * buffered and handled is not what was sent.
   */
  lemma {:induction false} CaughtUndoBreaksConservation(c: Config, steps: seq<CrewStep>, y: Crew, p: int)
    returns (more: seq<CrewStep>, last: Crew)
    requires ValidConfig(c) && Stands(c, steps, y, p, UndoUncaught)
    requires UndoOpen(y, p) || LateRefusal(c, y, p)
    ensures CrewRun(c, y, more, last) && !Accounted(last.s, p)
  {
    StandsSound(c, steps, y, p, UndoUncaught);
    StandsConserved(c, steps, y, p);
    if UndoOpen(y, p) {
      last := RevokedUndo(c, y, p);
    } else {
      last := RefusedLate(c, y, p);
    }
    more := LeadsIsRun(c, false, y, last);
  }

  /**
   * A late refusal breaks commit safety as well: the undo completes the record of a batch
   * that nobody handled, although nothing of this assignment was undone.
   */
  lemma {:induction false} LateRefusalCommitsUnhandled(c: Config, steps: seq<CrewStep>, y: Crew, p: int)
    returns (more: seq<CrewStep>, last: Crew)
    requires ValidConfig(c) && Stands(c, steps, y, p, UndoUncaught) && LateRefusal(c, y, p)
    requires ViewOf(y.s, p).rec.Some? && ViewOf(y.s, p).t.phase != Revoking
    ensures CrewRun(c, y, more, last) && p in last.s.committed && p in last.s.trail
    ensures last.s.committed[p] == ViewOf(y.s, p).flight.value.batch.maxOffset + 1
    ensures last.s.trail[p].done == y.s.trail[p].done
  {
    StandsSound(c, steps, y, p, UndoUncaught);
    var refused := PlayLateRefusal(c, y, p);
    last := UndoneAndCommitted(c, y, refused, p);
    more := LeadsIsRun(c, false, y, last);
  }

  lemma {:induction false} UndoneAndCommitted(c: Config, y0: Crew, y: Crew, p: int) returns (y': Crew)
    requires ValidConfig(c) && Comes(c, false, y0, y, p) && y.desk == Free && FlightFits(ViewOf(y.s, p), Undo)
    requires ViewOf(y.s, p).rec.Some?
    ensures Comes(c, false, y0, y', p) && p in y'.s.committed
    ensures y'.s.committed[p] == ViewOf(y.s, p).rec.value.maxOffset + 1 && y'.s.trail[p].done == y.s.trail[p].done
  {
    var undone := PlayFlight(c, false, y0, y, p, Undo);
    y' := PlayCommit(c, y0, undone, p);
  }

  // ---- A batch announced after its assignment: the offset tracker ----

  /** The state in which the condition of the tracker is about to be broken. */
  predicate AnnouncedTooLate(y: Crew, p: int)
    requires p in y.s.trail
  {
    var v := ViewOf(y.s, p);
    FlightFits(v, Announce) && (!IsCurrent(v) || v.t.phase == Unassigned)
  }

  /** Nothing of this assignment is acknowledged, so a tracker has nothing to report. */
  lemma NothingTracked(c: Config, p: int, v: View)
    requires p in c.logs && Conserved(c, p, v) && v.t.handled == []
    ensures TrackerReport(v.t.sent, v.t.acked) == None
  {
    assert OffsetsOf([]) == {};
  }

  /** A batch of an earlier assignment leaves a record of its own. */
  lemma {:induction false} StaleProcess(c: Config, y0: Crew, y: Crew, p: int) returns (y': Crew)
    requires ValidConfig(c) && Comes(c, false, y0, y, p) && y.desk == Free
    requires var v := ViewOf(y.s, p); FlightFits(v, Announce) && !IsCurrent(v)
    ensures Comes(c, false, y0, y', p) && y'.desk == Free
    ensures var v, w := ViewOf(y.s, p), ViewOf(y'.s, p);
      && Reported(w.rec) == Some(v.flight.value.batch.maxOffset + 1) && w.t == v.t.(done := w.t.done)
      && FlightFits(w, Sweep) && w.buf == v.buf && !IsCurrent(w)
  {
    y' := PlayProcess(c, false, y0, y, p);
  }

  /**
   * The tracker's condition is exact before Close, among schedules in which no undo is
   * caught: from every state in which the next BatchDispatched of the partition comes too
   * late, the record reports an offset although nothing of the assignment is acknowledged.
   */
  lemma {:induction false} LateAnnouncementBreaksTracker(c: Config, steps: seq<CrewStep>, y: Crew, p: int)
    returns (more: seq<CrewStep>, last: Crew)
    requires ValidConfig(c) && Stands(c, steps, y, p, UndoUncaught) && AnnouncedTooLate(y, p)
    ensures CrewRun(c, y, more, last) && p in last.s.trail && p in Committable(last.s.records)
    ensures !last.s.trail[p].fate.Undone? && TrackerReport(last.s.trail[p].sent, last.s.trail[p].acked) == None
  {
    StandsSound(c, steps, y, p, UndoUncaught);
    StandsConserved(c, steps, y, p);
    last := HomeThenTrackerBroken(c, y, p);
    more := LeadsIsRun(c, false, y, last);
  }

  lemma {:induction false} HomeThenTrackerBroken(c: Config, y: Crew, p: int) returns (last: Crew)
    requires ValidConfig(c) && Comes(c, false, y, y, p) && AnnouncedTooLate(y, p)
    requires Token(c, p, ViewOf(y.s, p)) && Conserved(c, p, ViewOf(y.s, p)) && Traced(c, ViewOf(y.s, p))
    ensures Comes(c, false, y, last, p) && p in Committable(last.s.records)
    ensures !last.s.trail[p].fate.Undone? && TrackerReport(last.s.trail[p].sent, last.s.trail[p].acked) == None
  {
    LateIsNotCarried(c, y, y, p);
    var home := PlayHome(c, y, y, p);
    UnmovedBooks(c, p, ViewOf(y.s, p), ViewOf(home.s, p));
    last := TrackerBroken(c, y, home, p);
  }

  lemma {:induction false} TrackerBroken(c: Config, y0: Crew, y: Crew, p: int) returns (last: Crew)
    requires ValidConfig(c) && Comes(c, false, y0, y, p) && y.desk == Free && AnnouncedTooLate(y, p)
    requires Conserved(c, p, ViewOf(y.s, p)) && Traced(c, ViewOf(y.s, p)) && ViewOf(y.s, p).t.phase != Revoking
    ensures Comes(c, false, y0, last, p) && p in Committable(last.s.records)
    ensures !last.s.trail[p].fate.Undone? && TrackerReport(last.s.trail[p].sent, last.s.trail[p].acked) == None
  {
    assert Token(c, p, ViewOf(y.s, p)) by {
      SoundHere(c, false, y0, y, p);
    }
    last := y;
    if ViewOf(y.s, p).t.phase == Unassigned {
      last := PlayGain(c, y0, last, p);
    } else {
      NothingTracked(c, p, ViewOf(y.s, p));
    }
    last := StaleProcess(c, y0, last, p);
  }

  // ---- The account of the undo ----

  /** The report passes an unhandled message although nothing was undone. */
  ghost predicate Misreported(s: State, p: int) {
    && p in s.trail && p in Committable(s.records)
    && PassesUnhandled(s, p, Committable(s.records)[p]) && !s.trail[p].fate.Undone?
  }

  lemma {:induction false} ReportedLow(s: State, p: int, m: Message)
    requires p in s.trail && Reported(ViewOf(s, p).rec).Some? && s.trail[p].fate == Fresh && s.trail[p].acked == {}
    requires m in s.trail[p].sent && m.offset < Reported(ViewOf(s, p).rec).value
    ensures Misreported(s, p)
  {
  }

  /** A batch of an earlier assignment is about to be announced above a message of this one. */
  predicate AnnouncedAbove(c: Config, y: Crew, p: int)
    requires p in y.s.trail
  {
    var v := ViewOf(y.s, p);
    FlightFits(v, Announce) && !IsCurrent(v) && !BelowTheRest(c, p, v, Carry(Announce, false))
  }

  lemma NothingAcked(c: Config, p: int, v: View)
    requires p in c.logs && Conserved(c, p, v) && Traced(c, v) && v.t.fate == Fresh
    ensures v.t.handled == [] && v.t.acked == {}
  {
    assert OffsetsOf([]) == {};
  }

  /** If the log goes on at or below the offset, its next message does. */
  lemma NextIsLow(c: Config, p: int, offset: int, k: nat)
    requires ValidConfig(c) && p in c.logs && !BelowLog(offset, c.logs[p], k)
    ensures k < |c.logs[p]| && c.logs[p][k].offset <= offset
  {
  }

  /** A message at or below the announced batch has been sent, or is delivered now. */
  lemma {:induction false} SendLow(c: Config, y: Crew, p: int) returns (y': Crew, m: Message)
    requires ValidConfig(c) && Comes(c, false, y, y, p) && y.desk == Free && AnnouncedAbove(c, y, p)
    ensures Comes(c, false, y, y', p) && y'.desk == Free
    ensures var v, w := ViewOf(y.s, p), ViewOf(y'.s, p);
      && w.flight == v.flight && w.buf.Some? && w.t.gen == v.t.gen && w.t.fate == v.t.fate && w.t.acked == v.t.acked
      && m in w.t.sent && m.offset <= v.flight.value.batch.maxOffset
  {
    var v := ViewOf(y.s, p);
    var max := v.flight.value.batch.maxOffset;
    y' := y;
    if BelowAll(max, v.t.sent) {
      NextIsLow(c, p, max, v.t.pos);
      m := c.logs[p][v.t.pos];
      y' := PlayFeed(c, y, y, p, 1);
      assert c.logs[p][v.t.pos..v.t.pos + 1] == [m];
    } else {
      var j :| 0 <= j < |v.t.sent| && v.t.sent[j].offset <= max;
      m := v.t.sent[j];
    }
  }

  lemma {:induction false} AnnouncedAboveMisreports(c: Config, y: Crew, p: int) returns (last: Crew)
    requires ValidConfig(c) && Comes(c, false, y, y, p) && y.desk == Free && AnnouncedAbove(c, y, p)
    requires ViewOf(y.s, p).t.fate == Fresh && ViewOf(y.s, p).t.acked == {}
    ensures Comes(c, false, y, last, p) && Misreported(last.s, p)
  {
    var low, m := SendLow(c, y, p);
    last := StaleProcess(c, y, low, p);
    ReportedLow(last.s, p, m);
  }

  /** An assignment is about to begin with a record that may still be completed. */
  predicate AboutToInherit(y: Crew, p: int)
    requires p in y.s.trail
  {
    var v := ViewOf(y.s, p);
    y.desk == Free && v.t.phase == Unassigned && v.rec.Some? && !Dead(v)
  }

  /** Announced and neither refused nor abandoned. */
  predicate UnderWay(v: View) {
    v.flight.Some? && v.flight.value.stage in {Announced, Queued, Working, Handled}
  }

  lemma InheritedIsUnderWay(c: Config, p: int, v: View)
    requires p in c.logs && Token(c, p, v) && Conserved(c, p, v) && Traced(c, v)
    requires v.t.phase == Unassigned && v.rec.Some? && !Dead(v)
    ensures v.flight.Some? ==> UnderWay(v) && v.flight.value.batch.maxOffset == v.rec.value.maxOffset
    ensures v.flight.None? ==> v.rec.value.completed && (v.buf.Some? ==> !v.buf.value.inFlight)
    ensures v.flight.Some? ==> v.buf.Some? && !v.buf.value.armed
    ensures v.buf.Some? ==> v.buf.value.messages == []
  {
  }

  /** A batch of an earlier assignment is carried to its end. */
  lemma {:induction false} PlayFinish(c: Config, y0: Crew, y: Crew, p: int) returns (y': Crew)
    requires ValidConfig(c) && Comes(c, false, y0, y, p) && y.desk == Free
    requires var v := ViewOf(y.s, p); UnderWay(v) && !IsCurrent(v) && v.rec.Some? && v.buf.Some?
    requires var v := ViewOf(y.s, p); v.flight.value.stage == Handled ==> v.rec.value.completed
    ensures Comes(c, false, y0, y', p) && y'.desk == Free
    ensures var v, w := ViewOf(y.s, p), ViewOf(y'.s, p);
      && Reported(w.rec) == Some(v.rec.value.maxOffset + 1) && w.t == v.t.(done := w.t.done)
      && FlightFits(w, Sweep) && w.buf == v.buf && !IsCurrent(w)
  {
    if ViewOf(y.s, p).flight.value.stage == Handled {
      y' := y;
    } else {
      var working := PlayUntilAtWorker(c, y0, y, p);
      y' := FinishStale(c, y0, working, p);
    }
  }

  lemma {:induction false} FinishStale(c: Config, y0: Crew, y: Crew, p: int) returns (y': Crew)
    requires ValidConfig(c) && Comes(c, false, y0, y, p) && y.desk == Free
    requires var v := ViewOf(y.s, p); FlightFits(v, Complete) && !IsCurrent(v) && v.rec.Some?
    ensures Comes(c, false, y0, y', p) && y'.desk == Free
    ensures var v, w := ViewOf(y.s, p), ViewOf(y'.s, p);
      && Reported(w.rec) == Some(v.rec.value.maxOffset + 1) && w.t == v.t.(done := w.t.done)
      && FlightFits(w, Sweep) && w.buf == v.buf && !IsCurrent(w)
  {
    y' := PlayFlight(c, false, y0, y, p, Complete);
  }

  lemma {:induction false} PlayUntilAtWorker(c: Config, y0: Crew, y: Crew, p: int) returns (y': Crew)
    requires ValidConfig(c) && Comes(c, false, y0, y, p) && y.desk == Free
    requires UnderWay(ViewOf(y.s, p)) && ViewOf(y.s, p).flight.value.stage != Handled && ViewOf(y.s, p).buf.Some?
    ensures Comes(c, false, y0, y', p) && y'.desk == Free && ViewOf(y'.s, p) == VMove(ViewOf(y.s, p), Working)
  {
    y' := y;
    match ViewOf(y.s, p).flight.value.stage {
      case Announced => y' := PlayToWorker(c, false, y0, y, p);
      case Queued => y' := PlayServed(c, false, y0, y, p);
      case Working =>
    }
  }

  /** `w` has sent one message, and reports what `v` left in its record. */
  predicate Inherited(c: Config, v: View, w: View, p: int)
    requires p in c.logs && v.rec.Some? && Resume(c, p, v) < |c.logs[p]|
  {
    var m := c.logs[p][Resume(c, p, v)];
    && Reported(w.rec) == Some(v.rec.value.maxOffset + 1) && w.t.sent == [m]
    && w.t.fate == Fresh && w.t.acked == {} && w.t.gen == v.t.gen + 1
    && w.buf.Some? && w.buf.value.messages == [m]
  }

  /** The new assignment begins, delivers its first message, and the inherited record is complete. */
  lemma {:induction false} InheritAndDeliver(c: Config, y: Crew, p: int) returns (last: Crew)
    requires ValidConfig(c) && Comes(c, false, y, y, p) && AboutToInherit(y, p)
    requires var v := ViewOf(y.s, p);
      && Token(c, p, v) && Conserved(c, p, v) && Traced(c, v) && Resume(c, p, v) < |c.logs[p]|
    ensures Comes(c, false, y, last, p)
    ensures Inherited(c, ViewOf(y.s, p), ViewOf(last.s, p), p)
    ensures var v, w := ViewOf(y.s, p), ViewOf(last.s, p);
      && (v.flight.None? ==> last.desk == InSend(p, None) && w.flight.None? && !w.buf.value.inFlight)
      && (v.flight.Some? ==> last.desk == Free && FlightFits(w, Sweep))
  {
    InheritedIsUnderWay(c, p, ViewOf(y.s, p));
    if ViewOf(y.s, p).flight.None? {
      last := InheritAndSend(c, y, p);
    } else {
      last := InheritAndFinish(c, y, p);
    }
  }

  /** With nothing in flight, Send has appended the message. */
  lemma {:induction false} InheritAndSend(c: Config, y: Crew, p: int) returns (last: Crew)
    requires ValidConfig(c) && Comes(c, false, y, y, p) && y.desk == Free
    requires var v := ViewOf(y.s, p);
      && v.t.phase == Unassigned && v.rec.Some? && v.rec.value.completed && v.flight.None?
      && Resume(c, p, v) < |c.logs[p]|
      && (v.buf.Some? ==> v.buf.value.messages == [] && !v.buf.value.inFlight)
    ensures Comes(c, false, y, last, p) && last.desk == InSend(p, None)
    ensures Inherited(c, ViewOf(y.s, p), ViewOf(last.s, p), p)
    ensures ViewOf(last.s, p).flight.None? && !ViewOf(last.s, p).buf.value.inFlight
  {
    var k := Resume(c, p, ViewOf(y.s, p));
    assert [] + c.logs[p][k..k + 1] == [c.logs[p][k]];
    var gained := PlayGain(c, y, y, p);
    last := Play(c, false, y, gained, Arrive(p, 1), p);
  }

  /** With a batch under way, Send has returned and the batch is handled. */
  lemma {:induction false} InheritAndFinish(c: Config, y: Crew, p: int) returns (last: Crew)
    requires ValidConfig(c) && Comes(c, false, y, y, p) && y.desk == Free
    requires var v := ViewOf(y.s, p);
      && v.t.phase == Unassigned && v.rec.Some? && UnderWay(v) && Resume(c, p, v) < |c.logs[p]|
      && v.flight.value.gen <= v.t.gen && (v.flight.value.stage == Handled ==> v.rec.value.completed)
      && v.buf.Some? && v.buf.value.messages == []
    ensures Comes(c, false, y, last, p) && last.desk == Free
    ensures Inherited(c, ViewOf(y.s, p), ViewOf(last.s, p), p) && FlightFits(ViewOf(last.s, p), Sweep)
  {
    var k := Resume(c, p, ViewOf(y.s, p));
    assert [] + c.logs[p][k..k + 1] == [c.logs[p][k]];
    var gained := PlayGain(c, y, y, p);
    last := FeedAndFinish(c, y, gained, p);
  }

  lemma {:induction false} FeedAndFinish(c: Config, y0: Crew, y: Crew, p: int) returns (y': Crew)
    requires ValidConfig(c) && Comes(c, false, y0, y, p) && y.desk == Free
    requires var v := ViewOf(y.s, p); UnderWay(v) && !IsCurrent(v) && v.rec.Some? && v.buf.Some?
    requires var v := ViewOf(y.s, p); v.flight.value.stage == Handled ==> v.rec.value.completed
    requires PartFits(c, p, ViewOf(y.s, p), Deliver(1))
    ensures Comes(c, false, y0, y', p) && y'.desk == Free
    ensures var v, w := VDeliver(c, p, ViewOf(y.s, p), 1), ViewOf(y'.s, p);
      && Reported(w.rec) == Some(v.rec.value.maxOffset + 1) && w.t == v.t.(done := w.t.done)
      && FlightFits(w, Sweep) && w.buf == v.buf
  {
    y' := PlayFeed(c, y0, y, p, 1);
    y' := PlayFinish(c, y0, y', p);
  }

  lemma {:induction false} InheritedMisreports(c: Config, y: Crew, p: int) returns (last: Crew)
    requires ValidConfig(c) && Comes(c, false, y, y, p) && AboutToInherit(y, p)
    requires var v := ViewOf(y.s, p);
      && Token(c, p, v) && Conserved(c, p, v) && Traced(c, v)
      && !BelowLog(v.rec.value.maxOffset, c.logs[p], Resume(c, p, v))
    ensures Comes(c, false, y, last, p) && Misreported(last.s, p)
  {
    var v := ViewOf(y.s, p);
    NextIsLow(c, p, v.rec.value.maxOffset, Resume(c, p, v));
    last := InheritAndDeliver(c, y, p);
    ReportedLow(last.s, p, c.logs[p][Resume(c, p, v)]);
  }

  /**
   * The condition of the account is exact before Close, among schedules in which no undo is
   * caught: a late announcement, and an assignment that inherits a record, each lead to a
   * report that passes an unhandled message with nothing undone, if and only if the record
   * is not below everything the assignment has sent or can send.
   */
  lemma {:induction false} RecordAboveTheRestMisreports(c: Config, steps: seq<CrewStep>, y: Crew, p: int)
    returns (more: seq<CrewStep>, last: Crew)
    requires ValidConfig(c) && Stands(c, steps, y, p, UndoUncaught)
    requires AnnouncedAbove(c, y, p)
          || (AboutToInherit(y, p) && !BelowTheRest(c, p, ViewOf(y.s, p), Part(Assign)))
    ensures CrewRun(c, y, more, last) && Misreported(last.s, p)
  {
    StandsSound(c, steps, y, p, UndoUncaught);
    StandsConserved(c, steps, y, p);
    if AnnouncedAbove(c, y, p) {
      NothingAcked(c, p, ViewOf(y.s, p));
      LateIsNotCarried(c, y, y, p);
      var home := PlayHome(c, y, y, p);
      AnewFrom(c, y, home, p);
      last := AnnouncedAboveMisreports(c, home, p);
      LeadsJoin(c, false, y, home, last);
    } else {
      last := InheritedMisreports(c, y, p);
    }
    more := LeadsIsRun(c, false, y, last);
  }

  // ---- Reports that go down ----

  /** Two reports of the same assignment, the second lower. */
  ghost predicate GoesDown(s: State, s': State, p: int) {
    && p in s.trail && p in s'.trail && s.trail[p].gen == s'.trail[p].gen
    && p in Committable(s.records) && p in Committable(s'.records)
    && Committable(s'.records)[p] < Committable(s.records)[p]
  }

  /** A batch of an earlier assignment is about to be announced above the end of this one's first batch. */
  predicate AnnouncedOverFirst(c: Config, y: Crew, p: int)
    requires p in y.s.trail
  {
    var v := ViewOf(y.s, p);
    FlightFits(v, Announce) && !IsCurrent(v) && !NotAboveTheFirst(c, p, v, Carry(Announce, false))
  }

  /** The first batch of the assignment is cut by the sweep of the stale one, and handled. */
  lemma {:induction false} FirstBatchReports(c: Config, y0: Crew, y: Crew, p: int) returns (y': Crew)
    requires ValidConfig(c) && Comes(c, false, y0, y, p) && y.desk == Free
    requires var v := ViewOf(y.s, p); FlightFits(v, Sweep) && v.buf.value.messages != []
    ensures Comes(c, false, y0, y', p) && ViewOf(y'.s, p).t.gen == ViewOf(y.s, p).t.gen
    ensures var ms := ViewOf(y.s, p).buf.value.messages;
      Reported(ViewOf(y'.s, p).rec) == Some(ms[Least(c.batchSize, |ms|) - 1].offset + 1)
  {
    var cut := PlayNext(c, false, y0, y, p);
    y' := PlayWhole(c, false, y0, cut, p);
  }

  lemma {:induction false} NothingLiveButTheBuffer(c: Config, p: int, v: View)
    requires p in c.logs && Conserved(c, p, v) && Traced(c, v) && v.t.fate == Fresh && v.t.phase == Assigned
    requires v.flight.Some? && !IsCurrent(v) && v.buf.Some?
    ensures v.buf.value.messages == v.t.sent
  {
    assert Rest(v) == v.buf.value.messages;
    assert [] + Rest(v) == Rest(v);
  }

  /** Something is buffered and the first batch that can be cut ends below the announced one. */
  lemma {:induction false} FeedIfEmpty(c: Config, y: Crew, p: int) returns (y': Crew)
    requires ValidConfig(c) && Comes(c, false, y, y, p) && y.desk == Free && AnnouncedOverFirst(c, y, p)
    requires Conserved(c, p, ViewOf(y.s, p)) && Traced(c, ViewOf(y.s, p))
    ensures Comes(c, false, y, y', p) && y'.desk == Free && FlightFits(ViewOf(y'.s, p), Announce)
    ensures !IsCurrent(ViewOf(y'.s, p))
    ensures ViewOf(y'.s, p).flight == ViewOf(y.s, p).flight && ViewOf(y'.s, p).t.gen == ViewOf(y.s, p).t.gen
    ensures var ms := ViewOf(y'.s, p).buf.value.messages;
      ms != [] && ms[Least(c.batchSize, |ms|) - 1].offset < ViewOf(y.s, p).flight.value.batch.maxOffset
  {
    var v := ViewOf(y.s, p);
    NothingLiveButTheBuffer(c, p, v);
    y' := y;
    if v.t.sent == [] {
      var k := v.t.pos;
      assert k < |c.logs[p]| && c.logs[p][k].offset < v.flight.value.batch.maxOffset;
      assert [] + c.logs[p][k..k + 1] == [c.logs[p][k]];
      y' := PlayFeed(c, y, y, p, 1);
    }
  }

  lemma {:induction false} AnnouncedOverFirstGoesDown(c: Config, y: Crew, p: int) returns (mid: Crew, last: Crew)
    requires ValidConfig(c) && Comes(c, false, y, y, p) && y.desk == Free && AnnouncedOverFirst(c, y, p)
    requires Conserved(c, p, ViewOf(y.s, p)) && Traced(c, ViewOf(y.s, p))
    ensures Comes(c, false, y, mid, p) && Comes(c, false, mid, last, p) && GoesDown(mid.s, last.s, p)
  {
    var fed := FeedIfEmpty(c, y, p);
    mid := StaleProcess(c, y, fed, p);
    last := LowerNext(c, y, mid, p);
  }

  /** The stale report stands, and the first batch that can be cut ends below it. */
  lemma {:induction false} LowerNext(c: Config, y: Crew, mid: Crew, p: int) returns (last: Crew)
    requires ValidConfig(c) && Comes(c, false, y, mid, p) && mid.desk == Free
    requires var v := ViewOf(mid.s, p); FlightFits(v, Sweep) && v.buf.value.messages != [] && Reported(v.rec).Some?
    requires var v, ms := ViewOf(mid.s, p), ViewOf(mid.s, p).buf.value.messages;
      ms[Least(c.batchSize, |ms|) - 1].offset + 1 < Reported(v.rec).value
    ensures Comes(c, false, mid, last, p) && GoesDown(mid.s, last.s, p)
  {
    AnewFrom(c, y, mid, p);
    last := FirstBatchReports(c, mid, mid, p);
  }

  lemma {:induction false} InheritedGoesDown(c: Config, y: Crew, p: int) returns (mid: Crew, last: Crew)
    requires ValidConfig(c) && Comes(c, false, y, y, p) && AboutToInherit(y, p)
    requires var v := ViewOf(y.s, p);
      && Token(c, p, v) && Conserved(c, p, v) && Traced(c, v)
      && Resume(c, p, v) < |c.logs[p]| && c.logs[p][Resume(c, p, v)].offset < v.rec.value.maxOffset
    ensures Comes(c, false, y, mid, p) && Comes(c, false, mid, last, p) && GoesDown(mid.s, last.s, p)
  {
    mid := InheritAndDeliver(c, y, p);
    AnewFrom(c, y, mid, p);
    last := SingleReports(c, mid, p);
  }

  /** Whoever comes next, Send or the sweep, cuts the one buffered message, and it is handled. */
  lemma {:induction false} SingleReports(c: Config, y: Crew, p: int) returns (y': Crew)
    requires ValidConfig(c) && Comes(c, false, y, y, p)
    requires var v := ViewOf(y.s, p);
      && v.buf.Some? && |v.buf.value.messages| == 1
      && ((y.desk == InSend(p, None) && v.flight.None? && !v.buf.value.inFlight)
          || (y.desk == Free && FlightFits(v, Sweep)))
    ensures Comes(c, false, y, y', p) && ViewOf(y'.s, p).t.gen == ViewOf(y.s, p).t.gen
    ensures Reported(ViewOf(y'.s, p).rec) == Some(ViewOf(y.s, p).buf.value.messages[0].offset + 1)
  {
    if y.desk == Free {
      y' := FirstBatchReports(c, y, y, p);
    } else {
      var cut := PlaySendCut(c, false, y, y, p);
      y' := PlayWhole(c, false, y, cut, p);
    }
  }

  lemma {:induction false} HomeThenGoesDown(c: Config, y: Crew, p: int) returns (mid: Crew, last: Crew)
    requires ValidConfig(c) && Comes(c, false, y, y, p) && AnnouncedOverFirst(c, y, p)
    requires Token(c, p, ViewOf(y.s, p)) && Conserved(c, p, ViewOf(y.s, p)) && Traced(c, ViewOf(y.s, p))
    ensures Comes(c, false, y, mid, p) && Comes(c, false, mid, last, p) && GoesDown(mid.s, last.s, p)
  {
    LateIsNotCarried(c, y, y, p);
    var home := PlayHome(c, y, y, p);
    UnmovedBooks(c, p, ViewOf(y.s, p), ViewOf(home.s, p));
    AnewFrom(c, y, home, p);
    mid, last := AnnouncedOverFirstGoesDown(c, home, p);
    LeadsJoin(c, false, y, home, mid);
  }

  lemma {:induction false} ToLowerReport(c: Config, y: Crew, p: int) returns (mid: Crew, last: Crew)
    requires ValidConfig(c) && Comes(c, false, y, y, p)
    requires Token(c, p, ViewOf(y.s, p)) && Conserved(c, p, ViewOf(y.s, p)) && Traced(c, ViewOf(y.s, p))
    requires AnnouncedOverFirst(c, y, p)
          || (AboutToInherit(y, p) && !NotAboveTheFirst(c, p, ViewOf(y.s, p), Part(Assign)))
    ensures Comes(c, false, y, mid, p) && Comes(c, false, mid, last, p) && GoesDown(mid.s, last.s, p)
  {
    if AnnouncedOverFirst(c, y, p) {
      mid, last := HomeThenGoesDown(c, y, p);
    } else {
      var v := ViewOf(y.s, p);
      var k := Resume(c, p, v);
      assert k < |c.logs[p]| && c.logs[p][k].offset < v.rec.value.maxOffset;
      mid, last := InheritedGoesDown(c, y, p);
    }
  }

  /**
   * The condition of monotone reports is exact before Close, among schedules in which no
   * undo is caught: a late announcement, and an assignment that inherits a record, each lead
   * to a lower report of the same assignment, if and only if its first batch can end below.
   */
  lemma {:induction false} RecordAboveFirstBatchGoesDown(c: Config, steps: seq<CrewStep>, y: Crew, p: int)
    returns (more: seq<CrewStep>, mid: Crew, rest: seq<CrewStep>, last: Crew)
    requires ValidConfig(c) && Stands(c, steps, y, p, UndoUncaught)
    requires AnnouncedOverFirst(c, y, p)
          || (AboutToInherit(y, p) && !NotAboveTheFirst(c, p, ViewOf(y.s, p), Part(Assign)))
    ensures CrewRun(c, y, more, mid) && CrewRun(c, mid, rest, last) && GoesDown(mid.s, last.s, p)
  {
    StandsSound(c, steps, y, p, UndoUncaught);
    StandsConserved(c, steps, y, p);
    mid, last := ToLowerReport(c, y, p);
    more := LeadsIsRun(c, false, y, mid);
    rest := LeadsIsRun(c, false, mid, last);
  }

  // ---- The same after a caught undo ----

  /** A revocation catches the undo, or a refusal comes after one. */
  predicate AboutToCatch(c: Config, y: Crew, p: int)
    requires p in y.s.trail
  {
    UndoOpen(y, p) || LateRefusal(c, y, p)
  }

  lemma FullIsBusy(c: Config, s: State)
    requires ValidConfig(c) && ChannelMatches(c, s) && |s.channel| >= c.channelCap
    ensures Busy(s)
  {
    assert Known(s, s.channel[0]) && Due(s, s.channel[0]);
  }

  lemma {:induction false} CatchSound(c: Config, steps: seq<CrewStep>, y: Crew, p: int)
    requires ValidConfig(c) && Stands(c, steps, y, p, UndoUncaught) && AboutToCatch(c, y, p)
    ensures Comes(c, false, y, y, p) && Token(c, p, ViewOf(y.s, p)) && Conserved(c, p, ViewOf(y.s, p))
    ensures LateRefusal(c, y, p) ==> Busy(y.s)
  {
    StandsSound(c, steps, y, p, UndoUncaught);
    StandsConserved(c, steps, y, p);
    if LateRefusal(c, y, p) {
      SoundHere(c, false, y, y, p);
      FullIsBusy(c, y.s);
    }
  }

  /** Either way the batch is back in the next assignment. */
  lemma {:induction false} CaughtAndBack(c: Config, y: Crew, p: int) returns (y': Crew)
    requires ValidConfig(c) && Comes(c, false, y, y, p) && AboutToCatch(c, y, p)
    requires Token(c, p, ViewOf(y.s, p)) && Conserved(c, p, ViewOf(y.s, p))
    ensures Comes(c, false, y, y', p) && y'.desk == Free && (Busy(y.s) ==> Busy(y'.s))
    ensures BackAgain(c, p, ViewOf(y.s, p), ViewOf(y'.s, p))
  {
    if UndoOpen(y, p) {
      y' := BackInNextAssignment(c, y, y, p);
    } else {
      y' := RefusedAndBack(c, y, p);
    }
  }

  lemma {:induction false} RefusedAndBack(c: Config, y: Crew, p: int) returns (y': Crew)
    requires ValidConfig(c) && Comes(c, false, y, y, p) && LateRefusal(c, y, p)
    requires Token(c, p, ViewOf(y.s, p)) && Conserved(c, p, ViewOf(y.s, p))
    ensures Comes(c, false, y, y', p) && y'.desk == Free && (Busy(y.s) ==> Busy(y'.s))
    ensures BackAgain(c, p, ViewOf(y.s, p), ViewOf(y'.s, p))
  {
    var refused := PlayLateRefusal(c, y, p);
    y' := BackFromRefused(c, y, refused, p);
  }

  lemma {:induction false} BackFromRefused(c: Config, y0: Crew, y: Crew, p: int) returns (y': Crew)
    requires ValidConfig(c) && Comes(c, false, y0, y, p) && y.desk == Free && InUndo(ViewOf(y.s, p))
    requires var v := ViewOf(y.s, p);
      v.buf.Some? && v.t.phase != Revoking && (v.t.phase == Unassigned ==> v.buf.value.messages == [])
    ensures Comes(c, false, y0, y', p) && y'.desk == Free && (Busy(y.s) ==> Busy(y'.s))
    ensures BackAgain(c, p, ViewOf(y.s, p), ViewOf(y'.s, p))
  {
    assert Token(c, p, ViewOf(y.s, p)) by {
      SoundHere(c, false, y0, y, p);
    }
    if ViewOf(y.s, p).t.phase == Assigned {
      y' := BackInNextAssignment(c, y0, y, p);
    } else {
      y' := PlayBackAndGain(c, y0, y, p);
    }
  }

  /** The batch of `v` was handled in the next assignment, which has sent `n` messages and handled none of them. */
  ghost predicate Again(c: Config, p: int, v: View, w: View, n: nat)
    requires p in c.logs && v.flight.Some? && Resume(c, p, v) + n <= |c.logs[p]|
  {
    var b, k := v.flight.value.batch, Resume(c, p, v);
    && Reported(w.rec) == Some(b.maxOffset + 1) && FlightFits(w, Sweep)
    && w.buf.value.messages == c.logs[p][k..k + n]
    && w.t == Trail(Assigned, v.t.gen + 1, k, k + n, c.logs[p][k..k + n], b.messages, [], OffsetsOf(b.messages),
                    Finished, v.t.done + OffsetsOf(b.messages))
  }

  /** `w` is `v` after its first batch was carried to its end. */
  ghost predicate FirstDone(v: View, w: View)
    requires v.flight.Some?
  {
    var b := v.flight.value.batch;
    && Reported(w.rec) == Some(b.maxOffset + 1) && FlightFits(w, Sweep) && w.buf == v.buf
    && w.t == v.t.(handled := b.messages, acked := OffsetsOf(b.messages), fate := Finished,
                   done := v.t.done + OffsetsOf(b.messages))
  }

  lemma WholeIsDone(v: View)
    requires FlightFits(v, CheckClosed) && IsCurrent(v) && v.t.acked == {} && v.t.handled == []
    ensures FirstDone(v, VComplete(VMove(VAnnounce(VMove(v, Checked)), Working)))
  {
    var ms := v.flight.value.batch.messages;
    assert {} + OffsetsOf(ms) == OffsetsOf(ms) && [] + ms == ms;
  }

  lemma {:induction false} WholeBatch(c: Config, y0: Crew, y: Crew, p: int) returns (y': Crew)
    requires ValidConfig(c) && Comes(c, false, y0, y, p) && DeskOk(y, p) && FlightFits(ViewOf(y.s, p), CheckClosed)
    requires var v := ViewOf(y.s, p); IsCurrent(v) && v.t.acked == {} && v.t.handled == []
    ensures Comes(c, false, y0, y', p) && y'.desk == Free && FirstDone(ViewOf(y.s, p), ViewOf(y'.s, p))
  {
    y' := PlayWhole(c, false, y0, y, p);
    WholeIsDone(ViewOf(y.s, p));
  }

  /** Another batch's sweep cuts what was put back, before anything is delivered. */
  lemma {:induction false} SweptAgain(c: Config, y0: Crew, v: View, y: Crew, p: int) returns (y': Crew)
    requires ValidConfig(c) && Comes(c, false, y0, y, p) && y.desk == Free && Busy(y.s)
    requires Token(c, p, v) && v.flight.Some? && BackAgain(c, p, v, ViewOf(y.s, p))
    ensures Comes(c, false, y0, y', p) && y'.desk == Free && Again(c, p, v, ViewOf(y'.s, p), 0)
  {
    var ms := v.flight.value.batch.messages;
    assert ms[..|ms|] == ms && ms[|ms|..] == [];
    var cut := PlaySweptAlong(c, y0, y, p);
    y' := WholeBatch(c, y0, cut, p);
  }

  /** Send cuts a full batch that was put back, ahead of the message that it delivers. */
  lemma {:induction false} SentAgain(c: Config, y0: Crew, v: View, y: Crew, p: int) returns (y': Crew)
    requires ValidConfig(c) && Comes(c, false, y0, y, p) && y.desk == Free
    requires Token(c, p, v) && v.flight.Some? && BackAgain(c, p, v, ViewOf(y.s, p))
    requires |v.flight.value.batch.messages| == c.batchSize && Resume(c, p, v) < |c.logs[p]|
    ensures Comes(c, false, y0, y', p) && y'.desk == Free && Again(c, p, v, ViewOf(y'.s, p), 1)
  {
    var ms, k := v.flight.value.batch.messages, Resume(c, p, v);
    assert [] + c.logs[p][k..k + 1] == c.logs[p][k..k + 1];
    var sent := Play(c, false, y0, y, Arrive(p, 1), p);
    var cut := FullIsCut(c, y0, sent, p, ms, c.logs[p][k..k + 1]);
    y' := WholeBatch(c, y0, cut, p);
  }

  lemma {:induction false} FullIsCut(c: Config, y0: Crew, y: Crew, p: int, ms: seq<Message>, more: seq<Message>)
    returns (y': Crew)
    requires ValidConfig(c) && Comes(c, false, y0, y, p) && y.desk == InSend(p, None) && |ms| == c.batchSize
    requires ViewOf(y.s, p).buf == Some(Buf(ms + more, false, false))
    ensures Comes(c, false, y0, y', p) && DeskOk(y', p)
    ensures var v := ViewOf(y.s, p);
      ViewOf(y'.s, p) == v.(buf := Some(Buf(more, true, false)),
                            flight := Some(Flight(Batch(p, ms[|ms| - 1].offset, ms), Assembled, v.t.gen,
                                                  v.t.start + |v.t.handled|)))
  {
    assert (ms + more)[..|ms|] == ms && (ms + more)[|ms|..] == more;
    y' := PlaySendCut(c, false, y0, y, p);
  }

  lemma {:induction false} FeedAgain(c: Config, y0: Crew, v: View, y: Crew, p: int, m: nat, n: nat) returns (y': Crew)
    requires ValidConfig(c) && Comes(c, false, y0, y, p) && y.desk == Free && m <= n
    requires v.flight.Some? && Resume(c, p, v) + n <= |c.logs[p]| && Again(c, p, v, ViewOf(y.s, p), m)
    ensures Comes(c, false, y0, y', p) && y'.desk == Free && Again(c, p, v, ViewOf(y'.s, p), n)
  {
    y' := y;
    if m < n {
      y' := PlayFeed(c, y0, y, p, n - m);
      FedAgain(c, p, v, ViewOf(y.s, p), m, n);
    }
  }

  lemma FedAgain(c: Config, p: int, v: View, w: View, m: nat, n: nat)
    requires p in c.logs && v.flight.Some? && m <= n && Resume(c, p, v) + n <= |c.logs[p]| && Again(c, p, v, w, m)
    ensures Again(c, p, v, VDeliver(c, p, w, n - m), n)
  {
    var k := Resume(c, p, v);
    assert c.logs[p][k..k + m] + c.logs[p][k + m..k + n] == c.logs[p][k..k + n];
  }

  /** Some batch is due that will be swept, or the batch is full and will be cut by the next Send. */
  ghost predicate CutBefore(c: Config, y: Crew, p: int, n: nat)
    requires p in y.s.trail
  {
    var v := ViewOf(y.s, p);
    Busy(y.s) || (v.flight.Some? && |v.flight.value.batch.messages| == c.batchSize && n > 0)
  }

  lemma {:induction false} CaughtAndHandled(c: Config, y: Crew, p: int, n: nat) returns (y': Crew)
    requires ValidConfig(c) && Comes(c, false, y, y, p) && AboutToCatch(c, y, p) && CutBefore(c, y, p, n)
    requires Token(c, p, ViewOf(y.s, p)) && Conserved(c, p, ViewOf(y.s, p))
    requires Resume(c, p, ViewOf(y.s, p)) + n <= |c.logs[p]|
    ensures Comes(c, false, y, y', p) && y'.desk == Free && Again(c, p, ViewOf(y.s, p), ViewOf(y'.s, p), n)
  {
    var v := ViewOf(y.s, p);
    var back := CaughtAndBack(c, y, p);
    if Busy(y.s) {
      var swept := SweptAgain(c, y, v, back, p);
      y' := FeedAgain(c, y, v, swept, p, 0, n);
    } else {
      var sent := SentAgain(c, y, v, back, p);
      y' := FeedAgain(c, y, v, sent, p, 1, n);
    }
  }

  lemma {:induction false} AgainDisagrees(c: Config, p: int, v: View, w: View, n: nat)
    requires p in c.logs && v.flight.Some? && n <= 1 && Resume(c, p, v) + n <= |c.logs[p]| && Again(c, p, v, w, n)
    requires n == 1 ==> c.logs[p][Resume(c, p, v)].offset != v.flight.value.batch.maxOffset
    ensures TrackerReport(w.t.sent, w.t.acked) != Some(v.flight.value.batch.maxOffset + 1)
  {
    if n == 1 {
      assert w.t.sent == [c.logs[p][Resume(c, p, v)]];
    }
  }

  /**
   * A refusal that comes after a revocation, and an undo that a revocation catches while
   * some batch is due for a sweep, always lead to a report that no tracker shares. With
   * nothing due, the undo of a full batch does, unless the partition resumes at its last message.
   */
  lemma {:induction false} CaughtUndoBreaksTracker(c: Config, steps: seq<CrewStep>, y: Crew, p: int)
    returns (more: seq<CrewStep>, last: Crew)
    requires ValidConfig(c) && Stands(c, steps, y, p, UndoUncaught)
    requires var v := ViewOf(y.s, p);
      || LateRefusal(c, y, p)
      || (UndoOpen(y, p) && Busy(y.s))
      || (UndoOpen(y, p) && |v.flight.value.batch.messages| == c.batchSize && Resume(c, p, v) < |c.logs[p]|
          && c.logs[p][Resume(c, p, v)].offset != v.flight.value.batch.maxOffset)
    ensures CrewRun(c, y, more, last) && p in last.s.trail && p in Committable(last.s.records)
    ensures !last.s.trail[p].fate.Undone?
    ensures TrackerReport(last.s.trail[p].sent, last.s.trail[p].acked) != Some(Committable(last.s.records)[p])
  {
    CatchSound(c, steps, y, p);
    var n := if Busy(y.s) then 0 else 1;
    last := CaughtAndHandled(c, y, p, n);
    AgainDisagrees(c, p, ViewOf(y.s, p), ViewOf(last.s, p), n);
    more := LeadsIsRun(c, false, y, last);
  }

  /**
   * The exception is one: if the full batch is cut by the next Send and the partition
   * resumes at its last message, that message is handled twice and the tracker agrees.
   */
  lemma {:induction false} HandledTwiceAgrees(c: Config, steps: seq<CrewStep>, y: Crew, p: int)
    returns (more: seq<CrewStep>, last: Crew)
    requires ValidConfig(c) && Stands(c, steps, y, p, UndoUncaught) && AboutToCatch(c, y, p)
    requires var v := ViewOf(y.s, p);
      && |v.flight.value.batch.messages| == c.batchSize && Resume(c, p, v) < |c.logs[p]|
      && c.logs[p][Resume(c, p, v)].offset == v.flight.value.batch.maxOffset
    ensures CrewRun(c, y, more, last) && p in last.s.trail && p in Committable(last.s.records)
    ensures Committable(last.s.records)[p] == ViewOf(y.s, p).flight.value.batch.maxOffset + 1
    ensures TrackerReport(last.s.trail[p].sent, last.s.trail[p].acked) == Some(Committable(last.s.records)[p])
  {
    CatchSound(c, steps, y, p);
    var v := ViewOf(y.s, p);
    var back := CaughtAndBack(c, y, p);
    last := SentAgain(c, y, v, back, p);
    LastIsAcked(c, p, v, ViewOf(last.s, p));
    more := LeadsIsRun(c, false, y, last);
  }

  lemma {:induction false} LastIsAcked(c: Config, p: int, v: View, w: View)
    requires p in c.logs && v.flight.Some? && Token(c, p, v)
    requires Resume(c, p, v) < |c.logs[p]| && c.logs[p][Resume(c, p, v)].offset == v.flight.value.batch.maxOffset
    requires Again(c, p, v, w, 1)
    ensures TrackerReport(w.t.sent, w.t.acked) == Some(v.flight.value.batch.maxOffset + 1)
  {
    var ms := v.flight.value.batch.messages;
    assert ms[|ms| - 1] in ms;
    assert w.t.sent == [c.logs[p][Resume(c, p, v)]];
  }

  /** The condition of the other two: message `j` of the log will be sent, and lies below what comes back. */
  ghost predicate ComesBackAbove(c: Config, y: Crew, p: int, j: nat)
    requires p in y.s.trail && p in c.logs
  {
    var v := ViewOf(y.s, p);
    && (LateRefusal(c, y, p) || (UndoOpen(y, p) && CutBefore(c, y, p, 1)))
    && Resume(c, p, v) <= j < |c.logs[p]| && c.logs[p][j].offset < v.flight.value.batch.maxOffset
  }

  lemma {:induction false} CaughtAndSent(c: Config, steps: seq<CrewStep>, y: Crew, p: int, j: nat) returns (y': Crew)
    requires ValidConfig(c) && Stands(c, steps, y, p, UndoUncaught) && ComesBackAbove(c, y, p, j)
    ensures Comes(c, false, y, y', p) && y'.desk == Free
    ensures Again(c, p, ViewOf(y.s, p), ViewOf(y'.s, p), j + 1 - Resume(c, p, ViewOf(y.s, p)))
  {
    CatchSound(c, steps, y, p);
    y' := CaughtAndHandled(c, y, p, j + 1 - Resume(c, p, ViewOf(y.s, p)));
  }

  lemma {:induction false} AgainGoesDown(c: Config, y0: Crew, v: View, y: Crew, p: int, j: nat) returns (last: Crew)
    requires ValidConfig(c) && Comes(c, false, y0, y, p) && y.desk == Free && v.flight.Some?
    requires Resume(c, p, v) <= j < |c.logs[p]| && c.logs[p][j].offset < v.flight.value.batch.maxOffset
    requires Again(c, p, v, ViewOf(y.s, p), j + 1 - Resume(c, p, v))
    ensures Comes(c, false, y, last, p) && GoesDown(y.s, last.s, p)
  {
    var ms, k := c.logs[p][Resume(c, p, v)..j + 1], Resume(c, p, v);
    var i := Least(c.batchSize, |ms|) - 1;
    assert ms[i] == c.logs[p][k + i] && ms[i].offset <= c.logs[p][j].offset;
    last := LowerNext(c, y0, y, p);
  }

  lemma {:induction false} AgainMisreports(c: Config, v: View, s: State, p: int, j: nat)
    requires p in c.logs && p in s.trail && v.flight.Some? && Resume(c, p, v) <= j < |c.logs[p]|
    requires Again(c, p, v, ViewOf(s, p), j + 1 - Resume(c, p, v))
    requires c.logs[p][j].offset < v.flight.value.batch.maxOffset
    requires c.logs[p][j].offset !in OffsetsOf(v.flight.value.batch.messages)
    ensures Misreported(s, p)
  {
    var k := Resume(c, p, v);
    assert c.logs[p][k..j + 1][j - k] == c.logs[p][j];
    assert c.logs[p][j] in s.trail[p].sent;
  }

  /**
   * If the partition resumes below the last message that comes back, the same schedules
   * lead to a report that is followed by a lower one; and to one that passes an unhandled
   * message, if a message below it was not in the batch.
   */
  lemma {:induction false} CaughtUndoMisreports(c: Config, steps: seq<CrewStep>, y: Crew, p: int, j: nat)
    returns (mid: Crew, last: Crew)
    requires ValidConfig(c) && Stands(c, steps, y, p, UndoUncaught) && ComesBackAbove(c, y, p, j)
    ensures Reached(c, false, y, mid) && Reached(c, false, mid, last) && GoesDown(mid.s, last.s, p)
    ensures c.logs[p][j].offset !in OffsetsOf(ViewOf(y.s, p).flight.value.batch.messages) ==> Misreported(mid.s, p)
  {
    var v := ViewOf(y.s, p);
    mid := CaughtAndSent(c, steps, y, p, j);
    last := AgainGoesDown(c, y, v, mid, p, j);
    if c.logs[p][j].offset !in OffsetsOf(v.flight.value.batch.messages) {
      AgainMisreports(c, v, mid.s, p, j);
    }
    var more := LeadsIsRun(c, false, y, mid);
    var rest := LeadsIsRun(c, false, mid, last);
  }

  /** In the last case the commit is unsafe too, if that message was never handled. */
  lemma {:induction false} CaughtUndoCommitsUnhandled(c: Config, steps: seq<CrewStep>, y: Crew, p: int, j: nat)
    returns (more: seq<CrewStep>, last: Crew)
    requires ValidConfig(c) && Stands(c, steps, y, p, UndoUncaught) && ComesBackAbove(c, y, p, j)
    requires c.logs[p][j].offset !in OffsetsOf(ViewOf(y.s, p).flight.value.batch.messages)
    requires c.logs[p][j].offset !in y.s.trail[p].done
    ensures CrewRun(c, y, more, last) && p in last.s.committed && p in last.s.trail
    ensures c.logs[p][j].offset < last.s.committed[p] && c.logs[p][j].offset !in last.s.trail[p].done
  {
    var handled := CaughtAndSent(c, steps, y, p, j);
    last := PlayCommit(c, y, handled, p);
    more := LeadsIsRun(c, false, y, last);
  }

  // ---- A rebalance while a timer or a sweep dispatches ----

  /** Cut and not yet announced, by a timer's callback or a sweep. */
  predicate Overtakable(y: Crew, p: int)
    requires p in y.s.trail
  {
    var v := ViewOf(y.s, p);
    && NotCarrying(y, p) && v.t.phase == Assigned && v.flight.Some?
    && (v.flight.value.stage == Assembled || v.flight.value.stage == Checked)
  }

  /** The partition is revoked and assigned again before BatchDispatched is called. */
  lemma {:induction false} Overtake(c: Config, y: Crew, p: int) returns (y': Crew)
    requires ValidConfig(c) && Comes(c, false, y, y, p) && Overtakable(y, p) && Token(c, p, ViewOf(y.s, p))
    ensures Comes(c, false, y, y', p) && y'.desk == Free
    ensures var v, w, k := ViewOf(y.s, p), ViewOf(y'.s, p), Resume(c, p, ViewOf(y.s, p));
      && w.t == Trail(Assigned, v.t.gen + 1, k, k, [], [], [], {}, Fresh, v.t.done)
      && FlightFits(w, Announce) && !IsCurrent(w) && w.flight.value.batch == v.flight.value.batch
      && w.buf.value.messages == [] && w.rec.None?
  {
    var home := PlayHome(c, y, y, p);
    var checked := PlayChecked(c, y, home, p);
    var revoked := PlayRevoke(c, y, checked, p);
    y' := PlayGain(c, y, revoked, p);
  }

  lemma {:induction false} PlayChecked(c: Config, y0: Crew, y: Crew, p: int) returns (y': Crew)
    requires ValidConfig(c) && Comes(c, false, y0, y, p) && y.desk == Free && Overtakable(y, p)
    requires ViewOf(y.s, p).buf.Some?
    ensures Comes(c, false, y0, y', p) && y'.desk == Free && ViewOf(y'.s, p) == VMove(ViewOf(y.s, p), Checked)
  {
    y' := y;
    if ViewOf(y.s, p).flight.value.stage == Assembled {
      y' := PlayFlight(c, false, y0, y, p, CheckClosed);
    }
  }

  /**
   * So from every state in which a timer or a sweep has cut a batch and not announced it, a
   * rebalance leads to a report that no tracker shares; to one that passes an unhandled
   * message if the partition resumes at or below the batch's last message; and to one that
   * is followed by a lower one if it resumes below it.
   */
  lemma {:induction false} OvertakenDispatchMisreports(c: Config, steps: seq<CrewStep>, y: Crew, p: int)
    returns (mid: Crew, last: Crew)
    requires ValidConfig(c) && Stands(c, steps, y, p, UndoUncaught) && Overtakable(y, p)
    requires var v := ViewOf(y.s, p);
      Resume(c, p, v) < |c.logs[p]| && c.logs[p][Resume(c, p, v)].offset <= v.flight.value.batch.maxOffset
    ensures Reached(c, false, y, mid) && Misreported(mid.s, p)
    ensures TrackerReport(mid.s.trail[p].sent, mid.s.trail[p].acked) == None
    ensures var v := ViewOf(y.s, p);
      c.logs[p][Resume(c, p, v)].offset < v.flight.value.batch.maxOffset ==>
        Reached(c, false, mid, last) && GoesDown(mid.s, last.s, p)
  {
    var v := ViewOf(y.s, p);
    var k := Resume(c, p, v);
    StandsSound(c, steps, y, p, UndoUncaught);
    mid := OvertakenReport(c, y, p);
    ReportedLow(mid.s, p, c.logs[p][k]);
    var more := LeadsIsRun(c, false, y, mid);
    last := mid;
    if c.logs[p][k].offset < v.flight.value.batch.maxOffset {
      last := LowerNext(c, y, mid, p);
      var rest := LeadsIsRun(c, false, mid, last);
    }
  }

  lemma {:induction false} OvertakenReport(c: Config, y: Crew, p: int) returns (mid: Crew)
    requires ValidConfig(c) && Comes(c, false, y, y, p) && Overtakable(y, p) && Token(c, p, ViewOf(y.s, p))
    requires Resume(c, p, ViewOf(y.s, p)) < |c.logs[p]|
    ensures Comes(c, false, y, mid, p) && mid.desk == Free
    ensures var v, w, m := ViewOf(y.s, p), ViewOf(mid.s, p), c.logs[p][Resume(c, p, ViewOf(y.s, p))];
      && w.t.sent == [m] && w.t.acked == {} && w.t.fate == Fresh && FlightFits(w, Sweep) && w.buf.value.messages == [m]
      && Reported(w.rec) == Some(v.flight.value.batch.maxOffset + 1)
      && TrackerReport(w.t.sent, w.t.acked) == None
  {
    var k := Resume(c, p, ViewOf(y.s, p));
    assert [] + c.logs[p][k..k + 1] == [c.logs[p][k]];
    var over := Overtake(c, y, p);
    var fed := PlayFeed(c, y, over, p, 1);
    mid := StaleProcess(c, y, fed, p);
  }

  /** One partition of two messages, batches of up to three. */
  function TwoMessages(): Config {
    Config(3, 1, map[0 := [Message(0, 0, "a"), Message(0, 1, "b")]])
  }

  /** Send buffers both messages and starts the timer, whose callback cuts them. */
  lemma {:induction false} TimerCutsBoth() returns (y: Crew)
    ensures ValidConfig(TwoMessages()) && Comes(TwoMessages(), false, CrewBoot(TwoMessages()), y, 0)
    ensures Overtakable(y, 0) && ViewOf(y.s, 0).stored.None? && ViewOf(y.s, 0).flight.value.batch.maxOffset == 1
  {
    var c := TwoMessages();
    var log := c.logs[0];
    y := PlayGain(c, CrewBoot(c), CrewBoot(c), 0);
    y := Play(c, false, CrewBoot(c), y, Arrive(0, 2), 0);
    assert [] + log[0..2] == log;
    assert ViewOf(y.s, 0).buf.value.messages == log;
    y := PlaySendCut(c, false, CrewBoot(c), y, 0);
    assert log[..2] == log;
  }

  /** A concrete schedule in which a later report of the same assignment is lower. */
  lemma {:induction false} ReportsGoDownAfterRevokeMidDispatch() returns (mid: Crew, last: Crew)
    ensures ValidConfig(TwoMessages()) && Reached(TwoMessages(), false, CrewBoot(TwoMessages()), mid)
    ensures Reached(TwoMessages(), false, mid, last) && GoesDown(mid.s, last.s, 0)
  {
    var c := TwoMessages();
    var y := TimerCutsBoth();
    AnewFrom(c, CrewBoot(c), y, 0);
    SoundHere(c, false, y, y, 0);
    mid := OvertakenReport(c, y, 0);
    last := LowerNext(c, y, mid, 0);
    LeadsJoin(c, false, CrewBoot(c), y, mid);
    var more := LeadsIsRun(c, false, CrewBoot(c), mid);
    var rest := LeadsIsRun(c, false, mid, last);
  }
}
