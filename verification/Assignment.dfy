/**
 * What holds for a partition within one assignment. Every theorem asks only something of
 * that partition's own steps, whatever happens to the others: any number of partitions,
 * undone dispatches and discarded messages.
 */
module Assignment {
  import opened Types
  import opened Offsets
  import opened Pipeline
  import opened Views
  import opened Ledger
  import opened Delivery
  import opened CommitSafety

  // ---- Conservation ----

  ghost predicate Accounted(s: State, p: int) {
    p in s.trail && Balanced(ViewOf(s, p))
  }

  /** Conservation and order, unless a revocation catches an undo of this partition. */
  lemma {:induction false} NothingLostOrReordered(c: Config, acts: seq<Action>, s: State, p: int)
    requires ValidConfig(c) && Run(c, Init(c), acts, s) && p in c.logs
    requires AllAlong(c, Init(c), acts, p, UndoUncaught)
    ensures Accounted(s, p) && Ascending(s.trail[p].sent)
  {
    InitTokens(c);
    InitConserved(c, p);
    ConservedRun(c, Init(c), acts, s, p);
  }

  /** With at most ChannelCap partitions the same holds in every interleaving whatsoever. */
  lemma {:induction false} NothingLostWithFewPartitions(c: Config, acts: seq<Action>, s: State, p: int)
    requires ValidConfig(c) && Run(c, Init(c), acts, s) && p in c.logs
    requires |s.bufs| <= c.channelCap
    ensures Accounted(s, p) && Ascending(s.trail[p].sent)
  {
    InitTokens(c);
    FewPartitionsNeverUndo(c, acts, s);
    KeptRun(c, Init(c), acts, s, p);
    NothingLostOrReordered(c, acts, s, p);
  }

  lemma {:induction false} TracedRun(c: Config, s: State, acts: seq<Action>, last: State, p: int)
    requires ValidConfig(c) && Tokens(c, s) && Run(c, s, acts, last) && p in s.trail
    requires AllAlong(c, s, acts, p, UndoUncaught) && Conserved(c, p, ViewOf(s, p)) && Traced(c, ViewOf(s, p))
    ensures Tokens(c, last) && p in last.trail && Conserved(c, p, ViewOf(last, p)) && Traced(c, ViewOf(last, p))
    decreases |acts|
  {
    if acts != [] {
      StepView(c, s, acts[0], p);
      ConservedStep(c, p, ViewOf(s, p), SeenBy(s, acts[0], p));
      TracedStep(c, p, ViewOf(s, p), SeenBy(s, acts[0], p));
      TokensStep(c, s, acts[0]);
      TracedRun(c, Apply(c, s, acts[0]), acts[1..], last, p);
    }
  }

  lemma {:induction false} RecordIsOfLog(c: Config, acts: seq<Action>, s: State, p: int)
    requires ValidConfig(c) && Run(c, Init(c), acts, s) && p in s.records
    ensures p in c.logs && p in s.trail
  {
    InitTokens(c);
    TokensRun(c, Init(c), acts, s);
  }

  // ---- The undo, exactly ----

  /** Some message sent in this assignment is below `offset` and not handled. */
  ghost predicate PassesUnhandled(s: State, p: int, offset: int)
    requires p in s.trail
  {
    exists m :: m in s.trail[p].sent && m.offset !in s.trail[p].acked && m.offset < offset
  }

  lemma {:induction false} SentAscends(c: Config, p: int, v: View)
    requires p in c.logs && Conserved(c, p, v)
    ensures Ascending(v.t.handled + Rest(v))
    ensures forall m :: m in v.t.handled ==> m.offset in v.t.acked
    ensures forall m :: m in Rest(v) ==> m.offset !in v.t.acked
  {
    var all := v.t.handled + Rest(v);
    forall m | m in Rest(v) ensures m.offset !in v.t.acked {
      var i :| 0 <= i < |Rest(v)| && Rest(v)[i] == m;
      assert all[|v.t.handled| + i] == m;
      assert forall h :: 0 <= h < |v.t.handled| ==> all[h] == v.t.handled[h] && all[h].offset < m.offset;
    }
  }

  lemma {:induction false} HandledBelowRest(h: seq<Message>, r: seq<Message>)
    requires Ascending(h + r)
    ensures Ascending(r)
    ensures h != [] ==> forall i :: 0 <= i < |r| ==> h[|h| - 1].offset < r[i].offset
  {
    var all := h + r;
    assert forall i :: 0 <= i < |r| ==> all[|h| + i] == r[i];
    assert h != [] ==> all[|h| - 1] == h[|h| - 1];
  }

  lemma {:induction false} UndoneOnView(c: Config, p: int, v: View)
    requires p in c.logs && Token(c, p, v) && Conserved(c, p, v) && Traced(c, v)
    requires v.rec.Some? && v.rec.value.completed && v.t.fate != Fresh
    ensures v.t.fate.Undone? ==> Rest(v) != [] && Rest(v)[0].offset <= v.rec.value.maxOffset
    ensures v.t.fate.Undone? || v.t.fate.Finished?
    ensures v.t.fate.Finished? ==> forall m :: m in Rest(v) ==> m.offset > v.rec.value.maxOffset
  {
    SentAscends(c, p, v);
    HandledBelowRest(v.t.handled, Rest(v));
  }

  /** The condition of the account, for one partition. */
  function BelowRule(c: Config, p: int): (View, Local) -> bool {
    (v, l) => BelowTheRest(c, p, v, l)
  }

  lemma {:induction false} BelowRun(c: Config, s: State, acts: seq<Action>, last: State, p: int)
    requires ValidConfig(c) && Tokens(c, s) && Run(c, s, acts, last) && p in s.trail && p in c.logs
    requires AllAlong(c, s, acts, p, BelowRule(c, p))
    requires Conserved(c, p, ViewOf(s, p)) && Traced(c, ViewOf(s, p)) && StaleIsBelow(c, p, ViewOf(s, p))
    ensures Tokens(c, last) && p in last.trail
    ensures Conserved(c, p, ViewOf(last, p)) && Traced(c, ViewOf(last, p)) && StaleIsBelow(c, p, ViewOf(last, p))
    decreases |acts|
  {
    if acts != [] {
      var v, l := ViewOf(s, p), SeenBy(s, acts[0], p);
      StepView(c, s, acts[0], p);
      ConservedStep(c, p, v, l);
      TracedStep(c, p, v, l);
      StaleIsBelowStep(c, p, v, l);
      TokensStep(c, s, acts[0]);
      BelowRun(c, Apply(c, s, acts[0]), acts[1..], last, p);
    }
  }

  lemma {:induction false} AccountOnView(c: Config, p: int, v: View)
    requires p in c.logs && Token(c, p, v) && Conserved(c, p, v) && Traced(c, v) && StaleIsBelow(c, p, v)
    requires v.rec.Some? && v.rec.value.completed
    ensures (exists m :: m in v.t.sent && m.offset !in v.t.acked && m.offset <= v.rec.value.maxOffset)
         <==> v.t.fate.Undone?
  {
    SentAscends(c, p, v);
    if v.t.fate == Fresh {
      forall m | m in v.t.sent ensures m.offset > v.rec.value.maxOffset {
        assert BelowAll(v.rec.value.maxOffset, v.t.sent);
      }
    } else {
      UndoneOnView(c, p, v);
      if v.t.fate.Undone? {
        assert Rest(v)[0] in v.t.handled + Rest(v);
      } else {
        forall m | m in v.t.sent && m.offset !in v.t.acked ensures m.offset > v.rec.value.maxOffset {
          assert m in v.t.handled + Rest(v);
        }
      }
    }
  }

  /**
   * The offset reported for a partition passes an unhandled message if and only if the
   * partition's latest BatchDispatched was undone by a full channel and no batch of it
   * has been dispatched since.
   */
  lemma {:induction false} ReportPassesUnhandledIffUndone(c: Config, acts: seq<Action>, s: State, p: int)
    requires ValidConfig(c) && Run(c, Init(c), acts, s) && AllAlong(c, Init(c), acts, p, BelowRule(c, p))
    requires p in Committable(s.records)
    ensures p in s.trail
    ensures PassesUnhandled(s, p, Committable(s.records)[p]) <==> s.trail[p].fate.Undone?
  {
    RecordIsOfLog(c, acts, s, p);
    InitTokens(c);
    InitConserved(c, p);
    BelowRun(c, Init(c), acts, s, p);
    AccountOnView(c, p, ViewOf(s, p));
  }

  // ---- Refinement of a contiguous offset tracker ----

  /** How many leading messages of `sent` are acknowledged. */
  ghost function AckedPrefix(sent: seq<Message>, acked: set<int>): (n: nat)
    ensures n <= |sent|
    ensures forall j :: 0 <= j < n ==> sent[j].offset in acked
    ensures n < |sent| ==> sent[n].offset !in acked
  {
    if sent == [] || sent[0].offset !in acked then 0 else 1 + AckedPrefix(sent[1..], acked)
  }

  /** A tracker that remembers every acknowledged offset reports the end of that prefix. */
  ghost function TrackerReport(sent: seq<Message>, acked: set<int>): Option<int> {
    var n := AckedPrefix(sent, acked);
    if n == 0 then None else Some(sent[n - 1].offset + 1)
  }

  lemma {:induction false} PrefixIsHandled(h: seq<Message>, r: seq<Message>, acked: set<int>)
    requires forall m :: m in h ==> m.offset in acked
    requires forall m :: m in r ==> m.offset !in acked
    ensures AckedPrefix(h + r, acked) == |h|
  {
    assert forall j :: 0 <= j < |h| ==> (h + r)[j] == h[j] && h[j] in h;
    assert r != [] ==> (h + r)[|h|] == r[0] && r[0] in r;
  }

  lemma {:induction false} TrackerOnView(c: Config, p: int, v: View)
    requires p in c.logs && Token(c, p, v) && Conserved(c, p, v) && Traced(c, v) && TimelyRecord(v)
    requires v.rec.Some? && v.rec.value.completed && !v.t.fate.Undone?
    ensures TrackerReport(v.t.sent, v.t.acked) == Some(v.rec.value.maxOffset + 1)
  {
    SentAscends(c, p, v);
    PrefixIsHandled(v.t.handled, Rest(v), v.t.acked);
    assert v.t.sent[|v.t.handled| - 1] == v.t.handled[|v.t.handled| - 1];
  }

  lemma {:induction false} TimelyRun(c: Config, s: State, acts: seq<Action>, last: State, p: int)
    requires ValidConfig(c) && Tokens(c, s) && Run(c, s, acts, last) && p in s.trail
    requires AllAlong(c, s, acts, p, InTime)
    requires Conserved(c, p, ViewOf(s, p)) && Traced(c, ViewOf(s, p)) && TimelyRecord(ViewOf(s, p))
    ensures Tokens(c, last) && p in last.trail
    ensures Conserved(c, p, ViewOf(last, p)) && Traced(c, ViewOf(last, p)) && TimelyRecord(ViewOf(last, p))
    decreases |acts|
  {
    if acts != [] {
      var v, l := ViewOf(s, p), SeenBy(s, acts[0], p);
      StepView(c, s, acts[0], p);
      ConservedStep(c, p, v, l);
      TracedStep(c, p, v, l);
      TimelyStep(c, p, v, l);
      TokensStep(c, s, acts[0]);
      TimelyRun(c, Apply(c, s, acts[0]), acts[1..], last, p);
    }
  }

  lemma {:induction false} ReachedTimely(c: Config, acts: seq<Action>, s: State, p: int)
    requires ValidConfig(c) && Run(c, Init(c), acts, s) && AllAlong(c, Init(c), acts, p, InTime) && p in c.logs
    ensures Tokens(c, s) && p in s.trail && Token(c, p, ViewOf(s, p))
    ensures Conserved(c, p, ViewOf(s, p)) && Traced(c, ViewOf(s, p)) && TimelyRecord(ViewOf(s, p))
  {
    InitTokens(c);
    InitConserved(c, p);
    TimelyRun(c, Init(c), acts, s, p);
  }

  /** One record per partition reports what the full tracker reports, unless undone. */
  lemma {:induction false} RecordRefinesTracker(c: Config, acts: seq<Action>, s: State, p: int)
    requires ValidConfig(c) && Run(c, Init(c), acts, s) && AllAlong(c, Init(c), acts, p, InTime)
    requires p in Committable(s.records) && p in s.trail && !s.trail[p].fate.Undone?
    ensures TrackerReport(s.trail[p].sent, s.trail[p].acked) == Some(Committable(s.records)[p])
  {
    RecordIsOfLog(c, acts, s, p);
    ReachedTimely(c, acts, s, p);
    TrackerOnView(c, p, ViewOf(s, p));
  }

  // ---- Reports never go down ----

  /** The offset below which no later report of this assignment can fall. */
  function Floor(v: View): Option<int> {
    match v.t.fate
    case Fresh => None
    case Open => if v.flight.Some? then Some(v.flight.value.batch.maxOffset) else None
    case Finished => if v.t.handled != [] then Some(v.t.handled[|v.t.handled| - 1].offset) else None
    case Undone(k) => if 1 <= k <= |Rest(v)| then Some(Rest(v)[k - 1].offset) else None
  }

  predicate NotAbove(a: Option<int>, b: Option<int>) {
    a.Some? ==> b.Some? && a.value <= b.value
  }

  lemma ReportIsFloor(c: Config, p: int, v: View)
    requires p in c.logs && Token(c, p, v) && Traced(c, v) && v.rec.Some? && v.rec.value.completed && v.t.fate != Fresh
    ensures Floor(v) == Some(v.rec.value.maxOffset)
  {
  }

  /** A batch cut from a partition reaches at least as far as anything reported before. */
  lemma {:induction false} AnnounceRaises(c: Config, p: int, v: View)
    requires p in c.logs && Token(c, p, v) && Conserved(c, p, v) && Traced(c, v) && FlightFits(v, Announce)
    ensures NotAbove(Floor(v), Floor(VAnnounce(v)))
  {
    SentAscends(c, p, v);
    HandledBelowRest(v.t.handled, Rest(v));
    var ms := v.flight.value.batch.messages;
    assert IsCurrent(v) ==> Rest(v)[|ms| - 1] == ms[|ms| - 1];
  }

  lemma {:induction false} CompleteKeepsFloor(c: Config, p: int, v: View)
    requires p in c.logs && Token(c, p, v) && Traced(c, v) && FlightFits(v, Complete)
    ensures NotAbove(Floor(v), Floor(VComplete(v)))
  {
    var ms, done := v.flight.value.batch.messages, VComplete(v).t.handled;
    assert IsCurrent(v) ==> done[|done| - 1] == ms[|ms| - 1];
  }

  lemma {:induction false} UndoKeepsFloor(c: Config, p: int, v: View)
    requires p in c.logs && Token(c, p, v) && Traced(c, v) && FlightFits(v, Undo)
    ensures NotAbove(Floor(v), Floor(VUndo(v)))
  {
    var ms := v.flight.value.batch.messages;
    assert IsCurrent(v) ==> Rest(VUndo(v))[|ms| - 1] == ms[|ms| - 1];
  }

  lemma {:induction false} MoveKeepsFloor(c: Config, p: int, v: View, f: FlightEvent, closed: bool)
    requires p in c.logs && Traced(c, v) && Conserved(c, p, v) && FlightFits(v, f)
    requires !f.Announce? && !f.Undo? && !f.Complete?
    ensures Floor(FlightStep(v, f, closed)) == Floor(v)
  {
    FlightKeepsRest(c, p, v, f, closed);
    assert FlightStep(v, f, closed).t == v.t;
  }

  lemma {:induction false} FloorFlight(c: Config, p: int, v: View, f: FlightEvent, closed: bool)
    requires p in c.logs && Token(c, p, v) && Conserved(c, p, v) && Traced(c, v) && FlightFits(v, f)
    ensures NotAbove(Floor(v), Floor(FlightStep(v, f, closed)))
  {
    match f {
      case Announce => AnnounceRaises(c, p, v);
      case Complete => CompleteKeepsFloor(c, p, v);
      case Undo => UndoKeepsFloor(c, p, v);
      case _ => MoveKeepsFloor(c, p, v, f, closed);
    }
  }

  lemma {:induction false} CutKeepsFloor(c: Config, p: int, v: View)
    requires ValidConfig(c) && p in c.logs && Token(c, p, v) && Conserved(c, p, v) && Traced(c, v)
    requires v.buf.Some? && v.buf.value.messages != [] && !v.buf.value.inFlight
    ensures Floor(Cut(c, p, v)) == Floor(v)
  {
    CutConserves(c, p, v);
  }

  lemma {:induction false} DeliverKeepsFloor(c: Config, p: int, v: View, n: nat)
    requires p in c.logs && PartFits(c, p, v, Deliver(n)) && v.t.dropped == []
    ensures NotAbove(Floor(v), Floor(VDeliver(c, p, v, n)))
  {
    RestGrows(c, p, v, n);
  }

  lemma SameFloor(v: View, v': View)
    requires v'.flight == v.flight && Rest(v') == Rest(v)
    requires v'.t.fate == v.t.fate && v'.t.handled == v.t.handled
    ensures Floor(v') == Floor(v)
  {
  }

  lemma {:induction false} FloorPart(c: Config, p: int, v: View, e: PartEvent)
    requires ValidConfig(c) && p in c.logs && Token(c, p, v) && Conserved(c, p, v) && Traced(c, v)
    requires PartFits(c, p, v, e) && !e.Assign?
    ensures NotAbove(Floor(v), Floor(PartStep(c, p, v, e)))
  {
    var v' := PartStep(c, p, v, e);
    if e.Deliver? {
      DeliverKeepsFloor(c, p, v, e.n);
    } else if v'.flight != v.flight {
      CutKeepsFloor(c, p, v);
    } else {
      assert Rest(v') == Rest(v);
      SameFloor(v, v');
    }
  }

  lemma GenStep(c: Config, p: int, v: View, l: Local)
    requires p in c.logs && c.batchSize > 0 && LocalFits(c, p, v, l)
    ensures LocalStep(c, p, v, l).t.gen == if l == Part(Assign) then v.t.gen + 1 else v.t.gen
  {
  }

  lemma {:induction false} FloorStep(c: Config, p: int, v: View, l: Local)
    requires ValidConfig(c) && p in c.logs && Token(c, p, v) && Conserved(c, p, v) && Traced(c, v)
    requires LocalFits(c, p, v, l) && l != Part(Assign)
    ensures NotAbove(Floor(v), Floor(LocalStep(c, p, v, l)))
  {
    match l {
      case Part(e) => FloorPart(c, p, v, e);
      case Carry(f, closed) => FloorFlight(c, p, v, f, closed);
      case _ =>
        assert Rest(LocalStep(c, p, v, l)) == Rest(v);
        SameFloor(v, LocalStep(c, p, v, l));
    }
  }

  /** In assignment `g`, no later report falls below `r`: neither a stale one nor one of its own. */
  ghost predicate StaysFrom(c: Config, p: int, v: View, g: nat, r: int)
    requires p in c.logs && c.batchSize > 0
  {
    || v.t.gen > g
    || (v.t.gen == g && v.t.fate != Fresh && NotAbove(Some(r), Floor(v)))
    || (v.t.gen == g && v.t.fate == Fresh
        && (v.rec.Some? ==> v.rec.value.maxOffset == r)
        && (Unannounced(v) ==> IsCurrent(v))
        && (IsCurrent(v) ==> r <= v.flight.value.batch.maxOffset)
        && (v.t.phase == Assigned ==> FirstEndsFrom(c, p, v, r)))
  }

  lemma {:induction false} FreshPart(c: Config, p: int, v: View, e: PartEvent, g: nat, r: int)
    requires ValidConfig(c) && p in c.logs && Token(c, p, v) && Conserved(c, p, v) && Traced(c, v)
    requires PartFits(c, p, v, e) && v.t.gen == g && v.t.fate == Fresh && StaysFrom(c, p, v, g, r)
    ensures StaysFrom(c, p, PartStep(c, p, v, e), g, r)
  {
    var v' := PartStep(c, p, v, e);
    if e.Deliver? {
      DeliverFirst(c, p, v, e.n, r);
    } else if !e.Assign? && v'.flight != v.flight {
      FirstCut(c, p, v, r);
    }
  }

  lemma {:induction false} FreshFlight(c: Config, p: int, v: View, f: FlightEvent, closed: bool, g: nat, r: int)
    requires ValidConfig(c) && p in c.logs && Token(c, p, v) && Conserved(c, p, v) && Traced(c, v)
    requires FlightFits(v, f) && v.t.gen == g && v.t.fate == Fresh && StaysFrom(c, p, v, g, r)
    ensures StaysFrom(c, p, FlightStep(v, f, closed), g, r)
  {
  }

  lemma {:induction false} StaysFromStep(c: Config, p: int, v: View, l: Local, g: nat, r: int)
    requires ValidConfig(c) && p in c.logs && Token(c, p, v) && Conserved(c, p, v) && Traced(c, v)
    requires LocalFits(c, p, v, l) && StaysFrom(c, p, v, g, r)
    ensures StaysFrom(c, p, LocalStep(c, p, v, l), g, r)
  {
    GenStep(c, p, v, l);
    if v.t.gen == g && l != Part(Assign) {
      if v.t.fate != Fresh {
        FloorStep(c, p, v, l);
      } else if l.Part? {
        FreshPart(c, p, v, l.e, g, r);
      } else if l.Carry? {
        FreshFlight(c, p, v, l.f, l.closed, g, r);
      }
    }
  }

  /** The condition of monotone reports, for one partition. */
  function FirstRule(c: Config, p: int): (View, Local) -> bool {
    (v, l) => NotAboveTheFirst(c, p, v, l)
  }

  lemma {:induction false} FirstRun(c: Config, s: State, acts: seq<Action>, last: State, p: int)
    requires ValidConfig(c) && Tokens(c, s) && Run(c, s, acts, last) && p in s.trail && p in c.logs
    requires AllAlong(c, s, acts, p, FirstRule(c, p))
    requires Conserved(c, p, ViewOf(s, p)) && Traced(c, ViewOf(s, p)) && StaleIsNotAbove(c, p, ViewOf(s, p))
    ensures Tokens(c, last) && p in last.trail
    ensures Conserved(c, p, ViewOf(last, p)) && Traced(c, ViewOf(last, p)) && StaleIsNotAbove(c, p, ViewOf(last, p))
    decreases |acts|
  {
    if acts != [] {
      var v, l := ViewOf(s, p), SeenBy(s, acts[0], p);
      StepView(c, s, acts[0], p);
      ConservedStep(c, p, v, l);
      TracedStep(c, p, v, l);
      StaleIsNotAboveStep(c, p, v, l);
      TokensStep(c, s, acts[0]);
      FirstRun(c, Apply(c, s, acts[0]), acts[1..], last, p);
    }
  }

  lemma {:induction false} StaysFromRun(c: Config, s: State, acts: seq<Action>, last: State, p: int, g: nat, r: int)
    requires ValidConfig(c) && Tokens(c, s) && Run(c, s, acts, last) && p in s.trail && p in c.logs
    requires AllAlong(c, s, acts, p, FirstRule(c, p))
    requires Conserved(c, p, ViewOf(s, p)) && Traced(c, ViewOf(s, p)) && StaysFrom(c, p, ViewOf(s, p), g, r)
    ensures p in last.trail && StaysFrom(c, p, ViewOf(last, p), g, r)
    decreases |acts|
  {
    if acts != [] {
      var v, l := ViewOf(s, p), SeenBy(s, acts[0], p);
      StepView(c, s, acts[0], p);
      ConservedStep(c, p, v, l);
      TracedStep(c, p, v, l);
      StaysFromStep(c, p, v, l, g, r);
      TokensStep(c, s, acts[0]);
      StaysFromRun(c, Apply(c, s, acts[0]), acts[1..], last, p, g, r);
    }
  }

  lemma {:induction false} ReportStays(c: Config, p: int, v: View)
    requires p in c.logs && c.batchSize > 0 && Token(c, p, v) && Traced(c, v) && StaleIsNotAbove(c, p, v)
    requires v.rec.Some? && v.rec.value.completed
    ensures StaysFrom(c, p, v, v.t.gen, v.rec.value.maxOffset)
  {
    if v.t.fate != Fresh {
      ReportIsFloor(c, p, v);
    }
  }

  /** Two reports of one assignment, the second at least the first, undone, stale or neither. */
  lemma {:induction false} ReportsNeverGoDown(c: Config, before: seq<Action>, s: State, after: seq<Action>,
                                              last: State, p: int)
    requires ValidConfig(c) && Run(c, Init(c), before, s) && AllAlong(c, Init(c), before, p, FirstRule(c, p))
    requires Run(c, s, after, last) && AllAlong(c, s, after, p, FirstRule(c, p))
    requires p in Committable(s.records) && p in Committable(last.records)
    requires p in s.trail && p in last.trail && s.trail[p].gen == last.trail[p].gen
    ensures Committable(s.records)[p] <= Committable(last.records)[p]
  {
    RecordIsOfLog(c, before, s, p);
    InitTokens(c);
    InitConserved(c, p);
    FirstRun(c, Init(c), before, s, p);
    ReportStays(c, p, ViewOf(s, p));
    StaysFromRun(c, s, after, last, p, s.trail[p].gen, s.records[p].maxOffset);
    FirstRun(c, s, after, last, p);
    var v := ViewOf(last, p);
    if v.t.fate != Fresh {
      ReportIsFloor(c, p, v);
    }
  }
}
