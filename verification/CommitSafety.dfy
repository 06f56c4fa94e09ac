/** Nothing below a committed offset is ever left unhandled. */
module CommitSafety {
  import opened Types
  import opened Pipeline
  import opened Views
  import opened Ledger
  import opened Delivery

  lemma {:induction false} InitConserved(c: Config, p: int)
    requires ValidConfig(c) && p in c.logs
    ensures Conserved(c, p, ViewOf(Init(c), p))
  {
    assert Rest(ViewOf(Init(c), p)) == [];
    assert OffsetsOf([]) == {};
  }

  /** The books of `p` stay balanced as long as no undo of `p` is caught by a revocation. */
  lemma {:induction false} ConservedRun(c: Config, s: State, acts: seq<Action>, last: State, p: int)
    requires ValidConfig(c) && Tokens(c, s) && Run(c, s, acts, last)
    requires p in s.trail && Conserved(c, p, ViewOf(s, p)) && AllAlong(c, s, acts, p, UndoUncaught)
    ensures Tokens(c, last) && p in last.trail && Conserved(c, p, ViewOf(last, p))
    decreases |acts|
  {
    if acts != [] {
      StepView(c, s, acts[0], p);
      ConservedStep(c, p, ViewOf(s, p), SeenBy(s, acts[0], p));
      TokensStep(c, s, acts[0]);
      ConservedRun(c, Apply(c, s, acts[0]), acts[1..], last, p);
    }
  }

  /**
   * What is reported, read and stored for `p` has only handled messages below it, as long
   * as nothing of `p` is discarded, no undo of `p` is caught by a revocation and no report
   * is read while `p` stands undone.
   */
  lemma {:induction false} BackedRun(c: Config, s: State, acts: seq<Action>, last: State, p: int)
    requires ValidConfig(c) && Tokens(c, s) && Run(c, s, acts, last) && p in s.trail
    requires Conserved(c, p, ViewOf(s, p)) && Backed(c, p, ViewOf(s, p)) && AllAlong(c, s, acts, p, Kept)
    ensures Tokens(c, last) && p in last.trail
    ensures Conserved(c, p, ViewOf(last, p)) && Backed(c, p, ViewOf(last, p))
    decreases |acts|
  {
    if acts != [] {
      StepView(c, s, acts[0], p);
      ConservedStep(c, p, ViewOf(s, p), SeenBy(s, acts[0], p));
      BackedStep(c, p, ViewOf(s, p), SeenBy(s, acts[0], p));
      TokensStep(c, s, acts[0]);
      BackedRun(c, Apply(c, s, acts[0]), acts[1..], last, p);
    }
  }

  /**
   * Commit safety whatever the number of partitions: under those conditions on `p` alone,
   * every message of its log below the committed offset has been handled.
   */
  lemma {:induction false} CommittedIsHandledUnlessReadUndone(c: Config, acts: seq<Action>, s: State, p: int, j: nat)
    requires ValidConfig(c) && Run(c, Init(c), acts, s) && AllAlong(c, Init(c), acts, p, Kept)
    requires p in s.committed && p in c.logs && j < |c.logs[p]| && c.logs[p][j].offset < s.committed[p]
    ensures p in s.trail && c.logs[p][j].offset in s.trail[p].done
  {
    InitTokens(c);
    InitConserved(c, p);
    BackedRun(c, Init(c), acts, s, p);
  }

  // ---- With at most ChannelCap partitions ----

  /** Nothing of this partition is undone or being undone. */
  predicate NeverUndone(v: View) {
    !InUndo(v) && !v.t.fate.Undone?
  }

  ghost predicate NoneUndone(c: Config, s: State) {
    Tokens(c, s) && forall p :: p in s.trail ==> NeverUndone(ViewOf(s, p))
  }

  /** The steps of dispatchBatch that meet a full channel and undo the dispatch. */
  predicate OfUndo(a: Action) {
    a.Fly? && (a.f.Refuse? || a.f.Undo? || a.f.PutBack?)
  }

  lemma NeverUndoneStep(c: Config, p: int, v: View, l: Local)
    requires p in c.logs && c.batchSize > 0 && LocalFits(c, p, v, l) && NeverUndone(v)
    requires !(l.Carry? && l.f.Refuse?)
    ensures NeverUndone(LocalStep(c, p, v, l))
  {
  }

  lemma {:induction false} NoneUndoneStep(c: Config, s: State, a: Action)
    requires ValidConfig(c) && NoneUndone(c, s) && Enabled(c, s, a) && |s.bufs| <= c.channelCap
    ensures NoneUndone(c, Apply(c, s, a)) && !OfUndo(a)
  {
    if OfUndo(a) {
      assert NeverUndone(ViewOf(s, Carrier(s, a.i)));
      if a.f.Refuse? {
        ChannelBelowPartitions(c, s, a.i);
      }
    }
    TokensStep(c, s, a);
    forall p | p in Apply(c, s, a).trail ensures NeverUndone(ViewOf(Apply(c, s, a), p)) {
      StepView(c, s, a, p);
      NeverUndoneStep(c, p, ViewOf(s, p), SeenBy(s, a, p));
    }
  }

  lemma BufsGrowPart(c: Config, s: State, p: int, e: PartEvent)
    requires c.batchSize > 0 && PartEnabled(c, s, p, e)
    ensures s.bufs.Keys <= ApplyPart(c, s, p, e).bufs.Keys
  {
  }

  lemma BufsGrowFlight(s: State, i: nat, f: FlightEvent)
    requires Known(s, i) && (f.Receive? ==> s.channel != [] && s.channel[0] == i)
    ensures s.bufs.Keys <= ApplyFlight(s, i, f).bufs.Keys
  {
  }

  lemma {:induction false} BufsGrow(c: Config, s: State, a: Action)
    requires ValidConfig(c) && Enabled(c, s, a)
    ensures s.bufs.Keys <= Apply(c, s, a).bufs.Keys
  {
    match a {
      case At(p, e) => BufsGrowPart(c, s, p, e);
      case Fly(i, f) => BufsGrowFlight(s, i, f);
      case Close => assert DoClose(s).bufs.Keys == s.bufs.Keys;
      case Snapshot =>
      case Commit(_) =>
    }
  }

  lemma {:induction false} BufsGrowRun(c: Config, s: State, acts: seq<Action>, last: State)
    requires ValidConfig(c) && Run(c, s, acts, last)
    ensures s.bufs.Keys <= last.bufs.Keys && |s.bufs| <= |last.bufs|
    decreases |acts|
  {
    if acts != [] {
      BufsGrow(c, s, acts[0]);
      BufsGrowRun(c, Apply(c, s, acts[0]), acts[1..], last);
    }
    SubsetSize(s.bufs.Keys, last.bufs.Keys);
  }

  /** Nothing polled from `p` is discarded. */
  predicate DiscardsNothing(acts: seq<Action>, p: int) {
    forall k :: 0 <= k < |acts| && acts[k].At? && acts[k].p == p ==> !acts[k].e.Discard?
  }

  predicate UndoFree(acts: seq<Action>) {
    forall k :: 0 <= k < |acts| ==> !OfUndo(acts[k])
  }

  lemma {:induction false} UndoFreeRun(c: Config, s: State, acts: seq<Action>, last: State)
    requires ValidConfig(c) && NoneUndone(c, s) && Run(c, s, acts, last) && |last.bufs| <= c.channelCap
    ensures UndoFree(acts)
    decreases |acts|
  {
    if acts != [] {
      BufsGrowRun(c, s, acts, last);
      NoneUndoneStep(c, s, acts[0]);
      UndoFreeRun(c, Apply(c, s, acts[0]), acts[1..], last);
      assert acts == [acts[0]] + acts[1..];
    }
  }

  /** If the dispatcher knows at most ChannelCap partitions, no dispatch was ever undone. */
  lemma {:induction false} FewPartitionsNeverUndo(c: Config, acts: seq<Action>, s: State)
    requires ValidConfig(c) && Run(c, Init(c), acts, s) && |s.bufs| <= c.channelCap
    ensures UndoFree(acts)
  {
    InitTokens(c);
    UndoFreeRun(c, Init(c), acts, s);
  }

  lemma {:induction false} KeptRun(c: Config, s: State, acts: seq<Action>, last: State, p: int)
    requires ValidConfig(c) && Tokens(c, s) && Run(c, s, acts, last) && UndoFree(acts)
    requires p in s.trail && NeverUndone(ViewOf(s, p))
    ensures AllAlong(c, s, acts, p, UndoUncaught)
    ensures DiscardsNothing(acts, p) ==> AllAlong(c, s, acts, p, Kept)
    decreases |acts|
  {
    if acts != [] {
      assert !OfUndo(acts[0]);
      StepView(c, s, acts[0], p);
      NeverUndoneStep(c, p, ViewOf(s, p), SeenBy(s, acts[0], p));
      TokensStep(c, s, acts[0]);
      KeptRun(c, Apply(c, s, acts[0]), acts[1..], last, p);
    }
  }

  /**
   * Commit safety: in every interleaving, if the dispatcher knows at most ChannelCap
   * partitions and no message polled from `p` is discarded, every message of its log below
   * the committed offset has been handled.
   */
  lemma {:induction false} CommittedIsHandled(c: Config, acts: seq<Action>, s: State, p: int, j: nat)
    requires ValidConfig(c) && Run(c, Init(c), acts, s) && DiscardsNothing(acts, p)
    requires |s.bufs| <= c.channelCap
    requires p in s.committed && p in c.logs && j < |c.logs[p]| && c.logs[p][j].offset < s.committed[p]
    ensures p in s.trail && c.logs[p][j].offset in s.trail[p].done
  {
    InitTokens(c);
    FewPartitionsNeverUndo(c, acts, s);
    KeptRun(c, Init(c), acts, s, p);
    CommittedIsHandledUnlessReadUndone(c, acts, s, p, j);
  }

  // ---- What was polled and what was sent ----

  ghost predicate Contiguous(c: Config, p: int, v: View)
    requires p in c.logs
  {
    v.t.start <= v.t.pos <= |c.logs[p]| && v.t.sent == c.logs[p][v.t.start..v.t.pos]
  }

  lemma {:induction false} ContiguousStep(c: Config, p: int, v: View, l: Local)
    requires p in c.logs && c.batchSize > 0 && LocalFits(c, p, v, l) && Contiguous(c, p, v)
    requires !(l.Part? && l.e.Discard?)
    ensures Contiguous(c, p, LocalStep(c, p, v, l))
  {
    if l.Part? && l.e.Deliver? {
      SliceExtends(c.logs[p], v.t.start, v.t.pos, l.e.n);
    }
  }

  /** If nothing polled from `p` is discarded, what was sent in this assignment is a stretch of the log. */
  lemma {:induction false} PolledIsSent(c: Config, s: State, acts: seq<Action>, last: State, p: int)
    requires ValidConfig(c) && Tokens(c, s) && Run(c, s, acts, last) && DiscardsNothing(acts, p)
    requires p in s.trail && p in c.logs && Contiguous(c, p, ViewOf(s, p))
    ensures p in last.trail && Contiguous(c, p, ViewOf(last, p))
    decreases |acts|
  {
    if acts != [] {
      StepView(c, s, acts[0], p);
      assert !(SeenBy(s, acts[0], p).Part? && SeenBy(s, acts[0], p).e.Discard?);
      ContiguousStep(c, p, ViewOf(s, p), SeenBy(s, acts[0], p));
      TokensStep(c, s, acts[0]);
      assert DiscardsNothing(acts[1..], p);
      PolledIsSent(c, Apply(c, s, acts[0]), acts[1..], last, p);
    }
  }
}
