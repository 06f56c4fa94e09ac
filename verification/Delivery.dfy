/** What holds in every run of the pipeline. */
module Delivery {
  import opened Types
  import opened Pipeline
  import opened Views

  // ---- Panics and tokens: every run, no assumption ----

  lemma {:induction false} TokensRun(c: Config, s: State, acts: seq<Action>, last: State)
    requires ValidConfig(c) && Tokens(c, s) && Run(c, s, acts, last)
    ensures Tokens(c, last)
    decreases |acts|
  {
    if acts != [] {
      TokensStep(c, s, acts[0]);
      TokensRun(c, Apply(c, s, acts[0]), acts[1..], last);
    }
  }

  /** Neither coordinator panic can happen, whatever the interleaving. */
  lemma {:induction false} NoCoordinatorPanic(c: Config, acts: seq<Action>, s: State, i: nat, f: FlightEvent)
    requires ValidConfig(c) && Run(c, Init(c), acts, s) && FlightEnabled(c, s, i, f)
    ensures !Panics(s, i, f)
  {
    InitTokens(c);
    TokensRun(c, Init(c), acts, s);
    NoPanicHere(c, s, i, f);
  }

  /** The coordinator believes a partition is in flight only when the dispatcher does. */
  lemma {:induction false} InFlightRecordHasItsBatch(c: Config, acts: seq<Action>, s: State, p: int)
    requires ValidConfig(c) && Run(c, Init(c), acts, s)
    requires p in s.records && s.records[p].inFlight
    ensures p in s.bufs && s.bufs[p].inFlight
    ensures exists i :: (&& i in s.flights && s.flights[i].batch.partition == p
                         && s.flights[i].batch.maxOffset == s.records[p].maxOffset)
  {
    InitTokens(c);
    TokensRun(c, Init(c), acts, s);
    assert Token(c, p, ViewOf(s, p));
    var i := s.owner[p];
    assert i in s.flights && s.flights[i].batch.partition == p;
  }

  /** At most one live batch per partition; its size is bounded and its record is its own. */
  lemma {:induction false} OneBatchPerPartition(c: Config, acts: seq<Action>, s: State, i: nat, j: nat)
    requires ValidConfig(c) && Run(c, Init(c), acts, s) && i in s.flights && j in s.flights
    ensures s.flights[i].batch.partition == s.flights[j].batch.partition ==> i == j
    ensures 1 <= |s.flights[i].batch.messages| <= c.batchSize
    ensures var p := s.flights[i].batch.partition;
            p in s.bufs && s.bufs[p].inFlight
            && (p in s.records && s.records[p].inFlight ==> s.records[p].maxOffset == s.flights[i].batch.maxOffset)
  {
    InitTokens(c);
    TokensRun(c, Init(c), acts, s);
    var p := s.flights[i].batch.partition;
    assert Token(c, p, ViewOf(s, p));
  }

  // ---- Conditions along a run ----

  /** Every action of the run, as `p` sees it, meets `ok`. */
  ghost predicate AllAlong(c: Config, s: State, acts: seq<Action>, p: int, ok: (View, Local) -> bool)
    requires ValidConfig(c)
    decreases |acts|
  {
    acts == [] || (&& p in s.trail && Enabled(c, s, acts[0])
                   && ok(ViewOf(s, p), SeenBy(s, acts[0], p))
                   && AllAlong(c, Apply(c, s, acts[0]), acts[1..], p, ok))
  }

  // ---- Backpressure ----

  function ChannelParts(s: State, n: nat): set<int>
    requires n <= |s.channel| && forall k :: 0 <= k < |s.channel| ==> s.channel[k] in s.flights
  {
    if n == 0 then {} else ChannelParts(s, n - 1) + {Carrier(s, s.channel[n - 1])}
  }

  lemma {:induction false} QueuedPartitionsDistinct(c: Config, s: State)
    requires Structure(c, s)
    ensures forall k :: 0 <= k < |s.channel| ==> s.channel[k] in s.flights
    ensures forall j, k :: 0 <= j < k < |s.channel| ==> Carrier(s, s.channel[j]) != Carrier(s, s.channel[k])
  {
    forall j, k | 0 <= j < k < |s.channel| ensures Carrier(s, s.channel[j]) != Carrier(s, s.channel[k]) {
      assert s.owner[Carrier(s, s.channel[j])] == s.channel[j];
      assert s.owner[Carrier(s, s.channel[k])] == s.channel[k];
    }
  }

  lemma {:induction false} ChannelPartsCount(c: Config, s: State, n: nat, p: int)
    requires Structure(c, s) && n <= |s.channel|
    requires forall k :: 0 <= k < |s.channel| ==> Carrier(s, s.channel[k]) != p
    ensures |ChannelParts(s, n)| == n
    ensures forall q :: q in ChannelParts(s, n) ==>
      q in s.bufs && q != p && exists k :: 0 <= k < n && Carrier(s, s.channel[k]) == q
    decreases n
  {
    if n > 0 {
      ChannelPartsCount(c, s, n - 1, p);
      QueuedPartitionsDistinct(c, s);
      var last := Carrier(s, s.channel[n - 1]);
      assert last !in ChannelParts(s, n - 1);
      assert Known(s, s.channel[n - 1]);
    }
  }

  lemma {:induction false} SubsetSize(a: set<int>, b: set<int>)
    requires forall x :: x in a ==> x in b
    ensures |a| <= |b|
    decreases |b|
  {
    if a != {} {
      Inhabited(a);
      var x :| x in a;
      SubsetSize(a - {x}, b - {x});
    }
  }

  /** While a batch waits to be queued, the channel holds batches of other partitions only. */
  lemma {:induction false} ChannelBelowPartitions(c: Config, s: State, i: nat)
    requires Tokens(c, s) && Known(s, i) && s.flights[i].stage == Announced
    ensures |s.channel| < |s.bufs|
  {
    var p := Carrier(s, i);
    forall k | 0 <= k < |s.channel| ensures Carrier(s, s.channel[k]) != p {
      assert s.flights[s.channel[k]].stage == Queued;
      assert s.owner[Carrier(s, s.channel[k])] == s.channel[k];
    }
    ChannelPartsCount(c, s, |s.channel|, p);
    SubsetSize(ChannelParts(s, |s.channel|), s.bufs.Keys - {p});
  }

  /**
   * Queued batches have pairwise distinct partitions, none of them the one being
   * dispatched; so with at most ChannelCap partitions the full-channel branch is dead.
   */
  lemma {:induction false} BackpressureNeedsManyPartitions(c: Config, acts: seq<Action>, s: State, i: nat)
    requires ValidConfig(c) && Run(c, Init(c), acts, s)
    requires Known(s, i) && s.flights[i].stage == Announced
    ensures forall j, k :: 0 <= j < k < |s.channel| ==>
              && s.channel[j] in s.flights && s.channel[k] in s.flights
              && Carrier(s, s.channel[j]) != Carrier(s, s.channel[k])
    ensures forall k :: 0 <= k < |s.channel| ==> s.channel[k] in s.flights && Carrier(s, s.channel[k]) != Carrier(s, i)
    ensures |s.bufs| <= c.channelCap ==> !FlightEnabled(c, s, i, Refuse)
  {
    InitTokens(c);
    TokensRun(c, Init(c), acts, s);
    ChannelBelowPartitions(c, s, i);
    QueuedPartitionsDistinct(c, s);
  }
}
