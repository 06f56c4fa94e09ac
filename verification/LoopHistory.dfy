/** What the poll loop's state says about everything that happened since Run began. */
module LoopHistory {
  import opened Types
  import opened Degraded
  import opened Breaker
  import opened PollLoop

  datatype Event =
    | Tick(any: bool, committed: bool)
    | Notice(st: Circuit)
    | Capacity
    | Pushback(p: int)
    | Grant(ps: seq<int>)
    | Withdraw(ps: seq<int>)

  function React(threshold: nat, v: Loop, e: Event, k: Calls): Loop {
    match e
    case Tick(any, committed) => Ticked(threshold, v, any, committed, k)
    case Notice(st) => Notified(v, st, k)
    case Capacity => MadeReady(v, k)
    case Pushback(p) => Backpressured(v, p, k)
    case Grant(ps) => Granted(v, ps)
    case Withdraw(ps) => Withdrawn(v, ps)
  }

  /** The state after a history of events, each with the fate of its broker calls. */
  function Now(threshold: nat, h: seq<(Event, Calls)>): Loop {
    if h == [] then Started()
    else
      var (e, k) := h[|h| - 1];
      React(threshold, Now(threshold, h[..|h| - 1]), e, k)
  }

  // ---- Broker reason and readiness ----

  /** How many of the latest non-empty commits failed in a row. */
  function FailedInARow(h: seq<(Event, Calls)>): nat {
    if h == [] then 0
    else
      var before := FailedInARow(h[..|h| - 1]);
      match h[|h| - 1].0
      case Tick(any, committed) => if !any then before else if committed then 0 else before + 1
      case _ => before
  }

  /**
   * The BrokerUnavailable reason is active exactly when at least the last `threshold`
   * non-empty commits all failed, whatever else happened and whatever calls failed.
   */
  lemma {:induction false} BrokerReasonIsFailedCommits(threshold: nat, h: seq<(Event, Calls)>)
    requires threshold > 0
    ensures Now(threshold, h).commitFailures == FailedInARow(h)
    ensures BrokerUnavailable in Now(threshold, h).reasons <==> FailedInARow(h) >= threshold
    decreases |h|
  {
    if h != [] {
      BrokerReasonIsFailedCommits(threshold, h[..|h| - 1]);
    }
  }

  /** The latest rebalance callback was an assignment that named nothing. */
  predicate LatestGrantIsEmpty(h: seq<(Event, Calls)>) {
    h != [] &&
    match h[|h| - 1].0
    case Grant(ps) => ps == []
    case Withdraw(_) => false
    case _ => LatestGrantIsEmpty(h[..|h| - 1])
  }

  /**
   * Readiness, exactly: no reason is active, and partitions are assigned or the latest
   * rebalance callback was an assignment that named nothing.
   */
  lemma {:induction false} ReadyIffHealthy(threshold: nat, h: seq<(Event, Calls)>)
    requires threshold > 0
    ensures var v := Now(threshold, h);
      ReportsReady(v) <==> v.reasons == {} && (v.assignedCount > 0 || LatestGrantIsEmpty(h))
  {
    FlagsExactly(threshold, h);
  }

  lemma {:induction false} FlagsExactly(threshold: nat, h: seq<(Event, Calls)>)
    requires threshold > 0
    ensures var v := Now(threshold, h);
      && (v.ready <==> v.reasons == {})
      && (v.partitionsAssigned <==> v.assignedCount > 0 || LatestGrantIsEmpty(h))
    decreases |h|
  {
    if h != [] {
      FlagsExactly(threshold, h[..|h| - 1]);
    }
  }

  /** Whatever the history, an assignment that names nothing then makes an idle service ready. */
  lemma {:induction false} EmptyGrantFakesReadiness(threshold: nat, h: seq<(Event, Calls)>, k: Calls)
    requires threshold > 0 && Now(threshold, h).reasons == {} && Now(threshold, h).assignedCount == 0
    ensures var v := Now(threshold, h + [(Grant([]), k)]); ReportsReady(v) && v.assignedCount == 0
  {
    var h' := h + [(Grant([]), k)];
    assert h'[..|h'| - 1] == h;
    ReadyIffHealthy(threshold, h');
  }

  // ---- The count of assigned partitions ----

  lemma {:induction false} MembersCount(s: seq<int>)
    requires Distinct(s)
    ensures |Members(s)| == |s|
    decreases |s|
  {
    if s != [] {
      MembersCount(s[..|s| - 1]);
      MembersOfSeq(s[..|s| - 1]);
    }
  }

  lemma {:induction false} SetOfIsMembers(s: seq<int>)
    ensures (set p | p in s) == Members(s)
    decreases |s|
  {
    if s != [] {
      SetOfIsMembers(s[..|s| - 1]);
      assert s == s[..|s| - 1] + [s[|s| - 1]];
    }
  }

  /** A rebalance names partitions once, grants new ones and withdraws assigned ones. */
  predicate Proper(v: Loop, e: Event) {
    match e
    case Grant(ps) => Distinct(ps) && Members(ps) !! v.kAssigned
    case Withdraw(ps) => Distinct(ps) && Members(ps) <= v.kAssigned
    case _ => true
  }

  predicate ProperHistory(threshold: nat, h: seq<(Event, Calls)>) {
    h == [] || (ProperHistory(threshold, h[..|h| - 1]) && Proper(Now(threshold, h[..|h| - 1]), h[|h| - 1].0))
  }

  lemma {:induction false} GrantCounts(v: Loop, ps: seq<int>)
    requires Proper(v, Grant(ps)) && v.assignedCount == |v.kAssigned|
    ensures Granted(v, ps).assignedCount == |Granted(v, ps).kAssigned|
  {
    MembersCount(ps);
    SetOfIsMembers(ps);
  }

  lemma {:induction false} WithdrawCounts(v: Loop, ps: seq<int>)
    requires Proper(v, Withdraw(ps)) && v.assignedCount == |v.kAssigned|
    ensures Withdrawn(v, ps).assignedCount == |Withdrawn(v, ps).kAssigned|
  {
    MembersCount(ps);
    SetOfIsMembers(ps);
    assert v.kAssigned == (v.kAssigned - Members(ps)) + Members(ps);
  }

  lemma OtherCounts(threshold: nat, v: Loop, e: Event, k: Calls)
    requires !e.Grant? && !e.Withdraw?
    ensures React(threshold, v, e, k).assignedCount == v.assignedCount
    ensures React(threshold, v, e, k).kAssigned == v.kAssigned
  {
  }

  /** The running count is the number of partitions the client holds. */
  lemma {:induction false} AssignedCountIsExact(threshold: nat, h: seq<(Event, Calls)>)
    requires ProperHistory(threshold, h)
    ensures Now(threshold, h).assignedCount == |Now(threshold, h).kAssigned|
    decreases |h|
  {
    if h != [] {
      var v, e, k := Now(threshold, h[..|h| - 1]), h[|h| - 1].0, h[|h| - 1].1;
      AssignedCountIsExact(threshold, h[..|h| - 1]);
      match e {
        case Grant(ps) => GrantCounts(v, ps);
        case Withdraw(ps) => WithdrawCounts(v, ps);
        case _ => OtherCounts(threshold, v, e, k);
      }
    }
  }

  // ---- Pause tracking ----

  const ALL_WORK := Calls(true, true, true)

  /** Outside degraded mode the broker pauses what the loop tracks; inside it, everything. */
  predicate Tracked(v: Loop) {
    && v.paused <= v.kAssigned
    && v.kPaused <= v.kAssigned
    && (v.reasons == {} ==> v.kPaused == v.paused)
    && (v.reasons != {} ==> v.kPaused == v.kAssigned)
  }

  /** Backpressure is met while sending polled messages; nothing is granted while degraded. */
  predicate Expected(v: Loop, e: Event) {
    match e
    case Pushback(p) => v.reasons == {} && p in v.kAssigned
    case Grant(ps) => v.reasons == {} && Members(ps) !! v.kAssigned
    case _ => true
  }

  lemma {:induction false} EnteredTracked(v: Loop, r: Reason)
    requires Tracked(v)
    ensures Tracked(Entered(v, r, ALL_WORK))
  {
    assert r in Entered(v, r, ALL_WORK).reasons;
  }

  lemma {:induction false} ExitedTracked(v: Loop, r: Reason)
    requires Tracked(v)
    ensures r in v.reasons ==> Tracked(Exited(v, r, ALL_WORK))
  {
    if r in v.reasons {
      assert v.reasons != {};
    }
  }

  lemma {:induction false} TrackedStep(threshold: nat, v: Loop, e: Event)
    requires Tracked(v) && Expected(v, e)
    ensures Tracked(React(threshold, v, e, ALL_WORK))
  {
    match e {
      case Tick(_, _) =>
        EnteredTracked(v.(commitFailures := v.commitFailures + 1), BrokerUnavailable);
        ExitedTracked(v.(commitFailures := 0), BrokerUnavailable);
      case Notice(_) =>
        EnteredTracked(v, TargetUnavailable);
        ExitedTracked(v, TargetUnavailable);
      case Capacity =>
      case Pushback(_) =>
      case Grant(ps) =>
      case Withdraw(ps) =>
    }
  }

  /** Messages reach a poll only from partitions the broker has assigned and not paused. */
  predicate Delivers(v: Loop, p: int) {
    p in v.kAssigned && p !in v.kPaused
  }

  /** The poll loop drops what it polls when degraded or when it thinks the partition is paused. */
  predicate Drops(v: Loop, p: int) {
    v.reasons != {} || p in v.paused
  }

  lemma TrackedNeverDrops(v: Loop, p: int)
    requires Tracked(v) && Delivers(v, p)
    ensures !Drops(v, p)
  {
  }

  predicate ExpectedHistory(threshold: nat, h: seq<(Event, Calls)>) {
    h == [] || (&& ExpectedHistory(threshold, h[..|h| - 1])
                && h[|h| - 1].1 == ALL_WORK
                && Expected(Now(threshold, h[..|h| - 1]), h[|h| - 1].0))
  }

  /**
   * If broker calls succeed and no assignment arrives while degraded, then neither the
   * degraded poll nor the paused skip ever drops a message.
   */
  lemma {:induction false} NothingPolledIsDropped(threshold: nat, h: seq<(Event, Calls)>, p: int)
    requires ExpectedHistory(threshold, h)
    ensures Tracked(Now(threshold, h))
    ensures Delivers(Now(threshold, h), p) ==> !Drops(Now(threshold, h), p)
    decreases |h|
  {
    if h != [] {
      NothingPolledIsDropped(threshold, h[..|h| - 1], p);
      TrackedStep(threshold, Now(threshold, h[..|h| - 1]), h[|h| - 1].0);
    }
  }

  /** An assignment while degraded makes messages be dropped exactly when it names a new partition. */
  lemma {:induction false} GrantWhileDegradedDrops(v: Loop, ps: seq<int>)
    requires Tracked(v) && v.reasons != {}
    ensures (exists p :: Delivers(Granted(v, ps), p) && Drops(Granted(v, ps), p))
         <==> (exists p :: p in ps && p !in v.kAssigned)
  {
    if p :| p in ps && p !in v.kAssigned {
      assert Delivers(Granted(v, ps), p);
    }
  }

  // ---- What the handlers bring about ----

  /** A partition is handed to Send exactly when it was polled and would not be dropped. */
  lemma ForwardedIffNotDropped(v: Loop, groups: map<int, seq<Message>>, ps: set<int>, p: int)
    ensures p in Forwarded(v, groups, ps) <==> p in groups && p in ps && !Drops(v, p)
    ensures p in Forwarded(v, groups, ps) ==> Forwarded(v, groups, ps)[p] == groups[p]
  {
  }

  /** The ready signal sets every assigned partition going, unless degraded or the call fails. */
  lemma {:induction false} ReadyResumesAll(v: Loop, k: Calls)
    requires Tracked(v)
    ensures v.reasons == {} && k.resume ==>
      forall p :: p in v.kAssigned ==> Delivers(MadeReady(v, k), p) && !Drops(MadeReady(v, k), p)
    ensures v.reasons != {} || !k.resume ==> MadeReady(v, k) == v
    ensures MadeReady(v, k) == v.(paused := MadeReady(v, k).paused, kPaused := MadeReady(v, k).kPaused)
  {
  }

  /** So it does after every history in which broker calls succeed and no assignment came while degraded. */
  lemma {:induction false} CapacityResumesAll(threshold: nat, h: seq<(Event, Calls)>, p: int)
    requires ExpectedHistory(threshold, h) && Now(threshold, h).reasons == {} && p in Now(threshold, h).kAssigned
    ensures var v := Now(threshold, h + [(Capacity, ALL_WORK)]); Delivers(v, p) && !Drops(v, p)
  {
    var h' := h + [(Capacity, ALL_WORK)];
    assert h'[..|h'| - 1] == h;
    NothingPolledIsDropped(threshold, h, p);
    ReadyResumesAll(Now(threshold, h), ALL_WORK);
  }

  /** A partition that meets backpressure delivers no more, and no other is concerned; nothing if the call fails. */
  lemma BackpressureStops(v: Loop, p: int, k: Calls, q: int)
    requires p !in v.paused
    ensures k.pause ==> !Delivers(Backpressured(v, p, k), p) && Drops(Backpressured(v, p, k), p)
    ensures q != p ==> (Delivers(Backpressured(v, p, k), q) <==> Delivers(v, q))
    ensures !k.pause ==> Backpressured(v, p, k) == v
    ensures Backpressured(v, p, k)
         == v.(paused := Backpressured(v, p, k).paused, kPaused := Backpressured(v, p, k).kPaused)
  {
  }

  /** The first reason stops every delivery and clears readiness; a further one is only noted. */
  lemma {:induction false} EnteringStopsAll(v: Loop, r: Reason, k: Calls, p: int)
    ensures var v' := Entered(v, r, k);
      && v'.reasons == v.reasons + {r} && v'.paused == v.paused && v'.kAssigned == v.kAssigned
      && (v.reasons == {} ==> !v'.ready && (k.assignment && k.pause ==> !Delivers(v', p)))
      && (v.reasons == {} && !(k.assignment && k.pause) ==> v'.kPaused == v.kPaused)
      && (v.reasons != {} ==> v'.kPaused == v.kPaused && v'.ready == v.ready)
  {
    assert r in Entered(v, r, k).reasons;
  }

  /** With the last reason every assigned partition delivers again; before that nothing is resumed. */
  lemma {:induction false} ExitingResumesAll(v: Loop, r: Reason, k: Calls, p: int)
    ensures var v' := Exited(v, r, k);
      && v'.reasons == v.reasons - {r} && v'.kAssigned == v.kAssigned
      && (v'.reasons == {} ==>
            v'.ready && (k.assignment && k.resume && p in v.kAssigned ==> Delivers(v', p) && !Drops(v', p)))
      && (v'.reasons == {} && k.assignment && !k.resume && v.kAssigned != {} ==>
            v'.paused == {} && v'.kPaused == v.kPaused)
      && (v'.reasons != {} || !k.assignment ==> v'.paused == v.paused && v'.kPaused == v.kPaused)
      && (v'.reasons != {} ==> v'.ready == v.ready)
  {
  }

  /** Whatever the event: entering degraded mode stops every delivery, and leaving it sets all going again. */
  lemma {:induction false} DegradedModeStopsAndResumes(threshold: nat, v: Loop, e: Event, p: int)
    ensures var v' := React(threshold, v, e, ALL_WORK);
      && (v.reasons == {} && v'.reasons != {} ==> !v'.ready && !Delivers(v', p))
      && (v.reasons != {} && v'.reasons == {} ==> v'.ready && (p in v'.kAssigned ==> Delivers(v', p) && !Drops(v', p)))
  {
    match e {
      case Tick(_, _) =>
        EnteringStopsAll(v.(commitFailures := v.commitFailures + 1), BrokerUnavailable, ALL_WORK, p);
        ExitingResumesAll(v.(commitFailures := 0), BrokerUnavailable, ALL_WORK, p);
      case Notice(_) =>
        EnteringStopsAll(v, TargetUnavailable, ALL_WORK, p);
        ExitingResumesAll(v, TargetUnavailable, ALL_WORK, p);
      case _ =>
    }
  }

  /** Ticks and notices that do neither pause and resume nothing. */
  lemma {:induction false} OtherwiseNothingMoves(threshold: nat, v: Loop, e: Event, k: Calls)
    requires (e.Tick? || e.Notice?) && (v.reasons == {} <==> React(threshold, v, e, k).reasons == {})
    ensures var v' := React(threshold, v, e, k);
      v'.paused == v.paused && v'.kPaused == v.kPaused && v'.kAssigned == v.kAssigned && v'.ready == v.ready
  {
    assert forall r :: r in v.reasons + {r};
  }

  /** New partitions deliver at once, in degraded mode too; a revoked one neither delivers nor stays paused. */
  lemma RebalanceDelivers(v: Loop, ps: seq<int>, p: int)
    ensures Delivers(Granted(v, ps), p) <==> (p in ps || p in v.kAssigned) && p !in v.kPaused
    ensures var v' := Granted(v, ps); v'.paused == v.paused && v'.reasons == v.reasons && v'.kPaused == v.kPaused
    ensures Delivers(Withdrawn(v, ps), p) <==> Delivers(v, p) && p !in ps
    ensures p in Withdrawn(v, ps).paused <==> p in v.paused && p !in ps
    ensures p in Withdrawn(v, ps).kAssigned <==> p in v.kAssigned && p !in ps
    ensures p in Withdrawn(v, ps).kPaused <==> p in v.kPaused && p !in ps
    ensures Withdrawn(v, ps).reasons == v.reasons && Withdrawn(v, ps).ready == v.ready
  {
  }

  // ---- The breaker's notices ----

  /** The loop's reaction to a notice is the one the breaker's bookkeeping assumes. */
  lemma NoticeSetsTargetReason(v: Loop, st: Circuit, k: Calls)
    ensures (TargetUnavailable in Notified(v, st, k).reasons) == Heard(TargetUnavailable in v.reasons, st)
    ensures (BrokerUnavailable in Notified(v, st, k).reasons) == (BrokerUnavailable in v.reasons)
  {
  }
}
