/** The poll loop: event handlers over pause, degraded-mode and assignment state. */
module PollLoop {
  import opened Types
  import opened Degraded
  import opened Breaker
  import Offsets
  import Dispatcher

  // ---- Grouping polled messages ----

  /** The messages of one partition, in the order they were polled. */
  function OfPartition(msgs: seq<Message>, p: int): seq<Message> {
    if msgs == [] then []
    else OfPartition(msgs[..|msgs| - 1], p)
         + if msgs[|msgs| - 1].partition == p then [msgs[|msgs| - 1]] else []
  }

  function PartitionsOf(msgs: seq<Message>): set<int> {
    if msgs == [] then {} else PartitionsOf(msgs[..|msgs| - 1]) + {msgs[|msgs| - 1].partition}
  }

  function Groups(msgs: seq<Message>): map<int, seq<Message>> {
    map p | p in PartitionsOf(msgs) :: OfPartition(msgs, p)
  }

  /** Every message lands in its partition's group, right after the earlier ones of that partition. */
  lemma {:induction false} GroupKeepsPlace(msgs: seq<Message>, i: nat, p: int)
    requires i < |msgs| && msgs[i].partition == p
    ensures |OfPartition(msgs[..i], p)| < |OfPartition(msgs, p)|
    ensures OfPartition(msgs, p)[|OfPartition(msgs[..i], p)|] == msgs[i]
    decreases |msgs|
  {
    var front := msgs[..|msgs| - 1];
    if i < |front| {
      assert front[..i] == msgs[..i];
      GroupKeepsPlace(front, i, p);
    } else {
      assert msgs[..i] == front;
    }
  }

  /** A group holds messages of its partition only, and no more than were polled. */
  lemma {:induction false} GroupIsPure(msgs: seq<Message>, p: int)
    ensures |OfPartition(msgs, p)| <= |msgs|
    ensures forall m :: m in OfPartition(msgs, p) ==> m.partition == p && m in msgs
    decreases |msgs|
  {
    if msgs != [] {
      GroupIsPure(msgs[..|msgs| - 1], p);
    }
  }

  lemma {:induction false} GroupsGrow(msgs: seq<Message>, i: nat, q: int)
    requires i < |msgs|
    ensures OfPartition(msgs[..i + 1], q)
         == OfPartition(msgs[..i], q) + if msgs[i].partition == q then [msgs[i]] else []
    ensures PartitionsOf(msgs[..i + 1]) == PartitionsOf(msgs[..i]) + {msgs[i].partition}
  {
    var front := msgs[..i + 1];
    assert front[..|front| - 1] == msgs[..i] && front[|front| - 1] == msgs[i];
  }

  /** `grouped` is the grouping of `msgs`. */
  ghost predicate IsGrouped(grouped: map<int, seq<Message>>, msgs: seq<Message>) {
    && grouped.Keys == PartitionsOf(msgs)
    && (forall p :: p in grouped ==> grouped[p] == OfPartition(msgs, p))
    && (forall p :: p !in grouped ==> OfPartition(msgs, p) == [])
  }

  lemma {:induction false} OneMoreGrouped(grouped: map<int, seq<Message>>, msgs: seq<Message>, i: nat)
    requires i < |msgs| && IsGrouped(grouped, msgs[..i])
    ensures var p := msgs[i].partition;
      var group := if p in grouped then grouped[p] else [];
      IsGrouped(grouped[p := group + [msgs[i]]], msgs[..i + 1])
  {
    var p := msgs[i].partition;
    var group := if p in grouped then grouped[p] else [];
    var more := grouped[p := group + [msgs[i]]];
    GroupsGrow(msgs, i, p);
    forall q ensures q in more ==> more[q] == OfPartition(msgs[..i + 1], q)
             ensures q !in more ==> OfPartition(msgs[..i + 1], q) == [] {
      GroupsGrow(msgs, i, q);
    }
  }

  method GroupByPartition(msgs: seq<Message>) returns (grouped: map<int, seq<Message>>)
    ensures grouped == Groups(msgs)
  {
    grouped := map[];
    for i := 0 to |msgs|
      invariant IsGrouped(grouped, msgs[..i])
    {
      OneMoreGrouped(grouped, msgs, i);
      var p := msgs[i].partition;
      var group := if p in grouped then grouped[p] else [];
      grouped := grouped[p := group + [msgs[i]]];
    }
    assert msgs[..|msgs|] == msgs;
  }

  // ---- What the handlers do ----

  /** The loop's own state and, last, what the broker client holds for it. */
  datatype Loop = Loop(
    reasons: set<Reason>, ready: bool, partitionsAssigned: bool,
    commitFailures: nat, assignedCount: nat, paused: set<int>,
    kAssigned: set<int>, kPaused: set<int>)

  /** What /readyz answers. */
  predicate ReportsReady(v: Loop) {
    v.ready && v.partitionsAssigned
  }

  /** Which calls of the broker client succeed. */
  datatype Calls = Calls(assignment: bool, pause: bool, resume: bool)

  function Started(): Loop {
    Loop({}, true, false, 0, 0, {}, {}, {})
  }

  function PausedAll(v: Loop, k: Calls): Loop {
    if k.assignment && k.pause then v.(kPaused := v.kPaused + v.kAssigned) else v
  }

  function ResumedAll(v: Loop, k: Calls): Loop {
    if !k.assignment || v.kAssigned == {} then v
    else v.(kPaused := if k.resume then v.kPaused - v.kAssigned else v.kPaused, paused := {})
  }

  function Entered(v: Loop, r: Reason, k: Calls): Loop {
    var v' := v.(reasons := v.reasons + {r});
    if v.reasons == {} then PausedAll(v', k).(ready := false) else v'
  }

  function Exited(v: Loop, r: Reason, k: Calls): Loop {
    var v' := v.(reasons := v.reasons - {r});
    if v'.reasons == {} then ResumedAll(v', k).(ready := true) else v'
  }

  /** A commit tick; `any` says the coordinator had something to report. */
  function Ticked(threshold: nat, v: Loop, any: bool, committed: bool, k: Calls): Loop {
    if !any then v
    else if !committed then
      var v' := v.(commitFailures := v.commitFailures + 1);
      if v'.commitFailures >= threshold && BrokerUnavailable !in v.reasons
      then Entered(v', BrokerUnavailable, k) else v'
    else
      var v' := v.(commitFailures := 0);
      if BrokerUnavailable in v.reasons then Exited(v', BrokerUnavailable, k) else v'
  }

  function Notified(v: Loop, st: Circuit, k: Calls): Loop {
    match st
    case Open => if TargetUnavailable !in v.reasons then Entered(v, TargetUnavailable, k) else v
    case Closed => if TargetUnavailable in v.reasons then Exited(v, TargetUnavailable, k) else v
    case HalfOpen => v
  }

  function MadeReady(v: Loop, k: Calls): Loop {
    if v.reasons != {} || v.paused == {} || !k.resume then v
    else v.(kPaused := v.kPaused - v.paused, paused := {})
  }

  function Backpressured(v: Loop, p: int, k: Calls): Loop {
    if p in v.paused || !k.pause then v else v.(kPaused := v.kPaused + {p}, paused := v.paused + {p})
  }

  function Granted(v: Loop, ps: seq<int>): Loop {
    v.(assignedCount := v.assignedCount + |ps|, partitionsAssigned := true,
       kAssigned := v.kAssigned + set p | p in ps)
  }

  function Withdrawn(v: Loop, ps: seq<int>): Loop {
    var gone := set p | p in ps;
    var v' := v.(paused := v.paused - gone, kAssigned := v.kAssigned - gone, kPaused := v.kPaused - gone);
    if v.assignedCount <= |ps| then v'.(assignedCount := 0, partitionsAssigned := false)
    else v'.(assignedCount := v.assignedCount - |ps|)
  }

  /** The coordinator has forgotten the partitions of `ps`. */
  function Forgotten(d: Dispatcher.Shared, ps: seq<int>): Dispatcher.Shared {
    d.(records := d.records - set p | p in ps)
  }

  function Restricted(offsets: map<int, int>, ps: seq<int>): map<int, int> {
    map p | p in offsets && p in ps :: offsets[p]
  }

  /** What a poll hands to Send, among `ps`: nothing when degraded, and no paused partition. */
  function Forwarded(v: Loop, groups: map<int, seq<Message>>, ps: set<int>): map<int, seq<Message>> {
    if v.reasons != {} then map[] else map p | p in groups && p in ps && p !in v.paused :: groups[p]
  }

  /** The partitions whose Send reports backpressure. */
  function Full(v: Loop, groups: map<int, seq<Message>>, answers: map<int, Dispatcher.Outcome>,
                ps: set<int>): set<int> {
    set p | p in Forwarded(v, groups, ps) && p in answers && answers[p] == Dispatcher.Backpressure
  }

  function Polled(v: Loop, full: set<int>, k: Calls): Loop {
    if k.pause then v.(kPaused := v.kPaused + full, paused := v.paused + full) else v
  }

  // ---- The handlers ----

  /** The broker client as the loop sees it. `works` decides whether a call succeeds. */
  class Consumer {
    var assignment: set<int>
    var paused: set<int>
    var committed: map<int, int>

    constructor ()
      ensures assignment == {} && paused == {} && committed == map[]
    {
      assignment, paused, committed := {}, {}, map[];
    }

    method CommitOffsets(offsets: map<int, int>, works: bool) returns (ok: bool)
      modifies this`committed
      ensures ok == works && committed == if works then old(committed) + offsets else old(committed)
    {
      if works {
        committed := committed + offsets;
      }
      return works;
    }

    method Pause(ps: set<int>, works: bool) returns (ok: bool)
      modifies this`paused
      ensures ok == works && paused == if works then old(paused) + ps else old(paused)
    {
      if works {
        paused := paused + ps;
      }
      return works;
    }

    method Resume(ps: set<int>, works: bool) returns (ok: bool)
      modifies this`paused
      ensures ok == works && paused == if works then old(paused) - ps else old(paused)
    {
      if works {
        paused := paused - ps;
      }
      return works;
    }
  }

  class PollLoop {
    const threshold: nat
    const kafka: Consumer
    const degraded: DegradedState
    const health: Health
    const dispatcher: Dispatcher.UnorderedDispatcher
    var commitFailures: nat
    var assignedCount: nat
    var pausedPartitions: map<int, bool>

    function View(): Loop
      reads this, kafka, degraded, health
    {
      Loop(Active(degraded.reasons), health.ready, health.partitionsAssigned,
           commitFailures, assignedCount, pausedPartitions.Keys, kafka.assignment, kafka.paused)
    }

    predicate Valid()
      reads this, degraded
    {
      threshold > 0 && Clean(degraded.reasons)
      && forall p :: p in pausedPartitions ==> pausedPartitions[p]
    }

    /** What the coordinator reports now. */
    function Report(): map<int, int>
      reads dispatcher.coordinator
    {
      Offsets.Committable(dispatcher.coordinator.records)
    }

    constructor (threshold: nat, dispatcher: Dispatcher.UnorderedDispatcher)
      requires threshold > 0
      ensures Valid() && fresh(kafka) && fresh(degraded) && fresh(health)
      ensures this.threshold == threshold && this.dispatcher == dispatcher
      ensures View() == Started() && kafka.committed == map[]
    {
      this.threshold, this.dispatcher := threshold, dispatcher;
      kafka := new Consumer();
      degraded := new DegradedState();
      var h := new Health();
      h.SetReady(true);
      health := h;
      commitFailures, assignedCount, pausedPartitions := 0, 0, map[];
      new;
      assert Active(degraded.reasons) == {} by {
        NonZeroIffReason(degraded.reasons);
      }
    }

    method IsReady() returns (b: bool)
      ensures b == ReportsReady(View())
    {
      b := health.IsReady();
    }

    method EnterDegradedMode(r: Reason, k: Calls)
      requires Valid()
      modifies kafka`paused, degraded, health
      ensures Valid() && View() == Entered(old(View()), r, k)
    {
      var wasDegraded := degraded.IsDegraded();
      StaysClean(degraded.reasons, r);
      var _ := degraded.Set(r, []);
      if !wasDegraded {
        if k.assignment && |kafka.assignment| > 0 {
          var _ := kafka.Pause(kafka.assignment, k.pause);
        }
        health.SetReady(false);
      }
    }

    method ExitDegradedMode(r: Reason, k: Calls)
      requires Valid()
      modifies this`pausedPartitions, kafka`paused, degraded, health
      ensures Valid() && View() == Exited(old(View()), r, k)
    {
      StaysClean(degraded.reasons, r);
      var _ := degraded.Clear(r, []);
      var still := degraded.IsDegraded();
      if !still {
        ResumeAllPartitions(k);
        health.SetReady(true);
      }
    }

    method ResumeAllPartitions(k: Calls)
      requires Valid()
      modifies this`pausedPartitions, kafka`paused
      ensures Valid() && View() == ResumedAll(old(View()), k)
    {
      if !k.assignment || kafka.assignment == {} {
        return;
      }
      var _ := kafka.Resume(kafka.assignment, k.resume);
      var keys := pausedPartitions.Keys;
      while keys != {}
        invariant keys == pausedPartitions.Keys && forall p :: p in pausedPartitions ==> pausedPartitions[p]
        modifies this`pausedPartitions
        decreases |keys|
      {
        Inhabited(keys);
        var q :| q in keys;
        pausedPartitions := pausedPartitions - {q};
        keys := keys - {q};
      }
    }

    /** `works` says whether the broker takes the offsets. */
    method CommitOffsets(works: bool, k: Calls)
      requires Valid()
      modifies this, kafka, degraded, health
      ensures Valid() && View() == Ticked(threshold, old(View()), Report() != map[], works, k)
      ensures kafka.committed == if works then old(kafka.committed) + Report() else old(kafka.committed)
    {
      var offsets := dispatcher.coordinator.Report();
      if offsets == map[] {
        assert kafka.committed + offsets == kafka.committed;
        return;
      }
      var ok := kafka.CommitOffsets(offsets, works);
      AfterCommit(ok, k);
    }

    /** What commitOffsets does once the broker has answered. */
    method AfterCommit(ok: bool, k: Calls)
      requires Valid()
      modifies this, kafka, degraded, health
      ensures Valid() && View() == Ticked(threshold, old(View()), true, ok, k)
      ensures kafka.committed == old(kafka.committed)
    {
      var broken := degraded.Includes(BrokerUnavailable);
      if !ok {
        commitFailures := commitFailures + 1;
        if commitFailures >= threshold && !broken {
          EnterDegradedMode(BrokerUnavailable, k);
        }
        return;
      }
      commitFailures := 0;
      if broken {
        ExitDegradedMode(BrokerUnavailable, k);
      }
    }

    method OnCircuitStateChanged(st: Circuit, k: Calls)
      requires Valid()
      modifies this`pausedPartitions, kafka`paused, degraded, health
      ensures Valid() && View() == Notified(old(View()), st, k)
    {
      var known := degraded.Includes(TargetUnavailable);
      match st {
        case Open =>
          if !known {
            EnterDegradedMode(TargetUnavailable, k);
          }
        case Closed =>
          if known {
            ExitDegradedMode(TargetUnavailable, k);
          }
        case HalfOpen =>
      }
    }

    method OnDispatcherReady(k: Calls)
      requires Valid()
      modifies this`pausedPartitions, kafka`paused
      ensures Valid() && View() == MadeReady(old(View()), k)
    {
      var stop := degraded.IsDegraded();
      if stop || |pausedPartitions| == 0 {
        return;
      }
      var ok := kafka.Resume(pausedPartitions.Keys, k.resume);
      if !ok {
        return;
      }
      pausedPartitions := map[];
    }

    method PausePartition(p: int, k: Calls)
      requires Valid()
      modifies this`pausedPartitions, kafka`paused
      ensures Valid() && View() == Backpressured(old(View()), p, k)
    {
      if p in pausedPartitions && pausedPartitions[p] {
        return;
      }
      var ok := kafka.Pause({p}, k.pause);
      if !ok {
        return;
      }
      pausedPartitions := pausedPartitions[p := true];
    }

    /** The callback and the client's incremental assign that follows it. */
    method OnPartitionsAssigned(ps: seq<int>)
      requires Valid() && dispatcher.Valid()
      modifies this`assignedCount, kafka`assignment, health, dispatcher
      ensures Valid() && dispatcher.Valid() && View() == Granted(old(View()), ps)
      ensures dispatcher.View() == Dispatcher.AssignedTo(old(dispatcher.View()), ps)
    {
      assignedCount := assignedCount + |ps|;
      health.SetPartitionsAssigned(true);
      dispatcher.OnPartitionsAssigned(ps);
      kafka.assignment := kafka.assignment + set p | p in ps;
    }

    /** The callback and the client's incremental unassign that follows it. */
    method OnPartitionsRevoked(ps: seq<int>, works: bool)
      requires Valid() && dispatcher.Valid()
      modifies this`assignedCount, this`pausedPartitions, kafka, health, dispatcher, dispatcher.coordinator
      ensures Valid() && dispatcher.Valid() && View() == Withdrawn(old(View()), ps)
      ensures dispatcher.View() == Forgotten(Dispatcher.Revoked(old(dispatcher.View()), ps), ps)
      ensures kafka.committed
           == if works then old(kafka.committed) + Restricted(old(Report()), ps) else old(kafka.committed)
      ensures forall p :: var now, before, report := kafka.committed, old(kafka.committed), old(Report());
        && (p in now <==> p in before || (works && p in ps && p in report))
        && (p in now ==> now[p] == if works && p in ps && p in report then report[p] else before[p])
      ensures forall p :: p in dispatcher.coordinator.records <==> p in old(dispatcher.coordinator.records) && p !in ps
      ensures forall p :: p in dispatcher.coordinator.records ==>
        dispatcher.coordinator.records[p] == old(dispatcher.coordinator.records)[p]
      ensures forall p :: p in pausedPartitions <==> p in old(pausedPartitions) && p !in ps
    {
      if assignedCount <= |ps| {
        assignedCount := 0;
        health.SetPartitionsAssigned(false);
      } else {
        assignedCount := assignedCount - |ps|;
      }
      dispatcher.OnPartitionsRevoked(ps);
      CommitRevoked(ps, works);
      ForgetAll(ps);
      var gone := set p | p in ps;
      kafka.assignment, kafka.paused := kafka.assignment - gone, kafka.paused - gone;
    }

    /** What the coordinator reports for the revoked partitions is committed. */
    method CommitRevoked(ps: seq<int>, works: bool)
      modifies kafka`committed
      ensures kafka.committed == if works then old(kafka.committed) + Restricted(Report(), ps) else old(kafka.committed)
    {
      var all := dispatcher.coordinator.Report();
      var revoked := map p | p in all && p in ps :: all[p];
      if revoked != map[] {
        var _ := kafka.CommitOffsets(revoked, works);
      } else {
        assert kafka.committed + revoked == kafka.committed;
      }
    }

    /** The last loop of the callback: coordinator records and tracked pauses are dropped. */
    method ForgetAll(ps: seq<int>)
      requires Valid() && dispatcher.Valid()
      modifies this`pausedPartitions, dispatcher.coordinator
      ensures Valid() && dispatcher.Valid()
      ensures pausedPartitions == old(pausedPartitions) - (set p | p in ps)
      ensures dispatcher.View() == Forgotten(old(dispatcher.View()), ps)
    {
      for i := 0 to |ps|
        invariant pausedPartitions == old(pausedPartitions) - (set p | p in ps[..i])
        invariant forall p :: p in pausedPartitions ==> pausedPartitions[p]
        invariant dispatcher.View() == Forgotten(old(dispatcher.View()), ps[..i])
        modifies this`pausedPartitions, dispatcher.coordinator
      {
        assert ps[..i + 1] == ps[..i] + [ps[i]];
        dispatcher.coordinator.Reset(ps[i]);
        pausedPartitions := pausedPartitions - {ps[i]};
      }
      assert ps[..|ps|] == ps;
    }

    /**
     * `msgs` is what the client returned. `order` is the order in which the groups were
     * sent and `answers` what the Sends returned; only partitions that were sent answer.
     */
    method Poll(msgs: seq<Message>, k: Calls)
      returns (ghost order: seq<int>, ghost answers: map<int, Dispatcher.Outcome>)
      requires Valid() && dispatcher.Valid()
      modifies this`pausedPartitions, kafka`paused, dispatcher, dispatcher.coordinator
      ensures Valid() && dispatcher.Valid()
      ensures old(View()).reasons == {} ==> forall q ::
        TurnFor(dispatcher.batchSize, old(View()), old(dispatcher.View()), View(), dispatcher.View(), q,
                OfPartition(msgs, q), k)
      ensures Picked(Groups(msgs), answers) == Forwarded(old(View()), Groups(msgs), PartitionsOf(msgs))
      ensures View() == Polled(old(View()), Full(old(View()), Groups(msgs), answers, PartitionsOf(msgs)), k)
      ensures old(View()).reasons != {} ==> View() == old(View()) && dispatcher.View() == old(dispatcher.View())
      ensures old(View()).reasons == {} ==>
        && Distinct(order) && (forall p :: p in order <==> p in Groups(msgs))
        && Rounds(dispatcher.batchSize, dispatcher.channelCap, old(View()), old(dispatcher.View()), Groups(msgs),
                  order, k)
           == (View(), dispatcher.View(), answers)
    {
      order, answers := [], map[];
      var stop := degraded.IsDegraded();
      if stop {
        DegradedForwardsNothing(View(), Groups(msgs), PartitionsOf(msgs), k);
        return;
      }
      var grouped := GroupByPartition(msgs);
      order, answers := Forward(grouped, msgs, k);
    }

    /** The loop over the groups of `msgs`. */
    method Forward(grouped: map<int, seq<Message>>, ghost msgs: seq<Message>, k: Calls)
      returns (ghost order: seq<int>, ghost answers: map<int, Dispatcher.Outcome>)
      requires Valid() && dispatcher.Valid() && View().reasons == {} && grouped == Groups(msgs)
      modifies this`pausedPartitions, kafka`paused, dispatcher, dispatcher.coordinator
      ensures Valid() && dispatcher.Valid()
      ensures forall q ::
        TurnFor(dispatcher.batchSize, old(View()), old(dispatcher.View()), View(), dispatcher.View(), q,
                OfPartition(msgs, q), k)
      ensures Picked(grouped, answers) == Forwarded(old(View()), grouped, PartitionsOf(msgs))
      ensures View() == Polled(old(View()), Full(old(View()), grouped, answers, PartitionsOf(msgs)), k)
      ensures Distinct(order) && (forall p :: p in order <==> p in grouped)
      ensures Rounds(dispatcher.batchSize, dispatcher.channelCap, old(View()), old(dispatcher.View()), grouped,
                     order, k)
           == (View(), dispatcher.View(), answers)
    {
      answers := map[];
      GroupsHoldAll(msgs);
      ghost var v, d := View(), dispatcher.View();
      var queue := Enumerate(grouped.Keys);
      order := queue;
      for i := 0 to |queue|
        invariant Valid() && dispatcher.Valid()
        invariant Rounds(dispatcher.batchSize, dispatcher.channelCap, v, d, grouped, queue[..i], k)
               == (View(), dispatcher.View(), answers)
      {
        assert queue[..i + 1][..i] == queue[..i];
        answers := SendGroup(queue[i], grouped[queue[i]], k, answers);
      }
      assert queue[..|queue|] == queue;
      RoundsInAnyOrder(dispatcher.batchSize, dispatcher.channelCap, v, d, grouped, queue, k);
      assert grouped.Keys == PartitionsOf(msgs);
      forall q ensures TurnFor(dispatcher.batchSize, v, d, View(), dispatcher.View(), q, OfPartition(msgs, q), k) {
        RoundsForOne(dispatcher.batchSize, dispatcher.channelCap, v, d, grouped, queue, k, q);
      }
    }

    /** One turn of the loop over the groups. */
    method SendGroup(p: int, group: seq<Message>, k: Calls, ghost answers: map<int, Dispatcher.Outcome>)
      returns (ghost answers': map<int, Dispatcher.Outcome>)
      requires Valid() && dispatcher.Valid() && group != []
      modifies this`pausedPartitions, kafka`paused, dispatcher, dispatcher.coordinator
      ensures Valid() && dispatcher.Valid()
      ensures Round(dispatcher.batchSize, dispatcher.channelCap, old(View()), old(dispatcher.View()), answers, p,
                    group, k)
           == (View(), dispatcher.View(), answers')
      ensures TurnFor(dispatcher.batchSize, old(View()), old(dispatcher.View()), View(), dispatcher.View(), p, group, k)
      ensures forall q :: q != p ==> SameFor(old(View()), old(dispatcher.View()), View(), dispatcher.View(), q)
    {
      ghost var v, d := View(), dispatcher.View();
      answers' := answers;
      if p !in pausedPartitions {
        var r := dispatcher.Send(p, group);
        answers' := answers[p := r];
        if r == Dispatcher.Backpressure {
          PausePartition(p, k);
        }
      }
      RoundForOne(dispatcher.batchSize, dispatcher.channelCap, v, d, answers, p, group, k, p);
      forall q | q != p ensures SameFor(v, d, View(), dispatcher.View(), q) {
        RoundForOne(dispatcher.batchSize, dispatcher.channelCap, v, d, answers, p, group, k, q);
      }
    }
  }

  /** The keys of a map in some order, as a range loop yields them. */
  method Enumerate(keys: set<int>) returns (order: seq<int>)
    ensures Members(order) == keys && Distinct(order)
    ensures forall p :: p in order <==> p in keys
    decreases |keys|
  {
    if keys == {} {
      return [];
    }
    Inhabited(keys);
    var q :| q in keys;
    var others := Enumerate(keys - {q});
    order := others + [q];
    assert order[..|others|] == others;
  }

  function Members(s: seq<int>): set<int> {
    if s == [] then {} else Members(s[..|s| - 1]) + {s[|s| - 1]}
  }

  lemma {:induction false} MembersOfSeq(s: seq<int>)
    ensures forall x :: x in Members(s) <==> x in s
    decreases |s|
  {
    if s != [] {
      MembersOfSeq(s[..|s| - 1]);
      assert s == s[..|s| - 1] + [s[|s| - 1]];
    }
  }

  predicate Distinct(s: seq<int>) {
    forall i, j :: 0 <= i < j < |s| ==> s[i] != s[j]
  }

  /** The partitions taken one after the other. */
  function Turns(v: Loop, groups: map<int, seq<Message>>, answers: map<int, Dispatcher.Outcome>,
                 order: seq<int>, k: Calls)
    : (Loop, map<int, seq<Message>>)
    requires forall p :: p in order ==> p in groups
  {
    if order == [] then (v, map[])
    else
      var p := order[|order| - 1];
      var (v', sent) := Turns(v, groups, answers, order[..|order| - 1], k);
      if p in v'.paused then (v', sent)
      else (if p in answers && answers[p] == Dispatcher.Backpressure then Backpressured(v', p, k) else v',
            sent[p := groups[p]])
  }

  /** The groups are sent in turn, each Send seeing what the earlier ones did to the dispatcher. */
  function Rounds(size: nat, cap: nat, v: Loop, d: Dispatcher.Shared, groups: map<int, seq<Message>>, order: seq<int>,
                  k: Calls): (Loop, Dispatcher.Shared, map<int, Dispatcher.Outcome>)
    requires size > 0 && forall p :: p in order ==> p in groups
  {
    if order == [] then (v, d, map[])
    else
      var p := order[|order| - 1];
      var (v', d', answers) := Rounds(size, cap, v, d, groups, order[..|order| - 1], k);
      Round(size, cap, v', d', answers, p, groups[p], k)
  }

  function Round(size: nat, cap: nat, v: Loop, d: Dispatcher.Shared, answers: map<int, Dispatcher.Outcome>, p: int,
                 group: seq<Message>, k: Calls): (Loop, Dispatcher.Shared, map<int, Dispatcher.Outcome>)
    requires size > 0
  {
    if p in v.paused then (v, d, answers)
    else
      var (d', r) := Dispatcher.Sent(size, cap, d, p, group);
      (if r == Dispatcher.Backpressure then Backpressured(v, p, k) else v, d', answers[p := r])
  }

  /** The groups of the partitions that answered. */
  function Picked(groups: map<int, seq<Message>>, answers: map<int, Dispatcher.Outcome>): map<int, seq<Message>> {
    map p | p in answers && p in groups :: groups[p]
  }

  /** Turns depend on the answers for the partitions of the order only. */
  lemma {:induction false} TurnsLocal(v: Loop, groups: map<int, seq<Message>>, a: map<int, Dispatcher.Outcome>,
                                      b: map<int, Dispatcher.Outcome>, order: seq<int>, k: Calls)
    requires forall p :: p in order ==> p in groups && (p in a <==> p in b) && (p in a ==> a[p] == b[p])
    ensures Turns(v, groups, a, order, k) == Turns(v, groups, b, order, k)
    decreases |order|
  {
    if order != [] {
      TurnsLocal(v, groups, a, b, order[..|order| - 1], k);
    }
  }

  /** With the answers that the Sends gave, the rounds are the turns. */
  lemma {:induction false} RoundsAreTurns(size: nat, cap: nat, v: Loop, d: Dispatcher.Shared,
                                          groups: map<int, seq<Message>>, order: seq<int>, k: Calls)
    requires size > 0 && Distinct(order) && forall p :: p in order ==> p in groups
    ensures var (v', d', answers) := Rounds(size, cap, v, d, groups, order, k);
      && (forall p :: p in answers ==> p in order)
      && Turns(v, groups, answers, order, k) == (v', Picked(groups, answers))
    decreases |order|
  {
    if order != [] {
      var front, p := order[..|order| - 1], order[|order| - 1];
      RoundsAreTurns(size, cap, v, d, groups, front, k);
      var before := Rounds(size, cap, v, d, groups, front, k).2;
      var answers := Rounds(size, cap, v, d, groups, order, k).2;
      TurnsLocal(v, groups, before, answers, front, k);
      assert p !in before;
      assert p in answers ==> Picked(groups, answers) == Picked(groups, before)[p := groups[p]];
    } else {
      assert Picked(groups, map[]) == map[];
    }
  }

  /** The order in which the map yields the partitions makes no difference. */
  lemma {:induction false} TurnsInAnyOrder(v: Loop, groups: map<int, seq<Message>>,
                                           answers: map<int, Dispatcher.Outcome>, order: seq<int>, k: Calls)
    requires v.reasons == {} && Distinct(order) && forall p :: p in order ==> p in groups
    ensures Turns(v, groups, answers, order, k)
         == (Polled(v, Full(v, groups, answers, Members(order)), k), Forwarded(v, groups, Members(order)))
    decreases |order|
  {
    if order == [] {
      assert Forwarded(v, groups, {}) == map[];
      NoElementIsEmpty(Full(v, groups, answers, {}));
      assert v.kPaused + {} == v.kPaused && v.paused + {} == v.paused;
    } else {
      var before, p := order[..|order| - 1], order[|order| - 1];
      TurnsInAnyOrder(v, groups, answers, before, k);
      MembersOfSeq(before);
      FullGrows(v, groups, answers, Members(before), p);
      PolledGrows(v, Full(v, groups, answers, Members(before)), p, k);
    }
  }

  /** Whatever the order, every unpaused group is sent once and exactly the refused ones are paused. */
  lemma {:induction false} RoundsInAnyOrder(size: nat, cap: nat, v: Loop, d: Dispatcher.Shared,
                                            groups: map<int, seq<Message>>, order: seq<int>, k: Calls)
    requires size > 0 && v.reasons == {} && Distinct(order)
    requires Members(order) == groups.Keys && forall p :: p in order ==> p in groups
    ensures var (v', d', answers) := Rounds(size, cap, v, d, groups, order, k);
      && v' == Polled(v, Full(v, groups, answers, groups.Keys), k)
      && Picked(groups, answers) == Forwarded(v, groups, groups.Keys)
  {
    var answers := Rounds(size, cap, v, d, groups, order, k).2;
    RoundsAreTurns(size, cap, v, d, groups, order, k);
    TurnsInAnyOrder(v, groups, answers, order, k);
  }

  // ---- What a poll comes to for one partition ----

  /** Its messages were handed to Send, which put them back: a full batch waits. */
  predicate WasRefused(size: nat, d: Dispatcher.Shared, p: int) {
    !d.closed && !Dispatcher.InFlight(d, p) && |Dispatcher.MessagesOf(d, p)| >= size
  }

  /** What the loop and the dispatcher hold of `q` is the same in both states. */
  predicate SameFor(v: Loop, d: Dispatcher.Shared, v': Loop, d': Dispatcher.Shared, q: int) {
    && (q in v'.paused <==> q in v.paused) && (q in v'.kPaused <==> q in v.kPaused)
    && (q in d'.bufs <==> q in d.bufs) && (q in d.bufs ==> d'.bufs[q] == d.bufs[q])
    && Dispatcher.InHand(d', q) == Dispatcher.InHand(d, q)
  }

  /**
   * The messages of `group` have joined what the dispatcher holds of `q`, in order and at
   * the end; and `q` is paused, if that call works, exactly if Send refused them.
   */
  predicate SentFor(size: nat, v: Loop, d: Dispatcher.Shared, v': Loop, d': Dispatcher.Shared, q: int,
                    group: seq<Message>, k: Calls) {
    && Dispatcher.InHand(d', q) == Dispatcher.InHand(d, q) + (if d.closed then [] else group)
    && (q in v'.paused <==> k.pause && WasRefused(size, d', q))
    && (q in v'.kPaused <==> q in v.kPaused || (k.pause && WasRefused(size, d', q)))
  }

  function GroupAt(groups: map<int, seq<Message>>, p: int): seq<Message> {
    if p in groups then groups[p] else []
  }

  /** `q` was sent `group`, unless there was none or it is paused. */
  predicate TurnFor(size: nat, v: Loop, d: Dispatcher.Shared, v': Loop, d': Dispatcher.Shared, q: int,
                    group: seq<Message>, k: Calls) {
    if group != [] && q !in v.paused then SentFor(size, v, d, v', d', q, group, k) else SameFor(v, d, v', d', q)
  }

  /** One turn: a paused partition is passed over, another one is sent; nobody else is concerned. */
  lemma {:induction false} RoundForOne(size: nat, cap: nat, v: Loop, d: Dispatcher.Shared,
                                       answers: map<int, Dispatcher.Outcome>, p: int, group: seq<Message>, k: Calls,
                                       q: int)
    requires size > 0 && group != []
    ensures var (v', d', _) := Round(size, cap, v, d, answers, p, group, k);
      d'.closed == d.closed && TurnFor(size, v, d, v', d', q, if q == p then group else [], k)
  {
    if p !in v.paused {
      Dispatcher.SentAttends(size, cap, d, p, group);
      Dispatcher.SentKeepsInHand(size, cap, d, p, group, q);
    }
  }

  lemma {:induction false} RoundsForOne(size: nat, cap: nat, v: Loop, d: Dispatcher.Shared,
                                        groups: map<int, seq<Message>>, order: seq<int>, k: Calls, q: int)
    requires size > 0 && Distinct(order) && forall p :: p in order ==> p in groups && groups[p] != []
    ensures var (v', d', _) := Rounds(size, cap, v, d, groups, order, k);
      d'.closed == d.closed && TurnFor(size, v, d, v', d', q, if q in order then GroupAt(groups, q) else [], k)
    decreases |order|
  {
    if order != [] {
      var front, p := order[..|order| - 1], order[|order| - 1];
      var (mid, d1, answers) := Rounds(size, cap, v, d, groups, front, k);
      RoundsForOne(size, cap, v, d, groups, front, k, q);
      RoundForOne(size, cap, mid, d1, answers, p, groups[p], k, q);
      assert order == front + [p];
    }
  }

  lemma {:induction false} DegradedForwardsNothing(v: Loop, groups: map<int, seq<Message>>, ps: set<int>, k: Calls)
    requires v.reasons != {}
    ensures Picked(groups, map[]) == Forwarded(v, groups, ps) && Polled(v, Full(v, groups, map[], ps), k) == v
  {
    assert Picked(groups, map[]) == map[];
    NoElementIsEmpty(Full(v, groups, map[], ps));
    assert v.kPaused + {} == v.kPaused && v.paused + {} == v.paused;
  }

  lemma {:induction false} GroupsHoldAll(msgs: seq<Message>)
    ensures forall q :: GroupAt(Groups(msgs), q) == OfPartition(msgs, q)
    ensures forall q :: q in Groups(msgs) ==> Groups(msgs)[q] != [] && GroupAt(Groups(msgs), q) == Groups(msgs)[q]
  {
    forall q ensures GroupAt(Groups(msgs), q) == OfPartition(msgs, q)
             ensures q in Groups(msgs) ==> Groups(msgs)[q] != [] {
      PolledPartitions(msgs, q);
    }
  }

  lemma {:induction false} PolledPartitions(msgs: seq<Message>, p: int)
    ensures p in PartitionsOf(msgs) <==> OfPartition(msgs, p) != []
    decreases |msgs|
  {
    if msgs != [] {
      PolledPartitions(msgs[..|msgs| - 1], p);
    }
  }

  lemma {:induction false} PolledGrows(v: Loop, full: set<int>, p: int, k: Calls)
    requires p !in full
    ensures p in Polled(v, full, k).paused <==> p in v.paused
    ensures p !in v.paused ==> Backpressured(Polled(v, full, k), p, k) == Polled(v, full + {p}, k)
  {
    assert v.kPaused + full + {p} == v.kPaused + (full + {p}) && v.paused + full + {p} == v.paused + (full + {p});
  }

  lemma FullGrows(v: Loop, groups: map<int, seq<Message>>, answers: map<int, Dispatcher.Outcome>, ps: set<int>, p: int)
    requires p in groups && p !in ps && v.reasons == {}
    ensures Forwarded(v, groups, ps + {p})
         == if p in v.paused then Forwarded(v, groups, ps) else Forwarded(v, groups, ps)[p := groups[p]]
    ensures Full(v, groups, answers, ps + {p})
         == if p !in v.paused && p in answers && answers[p] == Dispatcher.Backpressure
            then Full(v, groups, answers, ps) + {p} else Full(v, groups, answers, ps)
    ensures p !in Full(v, groups, answers, ps)
  {
  }
}
