/** The dispatcher's two mutexes and the coordinator's: no interleaving of its goroutines gets stuck. */
module Locks {

  datatype Lock = Mu | LingerMu | CoordinatorMu

  /** `Outside` may take long: the processor, a send, a receive, a wait. Closing a channel does not. */
  datatype Op = Acquire(l: Lock) | Release(l: Lock) | Outside | CloseChannel

  // ---- The locking skeleton of the code ----

  datatype Code =
    | Skip
    | Call
    | CloseQueue
    | Hold(l: Lock, body: Code)
    | Then(first: Code, second: Code)
    | Either(left: Code, right: Code)
    | Repeat(body: Code)

  /** `tr` is the lock behaviour of one execution of `code`. */
  ghost predicate Traces(code: Code, tr: seq<Op>)
    decreases code, |tr|
  {
    match code
    case Skip => tr == []
    case Call => tr == [Outside]
    case CloseQueue => tr == [CloseChannel]
    case Hold(l, body) =>
      |tr| >= 2 && tr[0] == Acquire(l) && tr[|tr| - 1] == Release(l) && Traces(body, tr[1..|tr| - 1])
    case Then(a, b) => exists k :: 0 <= k <= |tr| && Traces(a, tr[..k]) && Traces(b, tr[k..])
    case Either(a, b) => Traces(a, tr) || Traces(b, tr)
    case Repeat(body) =>
      tr == [] || exists k :: 0 < k <= |tr| && Traces(body, tr[..k]) && Traces(code, tr[k..])
  }

  const ASSEMBLE_BATCH := Hold(LingerMu, Skip)
  const START_LINGER_TIMER := Hold(LingerMu, Skip)
  const COORDINATE := Hold(CoordinatorMu, Skip)
  const UNDO := Then(COORDINATE, Hold(Mu, Skip))
  const DISPATCH_BATCH :=
    Then(Hold(Mu, Skip), Either(Skip, Then(COORDINATE, Then(Call, Either(Skip, UNDO)))))
  const FLUSH_PARTITION := Either(Hold(Mu, Skip), Then(Hold(Mu, ASSEMBLE_BATCH), DISPATCH_BATCH))
  const TRY_DISPATCH := Either(FLUSH_PARTITION, Hold(Mu, START_LINGER_TIMER))
  const ON_BATCH_DONE := Then(Hold(Mu, Skip), Then(Call, Repeat(TRY_DISPATCH)))
  const CLOSING := Hold(Mu, Then(Repeat(Hold(LingerMu, Skip)), CloseQueue))
  const PROCESS_BATCH := Then(Repeat(Call), Either(Skip, Then(COORDINATE, ON_BATCH_DONE)))

  datatype Routine =
    | Send | LingerCallback | Worker
    | OnPartitionsAssigned | OnPartitionsRevoked | Close
    | CommitTick                   // Committable or Reset, called by the poll loop

  function CodeOf(r: Routine): Code {
    match r
    case Send => Either(Hold(Mu, Skip), Then(Hold(Mu, Skip), TRY_DISPATCH))
    case LingerCallback => Then(Hold(Mu, Hold(LingerMu, Skip)), FLUSH_PARTITION)
    case Worker => Repeat(Then(Call, PROCESS_BATCH))
    case OnPartitionsAssigned => Hold(Mu, Skip)
    case OnPartitionsRevoked => Hold(Mu, Repeat(Hold(LingerMu, Skip)))
    case Close => Then(CLOSING, Call)
    case CommitTick => Then(COORDINATE, Call)
  }

  // ---- The discipline ----

  /** lingerMu only inside mu, the others only while holding nothing. */
  predicate MayTake(held: set<Lock>, l: Lock) {
    held == if l == LingerMu then {Mu} else {}
  }

  /** From holding `held`, the operations nest properly and let go of everything. */
  predicate Disciplined(held: set<Lock>, ops: seq<Op>)
    decreases |ops|
  {
    if ops == [] then held == {}
    else match ops[0]
      case Acquire(l) => MayTake(held, l) && Disciplined(held + {l}, ops[1..])
      case Release(l) => l in held && MayTake(held - {l}, l) && Disciplined(held - {l}, ops[1..])
      case Outside => held == {} && Disciplined(held, ops[1..])
      case CloseChannel => held == {Mu} && Disciplined(held, ops[1..])
  }

  predicate WellOrdered(code: Code, held: set<Lock>) {
    match code
    case Skip => true
    case Call => held == {}
    case CloseQueue => held == {Mu}
    case Hold(l, body) => MayTake(held, l) && WellOrdered(body, held + {l})
    case Then(a, b) => WellOrdered(a, held) && WellOrdered(b, held)
    case Either(a, b) => WellOrdered(a, held) && WellOrdered(b, held)
    case Repeat(body) => WellOrdered(body, held)
  }

  /** A well-ordered piece of code keeps the discipline, whatever it goes on to do. */
  lemma {:induction false} WellOrderedIsDisciplined(code: Code, held: set<Lock>, tr: seq<Op>, rest: seq<Op>)
    requires WellOrdered(code, held) && Traces(code, tr) && Disciplined(held, rest)
    ensures Disciplined(held, tr + rest)
    decreases code, |tr|
  {
    match code {
      case Skip => assert tr + rest == rest;
      case Call => assert (tr + rest)[1..] == rest;
      case CloseQueue => assert (tr + rest)[1..] == rest;
      case Hold(l, body) =>
        var after := [Release(l)] + rest;
        ReleaseAfter(held, l, rest);
        WellOrderedIsDisciplined(body, held + {l}, tr[1..|tr| - 1], after);
        assert (tr + rest)[1..] == tr[1..|tr| - 1] + after;
      case Then(a, b) =>
        var k :| 0 <= k <= |tr| && Traces(a, tr[..k]) && Traces(b, tr[k..]);
        WellOrderedIsDisciplined(b, held, tr[k..], rest);
        WellOrderedIsDisciplined(a, held, tr[..k], tr[k..] + rest);
        SplitAt(tr, k, rest);
      case Either(a, b) =>
        WellOrderedIsDisciplined(if Traces(a, tr) then a else b, held, tr, rest);
      case Repeat(body) =>
        if tr == [] {
          assert tr + rest == rest;
        } else {
          var k :| 0 < k <= |tr| && Traces(body, tr[..k]) && Traces(code, tr[k..]);
          WellOrderedIsDisciplined(code, held, tr[k..], rest);
          WellOrderedIsDisciplined(body, held, tr[..k], tr[k..] + rest);
          SplitAt(tr, k, rest);
        }
    }
  }

  lemma {:induction false} ReleaseAfter(held: set<Lock>, l: Lock, rest: seq<Op>)
    requires MayTake(held, l) && Disciplined(held, rest)
    ensures Disciplined(held + {l}, [Release(l)] + rest)
  {
    assert held + {l} - {l} == held && ([Release(l)] + rest)[1..] == rest;
  }

  lemma SplitAt(tr: seq<Op>, k: nat, rest: seq<Op>)
    requires k <= |tr|
    ensures tr + rest == tr[..k] + (tr[k..] + rest)
  {
  }

  lemma {:induction false} DispatchWellOrdered()
    ensures WellOrdered(DISPATCH_BATCH, {}) && WellOrdered(FLUSH_PARTITION, {}) && WellOrdered(TRY_DISPATCH, {})
  {
    assert WellOrdered(COORDINATE, {}) && WellOrdered(Hold(Mu, Skip), {}) && WellOrdered(UNDO, {});
    assert WellOrdered(Hold(Mu, ASSEMBLE_BATCH), {}) && WellOrdered(Hold(Mu, START_LINGER_TIMER), {});
    assert WellOrdered(Then(Call, Either(Skip, UNDO)), {});
    assert WellOrdered(Then(COORDINATE, Then(Call, Either(Skip, UNDO))), {});
  }

  /** Every execution of every routine of the dispatcher keeps the discipline. */
  lemma {:induction false} RoutinesAreDisciplined(r: Routine, tr: seq<Op>)
    requires Traces(CodeOf(r), tr)
    ensures Disciplined({}, tr)
  {
    DispatchWellOrdered();
    assert WellOrdered(COORDINATE, {}) && WellOrdered(Hold(Mu, Skip), {});
    assert WellOrdered(Hold(Mu, Hold(LingerMu, Skip)), {});
    assert WellOrdered(Hold(Mu, Repeat(Hold(LingerMu, Skip))), {});
    assert WellOrdered(CLOSING, {});
    assert WellOrdered(ON_BATCH_DONE, {});
    assert WellOrdered(PROCESS_BATCH, {});
    assert WellOrdered(Then(Call, PROCESS_BATCH), {});
    assert WellOrdered(CodeOf(r), {});
    WellOrderedIsDisciplined(CodeOf(r), {}, tr, []);
    assert tr + [] == tr;
  }

  // ---- Goroutines ----

  datatype Thread = Thread(held: set<Lock>, rest: seq<Op>)

  /** A goroutine starts, or an existing one makes its next step. */
  datatype Move = Spawn(r: Routine, path: seq<Op>) | Advance(i: nat)

  predicate IsFree(ts: seq<Thread>, l: Lock) {
    forall i :: 0 <= i < |ts| ==> l !in ts[i].held
  }

  predicate CanAdvance(ts: seq<Thread>, i: nat) {
    i < |ts| && ts[i].rest != [] && (ts[i].rest[0].Acquire? ==> IsFree(ts, ts[i].rest[0].l))
  }

  function Advanced(t: Thread): Thread
    requires t.rest != []
  {
    match t.rest[0]
    case Acquire(l) => Thread(t.held + {l}, t.rest[1..])
    case Release(l) => Thread(t.held - {l}, t.rest[1..])
    case _ => Thread(t.held, t.rest[1..])
  }

  ghost predicate CanMove(ts: seq<Thread>, m: Move) {
    match m
    case Spawn(r, path) => Traces(CodeOf(r), path)
    case Advance(i) => CanAdvance(ts, i)
  }

  function Moved(ts: seq<Thread>, m: Move): seq<Thread>
    requires m.Advance? ==> CanAdvance(ts, m.i)
  {
    match m
    case Spawn(_, path) => ts + [Thread({}, path)]
    case Advance(i) => ts[i := Advanced(ts[i])]
  }

  ghost predicate Runs(ts: seq<Thread>, moves: seq<Move>, last: seq<Thread>)
    decreases |moves|
  {
    if moves == [] then ts == last
    else CanMove(ts, moves[0]) && Runs(Moved(ts, moves[0]), moves[1..], last)
  }

  /** Everyone keeps the discipline and no lock has two holders. */
  predicate Ordered(ts: seq<Thread>) {
    && (forall i :: 0 <= i < |ts| ==> Disciplined(ts[i].held, ts[i].rest))
    && (forall i, j :: 0 <= i < j < |ts| ==> ts[i].held !! ts[j].held)
  }

  lemma {:induction false} OrderedMove(ts: seq<Thread>, m: Move)
    requires Ordered(ts) && CanMove(ts, m)
    ensures Ordered(Moved(ts, m))
  {
    match m {
      case Spawn(r, path) => RoutinesAreDisciplined(r, path);
      case Advance(_) =>
    }
  }

  lemma {:induction false} OrderedRun(ts: seq<Thread>, moves: seq<Move>, last: seq<Thread>)
    requires Ordered(ts) && Runs(ts, moves, last)
    ensures Ordered(last)
    decreases |moves|
  {
    if moves != [] {
      OrderedMove(ts, moves[0]);
      OrderedRun(Moved(ts, moves[0]), moves[1..], last);
    }
  }

  // ---- Waiting ----

  /** Thread `i` cannot go on because `j` holds the lock it needs. */
  predicate Waits(ts: seq<Thread>, i: nat, j: nat) {
    i < |ts| && j < |ts| && ts[i].rest != [] && ts[i].rest[0].Acquire? && ts[i].rest[0].l in ts[j].held
  }

  lemma LingerInsideMu(held: set<Lock>, rest: seq<Op>)
    requires Disciplined(held, rest) && LingerMu in held
    ensures Mu in held
  {
  }

  /** Whoever holds a lock can go on. */
  lemma {:induction false} HolderGoes(ts: seq<Thread>, j: nat)
    requires Ordered(ts) && j < |ts| && ts[j].held != {}
    ensures CanAdvance(ts, j)
  {
    assert Disciplined(ts[j].held, ts[j].rest);
    if ts[j].rest[0] == Acquire(LingerMu) {
      forall i | 0 <= i < |ts| ensures LingerMu !in ts[i].held {
        if LingerMu in ts[i].held {
          LingerInsideMu(ts[i].held, ts[i].rest);
        }
      }
    }
  }

  lemma {:induction false} SomeoneGoes(ts: seq<Thread>, i: nat) returns (j: nat)
    requires Ordered(ts) && i < |ts| && ts[i].rest != []
    ensures CanAdvance(ts, j)
  {
    if CanAdvance(ts, i) {
      return i;
    }
    j :| 0 <= j < |ts| && ts[i].rest[0].l in ts[j].held;
    HolderGoes(ts, j);
  }

  /** Nobody who is waited for waits: there is no chain of waiting, let alone a cycle. */
  lemma {:induction false} NoWaitChain(moves: seq<Move>, ts: seq<Thread>, i: nat, j: nat, k: nat)
    requires Runs([], moves, ts) && Waits(ts, i, j)
    ensures i != j && CanAdvance(ts, j) && !Waits(ts, j, k)
  {
    OrderedRun([], moves, ts);
    assert Disciplined(ts[i].held, ts[i].rest);
    HolderGoes(ts, j);
  }

  /** Nobody ever waits for lingerMu: mu already protects all it protects. */
  lemma {:induction false} LingerMuIsNeverContended(moves: seq<Move>, ts: seq<Thread>, i: nat)
    requires Runs([], moves, ts) && i < |ts| && ts[i].rest != [] && ts[i].rest[0] == Acquire(LingerMu)
    ensures IsFree(ts, LingerMu)
  {
    OrderedRun([], moves, ts);
    assert Disciplined(ts[i].held, ts[i].rest);
    HolderGoes(ts, i);
  }

  /**
   * Deadlock freedom: in every reachable state, all goroutines being unable to move
   * means exactly that all have finished, and then every lock is free.
   */
  lemma {:induction false} StuckOnlyWhenFinished(moves: seq<Move>, ts: seq<Thread>)
    requires Runs([], moves, ts)
    ensures (forall i: nat :: !CanAdvance(ts, i)) <==> (forall i :: 0 <= i < |ts| ==> ts[i].rest == [])
    ensures (forall i: nat :: !CanAdvance(ts, i)) ==> forall l :: IsFree(ts, l)
  {
    OrderedRun([], moves, ts);
    if i :| 0 <= i < |ts| && ts[i].rest != [] {
      var j := SomeoneGoes(ts, i);
    } else {
      forall l ensures IsFree(ts, l) {
        assert forall i :: 0 <= i < |ts| ==> Disciplined(ts[i].held, ts[i].rest);
      }
    }
  }

  /** A goroutine about to call out, or to take mu or the coordinator's lock, holds nothing. */
  lemma {:induction false} CallsHoldNothing(moves: seq<Move>, ts: seq<Thread>, i: nat)
    requires Runs([], moves, ts) && i < |ts| && ts[i].rest != []
    requires ts[i].rest[0] in {Outside, Acquire(Mu), Acquire(CoordinatorMu)}
    ensures ts[i].held == {}
  {
    OrderedRun([], moves, ts);
  }

  /** The batch channel is closed by a goroutine that holds mu and nothing else, so by one at a time. */
  lemma {:induction false} ChannelClosedUnderMu(moves: seq<Move>, ts: seq<Thread>, i: nat, j: nat)
    requires Runs([], moves, ts) && i < |ts| && ts[i].rest != [] && ts[i].rest[0] == CloseChannel
    ensures ts[i].held == {Mu}
    ensures j < |ts| && j != i ==> Mu !in ts[j].held
  {
    OrderedRun([], moves, ts);
    assert Disciplined(ts[i].held, ts[i].rest);
  }

  // ---- Finishing ----

  function Work(ts: seq<Thread>): nat {
    if ts == [] then 0 else |ts[0].rest| + Work(ts[1..])
  }

  lemma {:induction false} WorkShrinks(ts: seq<Thread>, i: nat)
    requires i < |ts| && ts[i].rest != []
    ensures Work(ts[i := Advanced(ts[i])]) == Work(ts) - 1
    decreases |ts|
  {
    if i > 0 {
      WorkShrinks(ts[1..], i - 1);
      assert ts[i := Advanced(ts[i])][1..] == ts[1..][i - 1 := Advanced(ts[i])];
    } else {
      assert ts[i := Advanced(ts[i])][1..] == ts[1..];
    }
  }

  /** Once no goroutine is started any more, every schedule is finite. */
  lemma {:induction false} SchedulesEnd(ts: seq<Thread>, moves: seq<Move>, last: seq<Thread>)
    requires Runs(ts, moves, last) && forall m :: m in moves ==> m.Advance?
    ensures |moves| + Work(last) == Work(ts)
    decreases |moves|
  {
    if moves != [] {
      assert moves[0] in moves;
      WorkShrinks(ts, moves[0].i);
      SchedulesEnd(Moved(ts, moves[0]), moves[1..], last);
    }
  }

  lemma {:induction false} NoWorkLeft(ts: seq<Thread>)
    ensures Work(ts) == 0 <==> forall i :: 0 <= i < |ts| ==> ts[i].rest == []
    decreases |ts|
  {
    if ts != [] {
      NoWorkLeft(ts[1..]);
      if forall i :: 0 <= i < |ts| ==> ts[i].rest == [] {
        assert forall i :: 0 <= i < |ts| - 1 ==> ts[1..][i] == ts[i + 1];
      } else {
        var i :| 0 <= i < |ts| && ts[i].rest != [];
        assert i > 0 ==> ts[1..][i - 1] == ts[i];
      }
    }
  }

  lemma {:induction false} RunsOn(ts: seq<Thread>, a: seq<Move>, mid: seq<Thread>, b: seq<Move>, last: seq<Thread>)
    requires Runs(ts, a, mid) && Runs(mid, b, last)
    ensures Runs(ts, a + b, last)
    decreases |a|
  {
    if a == [] {
      assert a + b == b;
    } else {
      RunsOn(Moved(ts, a[0]), a[1..], mid, b, last);
      assert (a + b)[1..] == a[1..] + b;
    }
  }

  /**
   * However the goroutines of a reachable state are scheduled, if no new one starts they
   * get stuck exactly when all have finished, and that takes the same number of steps.
   */
  lemma {:induction false} EveryScheduleFinishes(before: seq<Move>, ts: seq<Thread>, moves: seq<Move>,
                                                 last: seq<Thread>)
    requires Runs([], before, ts) && Runs(ts, moves, last) && forall m :: m in moves ==> m.Advance?
    ensures |moves| <= Work(ts)
    ensures |moves| == Work(ts) <==> forall i: nat :: !CanAdvance(last, i)
    ensures |moves| == Work(ts) <==> forall i :: 0 <= i < |last| ==> last[i].rest == []
  {
    SchedulesEnd(ts, moves, last);
    NoWorkLeft(last);
    RunsOn([], before, ts, moves, last);
    StuckOnlyWhenFinished(before + moves, last);
  }
}
