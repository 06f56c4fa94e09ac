/**
 * processBatch and holdUntilCircuitCloses. What a worker does to the outside world is a
 * trace of effects; an automaton says which traces are allowed, the loop is proved to
 * produce only those, and the retry and completion rules are proved of all of them.
 */
module Processing {
  import opened Types
  import opened Breaker

  /** What one attempt through the circuit breaker comes back with. */
  datatype Verdict =
    | Ok
    | Poison                 // a non-retryable error
    | Barred                 // ErrOpenState or ErrTooManyRequests
    | Transient(err: int)
    | Crash                  // the processor panics

  datatype Reason = NonRetryable | RetriesExhausted(err: int)

  datatype Effect =
    | Tried(v: Verdict)
    | Slept(backoff: nat)    // the argument given to backoff
    | HoldSlept
    | Interrupted            // the context was cancelled during a sleep
    | Read(state: Circuit)   // cb.State()
    | Dlq(reason: Reason)    // sendToDLQ returns, whether or not the produce worked
    | Completed              // coordinator.BatchComplete
    | Swept                  // onBatchDone

  datatype Ending = Succeeded | DeadLettered | Exhausted | Stopped | Crashed | Unfinished

  datatype Mode =
    | Ready(n: nat)          // about to try, after n transient failures in this round
    | Backing(n: nat)        // must sleep before trying again
    | Waiting(n: nat)        // barred: must sleep without counting
    | Judging(err: int)      // retries used up
    | Holding
    | Peeking
    | Lettering(reason: Reason)
    | Completing(ending: Ending)
    | Sweeping(ending: Ending)
    | Ended(ending: Ending)

  function EndingOf(r: Reason): Ending {
    if r.NonRetryable? then DeadLettered else Exhausted
  }

  /** One allowed effect. */
  function Next(max: nat, m: Mode, e: Effect): Option<Mode> {
    match (m, e)
    case (Ready(_), Tried(Ok)) => Some(Completing(Succeeded))
    case (Ready(_), Tried(Poison)) => Some(Lettering(NonRetryable))
    case (Ready(n), Tried(Barred)) => Some(Waiting(n))
    case (Ready(n), Tried(Transient(err))) => Some(if n >= max then Judging(err) else Backing(n + 1))
    case (Ready(_), Tried(Crash)) => Some(Ended(Crashed))
    case (Backing(n), Slept(k)) => if k + 1 == n then Some(Ready(n)) else None
    case (Backing(_), Interrupted) => Some(Ended(Stopped))
    case (Waiting(n), Slept(k)) => if k == n then Some(if n == 0 then Ready(0) else Backing(n)) else None
    case (Waiting(_), Interrupted) => Some(Ended(Stopped))
    case (Judging(err), Read(st)) => Some(if st == Open then Holding else Lettering(RetriesExhausted(err)))
    case (Holding, HoldSlept) => Some(Peeking)
    case (Holding, Interrupted) => Some(Ended(Stopped))
    case (Peeking, Read(st)) => Some(if st == Open then Holding else Ready(0))
    case (Lettering(r), Dlq(r')) => if r == r' then Some(Completing(EndingOf(r))) else None
    case (Completing(x), Completed) => Some(Sweeping(x))
    case (Sweeping(x), Swept) => Some(Ended(x))
    case _ => None
  }

  /** Where the automaton stands after `trace`; None when the trace is not allowed. */
  function Follow(max: nat, trace: seq<Effect>): Option<Mode> {
    if trace == [] then Some(Ready(0))
    else
      var before := Follow(max, trace[..|trace| - 1]);
      if before.None? then None else Next(max, before.value, trace[|trace| - 1])
  }

  // ---- Completion ----

  function Count(trace: seq<Effect>, e: Effect): nat {
    if trace == [] then 0
    else Count(trace[..|trace| - 1], e) + if trace[|trace| - 1] == e then 1 else 0
  }

  predicate Handled(x: Ending) {
    x == Succeeded || x == DeadLettered || x == Exhausted
  }

  /** How often BatchComplete and onBatchDone were called, read off the mode. */
  lemma {:induction false} CompletionCounts(max: nat, trace: seq<Effect>)
    requires Follow(max, trace).Some?
    ensures var m := Follow(max, trace).value;
      && Count(trace, Completed) == (if m.Sweeping? || (m.Ended? && Handled(m.ending)) then 1 else 0)
      && Count(trace, Swept) == (if m.Ended? && Handled(m.ending) then 1 else 0)
      && (m.Sweeping? ==> Handled(m.ending) && trace != [] && trace[|trace| - 1] == Completed)
      && (m.Completing? ==> Handled(m.ending))
      && (m.Ended? && Handled(m.ending) ==>
            |trace| >= 2 && trace[|trace| - 2] == Completed && trace[|trace| - 1] == Swept)
  {
    if trace != [] {
      var before := trace[..|trace| - 1];
      CompletionCounts(max, before);
    }
  }

  /**
   * BatchComplete is called at most once; exactly on a handled end, where onBatchDone
   * follows at once and is the last effect; never on a shutdown exit or a panic.
   */
  lemma {:induction false} CompletedOnceExactlyWhenHandled(max: nat, trace: seq<Effect>, x: Ending)
    requires Follow(max, trace) == Some(Ended(x))
    ensures Count(trace, Completed) == Count(trace, Swept) == if Handled(x) then 1 else 0
    ensures Handled(x) ==> |trace| >= 2 && trace[|trace| - 2..] == [Completed, Swept]
  {
    CompletionCounts(max, trace);
  }

  // ---- Retry accounting ----

  /** A held batch goes back to the start of a round. */
  predicate Resumes(trace: seq<Effect>) {
    |trace| >= 2 && trace[|trace| - 2] == HoldSlept && trace[|trace| - 1].Read? && trace[|trace| - 1].state != Open
  }

  /** Transient failures since the current round began; rejections do not appear. */
  function RoundFailures(trace: seq<Effect>): nat {
    if trace == [] || Resumes(trace) then 0
    else RoundFailures(trace[..|trace| - 1])
         + if trace[|trace| - 1].Tried? && trace[|trace| - 1].v.Transient? then 1 else 0
  }

  /** The error of the latest transient failure. */
  function LastError(trace: seq<Effect>): Option<int> {
    if trace == [] then None
    else if trace[|trace| - 1].Tried? && trace[|trace| - 1].v.Transient? then Some(trace[|trace| - 1].v.err)
    else LastError(trace[..|trace| - 1])
  }

  lemma {:induction false} RoundCounts(max: nat, trace: seq<Effect>)
    requires Follow(max, trace).Some?
    ensures var m := Follow(max, trace).value;
      && (m.Ready? ==> RoundFailures(trace) == m.n <= max)
      && (m.Backing? ==> RoundFailures(trace) == m.n && 1 <= m.n <= max)
      && (m.Waiting? ==> RoundFailures(trace) == m.n <= max)
      && (m.Judging? ==> RoundFailures(trace) == max + 1 && LastError(trace) == Some(m.err))
      && (m.Peeking? <==> trace != [] && trace[|trace| - 1] == HoldSlept)
      && (m.Lettering? && m.reason.RetriesExhausted? ==>
            && RoundFailures(trace) == max + 1
            && LastError(trace) == Some(m.reason.err)
            && trace != [] && trace[|trace| - 1].Read? && trace[|trace| - 1].state != Open)
  {
    if trace != [] {
      var before := trace[..|trace| - 1];
      RoundCounts(max, before);
      assert |trace| >= 2 ==> before[|before| - 1] == trace[|trace| - 2];
    }
  }

  /**
   * A retries-exhausted dead-letter decision follows exactly MaxRetries+1 transient
   * failures of the current round and a breaker reading other than Open, and it carries
   * the error of the last of them.
   */
  lemma {:induction false} ExhaustionIsEarned(max: nat, trace: seq<Effect>, reason: Reason)
    requires Follow(max, trace + [Dlq(reason)]).Some?
    ensures Follow(max, trace) == Some(Lettering(reason))
    ensures reason.RetriesExhausted? ==>
      && RoundFailures(trace) == max + 1
      && LastError(trace) == Some(reason.err)
      && trace != [] && trace[|trace| - 1].Read? && trace[|trace| - 1].state != Open
    ensures reason.NonRetryable? ==> trace != [] && trace[|trace| - 1] == Tried(Poison)
  {
    var t := trace + [Dlq(reason)];
    assert t[..|t| - 1] == trace;
    RoundCounts(max, trace);
  }

  // ---- The automaton, told by its effects alone ----

  /** The latest effect, if any. */
  function Last(trace: seq<Effect>): Option<Effect> {
    if trace == [] then None else Some(trace[|trace| - 1])
  }

  function Before(trace: seq<Effect>): Option<Effect> {
    if trace == [] then None else Last(trace[..|trace| - 1])
  }

  /** A sleep of backoff(n), or its interruption. */
  predicate Sleeps(e: Effect, n: int) {
    e == Interrupted || (e.Slept? && e.backoff == n)
  }

  /**
   * What may come after `trace`. A success is completed, a non-retryable error dead-lettered
   * and completed. A rejection is slept on without being counted, and in a later attempt of
   * the round its backoff is then slept again. The n-th transient failure of a round sleeps
   * backoff(n-1); after MaxRetries+1 of them the breaker is read: Open holds the batch,
   * anything else dead-letters it with the last error and completes it. A hold sleeps and
   * reads the breaker until it is not Open, and then begins a new round. Nothing follows an
   * interruption, a panic or the sweep.
   */
  predicate MayFollow(max: nat, trace: seq<Effect>, e: Effect) {
    match Last(trace)
    case None => e.Tried?
    case Some(Tried(Ok)) => e == Completed
    case Some(Tried(Poison)) => e == Dlq(NonRetryable)
    case Some(Tried(Barred)) => Sleeps(e, RoundFailures(trace))
    case Some(Tried(Transient(_))) =>
      if RoundFailures(trace) > max then e.Read? else Sleeps(e, RoundFailures(trace) - 1)
    case Some(Tried(Crash)) => false
    case Some(Slept(n)) => if Before(trace) == Some(Tried(Barred)) && n > 0 then Sleeps(e, n - 1) else e.Tried?
    case Some(HoldSlept) => e.Read?
    case Some(Read(st)) =>
      if st == Open then e == HoldSlept || e == Interrupted
      else if Before(trace) == Some(HoldSlept) then e.Tried?
      else LastError(trace).Some? && e == Dlq(RetriesExhausted(LastError(trace).value))
    case Some(Dlq(_)) => e == Completed
    case Some(Completed) => e == Swept
    case Some(_) => false
  }

  /** Where the loop stands, read off the latest effects. */
  predicate ModeFits(max: nat, trace: seq<Effect>, m: Mode) {
    match Last(trace)
    case None => m == Ready(0)
    case Some(Tried(Ok)) => m.Completing?
    case Some(Tried(Poison)) => m == Lettering(NonRetryable)
    case Some(Tried(Barred)) => m == Waiting(RoundFailures(trace))
    case Some(Tried(Transient(_))) =>
      if RoundFailures(trace) > max then m.Judging? else m == Backing(RoundFailures(trace))
    case Some(Slept(n)) => if Before(trace) == Some(Tried(Barred)) && n > 0 then m == Backing(n) else m.Ready?
    case Some(HoldSlept) => m.Peeking?
    case Some(Read(st)) =>
      if st == Open then m.Holding?
      else if Before(trace) == Some(HoldSlept) then m.Ready?
      else LastError(trace).Some? && m == Lettering(RetriesExhausted(LastError(trace).value))
    case Some(Dlq(_)) => m.Completing?
    case Some(Completed) => m.Sweeping?
    case Some(_) => m.Ended?
  }

  lemma {:induction false} ModeFollowsEffects(max: nat, trace: seq<Effect>)
    requires Follow(max, trace).Some?
    ensures ModeFits(max, trace, Follow(max, trace).value)
  {
    if trace != [] {
      ModeFollowsEffects(max, trace[..|trace| - 1]);
      RoundCounts(max, trace[..|trace| - 1]);
      RoundCounts(max, trace);
    }
  }

  /** The automaton allows exactly the effects that may follow. */
  lemma {:induction false} AllowsExactlyWhatMayFollow(max: nat, trace: seq<Effect>, e: Effect)
    requires Follow(max, trace).Some?
    ensures Follow(max, trace + [e]).Some? <==> MayFollow(max, trace, e)
  {
    ModeFollowsEffects(max, trace);
    RoundCounts(max, trace);
    assert (trace + [e])[..|trace|] == trace;
  }

  /** The other direction of ExhaustionIsEarned: after MaxRetries+1 failures the breaker's reading decides. */
  lemma {:induction false} ExhaustionIsForced(max: nat, trace: seq<Effect>, err: int, st: Circuit, e: Effect)
    requires Follow(max, trace).Some? && Last(trace) == Some(Tried(Transient(err))) && RoundFailures(trace) > max
    ensures Follow(max, trace + [Read(st)]).Some?
    ensures Follow(max, trace + [Read(st)] + [e]).Some?
       <==> if st == Open then e == HoldSlept || e == Interrupted else e == Dlq(RetriesExhausted(err))
  {
    var read := trace + [Read(st)];
    AllowsExactlyWhatMayFollow(max, trace, Read(st));
    AllowsExactlyWhatMayFollow(max, read, e);
    assert read[..|trace|] == trace;
  }

  /** What the latest attempt came back with. */
  function LastVerdict(trace: seq<Effect>): Option<Verdict> {
    if trace == [] then None
    else if trace[|trace| - 1].Tried? then Some(trace[|trace| - 1].v)
    else LastVerdict(trace[..|trace| - 1])
  }

  ghost predicate Exhausts(trace: seq<Effect>) {
    exists err :: Dlq(RetriesExhausted(err)) in trace
  }

  /** The batch has come to an end of which its offsets may be committed. */
  ghost predicate Done(trace: seq<Effect>) {
    LastVerdict(trace) == Some(Ok) || LastVerdict(trace) == Some(Poison) || Exhausts(trace)
  }

  lemma {:induction false} ExhaustsMore(trace: seq<Effect>, e: Effect)
    ensures Exhausts(trace + [e]) <==> Exhausts(trace) || (e.Dlq? && e.reason.RetriesExhausted?)
  {
    if err :| Dlq(RetriesExhausted(err)) in trace {
      assert Dlq(RetriesExhausted(err)) in trace + [e];
    }
    if e.Dlq? && e.reason.RetriesExhausted? {
      assert Dlq(RetriesExhausted(e.reason.err)) in trace + [e];
    }
  }

  lemma {:induction false} DoneByMode(max: nat, trace: seq<Effect>)
    requires Follow(max, trace).Some?
    ensures var m, v := Follow(max, trace).value, LastVerdict(trace);
      match m
      case Lettering(NonRetryable) => v == Some(Poison) && !Exhausts(trace)
      case Completing(_) => Done(trace)
      case Sweeping(_) => Done(trace)
      case Ended(x) =>
        (Handled(x) <==> Done(trace)) && (!Handled(x) ==> Last(trace) in {Some(Interrupted), Some(Tried(Crash))})
      case _ => !Done(trace) && v != Some(Crash)
  {
    if trace != [] {
      var before, e := trace[..|trace| - 1], trace[|trace| - 1];
      DoneByMode(max, before);
      ExhaustsMore(before, e);
      assert trace == before + [e];
    }
  }

  /**
   * In every finished trace, BatchComplete and onBatchDone were called once exactly when the
   * last attempt succeeded or met a non-retryable error, or exhausted retries were
   * dead-lettered; and not at all exactly when it ends in an interruption or a panic.
   */
  lemma {:induction false} CompletedExactlyWhenDone(max: nat, trace: seq<Effect>)
    requires Follow(max, trace).Some? && Follow(max, trace).value.Ended?
    ensures Count(trace, Completed) == Count(trace, Swept) == if Done(trace) then 1 else 0
    ensures Done(trace) <==> Last(trace) != Some(Interrupted) && Last(trace) != Some(Tried(Crash))
  {
    DoneByMode(max, trace);
    CompletionCounts(max, trace);
  }

  // ---- Sleeps of a round without rejections ----

  /** The arguments given to backoff, in order. */
  function Backoffs(trace: seq<Effect>): seq<nat> {
    if trace == [] then []
    else Backoffs(trace[..|trace| - 1])
         + if trace[|trace| - 1].Slept? then [trace[|trace| - 1].backoff] else []
  }

  predicate Plain(trace: seq<Effect>) {
    forall k :: 0 <= k < |trace| ==> trace[k] != Tried(Barred) && trace[k] != HoldSlept
  }

  function UpTo(n: nat): seq<nat> {
    if n == 0 then [] else UpTo(n - 1) + [n - 1]
  }

  /** Where the loop can be when it has met neither a rejection nor a hold. */
  predicate PlainMode(max: nat, m: Mode) {
    !m.Waiting? && !m.Peeking? && (m.Ready? ==> m.n <= max) && (m.Backing? ==> 1 <= m.n <= max)
  }

  lemma PlainNext(max: nat, m: Mode, e: Effect)
    requires PlainMode(max, m) && Next(max, m, e).Some? && e != Tried(Barred) && e != HoldSlept
    ensures var m' := Next(max, m, e).value;
      && PlainMode(max, m')
      && (m'.Ready? <==> e.Slept?)
      && (e.Slept? ==> m.Backing? && m'.n == m.n && e.backoff == m.n - 1)
      && (m'.Backing? ==> m.Ready? && m'.n == m.n + 1)
  {
  }

  /** The backoffs so far are 0, 1, 2, ..., as many as the mode says. */
  predicate CountedUp(max: nat, m: Mode, backoffs: seq<nat>) {
    && PlainMode(max, m)
    && (m.Ready? ==> backoffs == UpTo(m.n))
    && (m.Backing? ==> backoffs == UpTo(m.n - 1))
  }

  /** Without rejections and holds, retry k sleeps backoff(k-1): 0, 1, 2, ... in turn. */
  lemma {:induction false} BackoffsCountUp(max: nat, trace: seq<Effect>)
    requires Follow(max, trace).Some? && Plain(trace)
    ensures exists n: nat :: n <= max && Backoffs(trace) == UpTo(n)
    ensures CountedUp(max, Follow(max, trace).value, Backoffs(trace))
  {
    if trace == [] {
      assert Backoffs(trace) == UpTo(0);
    } else {
      var before, e := trace[..|trace| - 1], trace[|trace| - 1];
      assert Plain(before);
      BackoffsCountUp(max, before);
      PlainNext(max, Follow(max, before).value, e);
      if e.Slept? {
        assert Backoffs(trace) == UpTo(e.backoff + 1);
      } else {
        assert Backoffs(trace) == Backoffs(before);
      }
    }
  }

  // ---- The loop ----

  function Verdicts(trace: seq<Effect>): seq<Verdict> {
    if trace == [] then []
    else Verdicts(trace[..|trace| - 1]) + if trace[|trace| - 1].Tried? then [trace[|trace| - 1].v] else []
  }

  function Readings(trace: seq<Effect>): seq<Circuit> {
    if trace == [] then []
    else Readings(trace[..|trace| - 1]) + if trace[|trace| - 1].Read? then [trace[|trace| - 1].state] else []
  }

  predicate Retried(v: Verdict) {
    v.Barred? || v.Transient?
  }

  /** All answers but the last were retried; all of them, as long as the loop goes on. */
  lemma {:induction false} RetriedUntilDecided(max: nat, trace: seq<Effect>)
    requires Follow(max, trace).Some?
    ensures var m, vs := Follow(max, trace).value, Verdicts(trace);
      && (forall j :: 0 <= j < |vs| - 1 ==> Retried(vs[j]))
      && (m.Ready? || m.Backing? || m.Waiting? || m.Judging? || m.Holding? || m.Peeking? ==>
            forall j :: 0 <= j < |vs| ==> Retried(vs[j]))
      && (LastVerdict(trace) == if vs == [] then None else Some(vs[|vs| - 1]))
  {
    if trace != [] {
      RetriedUntilDecided(max, trace[..|trace| - 1]);
    }
  }

  /** For every sleep, whether it ran to its end. */
  function Naps(trace: seq<Effect>): seq<bool> {
    if trace == [] then []
    else
      var e := trace[|trace| - 1];
      Naps(trace[..|trace| - 1])
        + if e.Slept? || e.HoldSlept? then [true] else if e.Interrupted? then [false] else []
  }

  /** What one more effect adds. */
  lemma {:induction false} OneMore(max: nat, trace: seq<Effect>, e: Effect)
    ensures Follow(max, trace).Some? ==> Follow(max, trace + [e]) == Next(max, Follow(max, trace).value, e)
    ensures Verdicts(trace + [e]) == Verdicts(trace) + if e.Tried? then [e.v] else []
    ensures Readings(trace + [e]) == Readings(trace) + if e.Read? then [e.state] else []
    ensures Naps(trace + [e])
         == Naps(trace) + if e.Slept? || e.HoldSlept? then [true] else if e.Interrupted? then [false] else []
  {
    assert (trace + [e])[..|trace|] == trace;
  }

  lemma MoveOne<T>(a: seq<T>, b: seq<T>)
    requires b != []
    ensures (a + [b[0]]) + b[1..] == a + b
  {
  }

  /** How a sleep went: to its end, cut short by cancellation, or beyond the script. */
  datatype Nap = Rested | Cancelled | Over

  /** A worker with a batch, facing a finite script of answers from outside. */
  class Worker {
    const maxRetries: nat
    ghost const script: seq<Verdict>
    ghost const circuit: seq<Circuit>
    ghost const rest: seq<bool>
    var answers: seq<Verdict>     // what the remaining attempts will come back with
    var naps: seq<bool>           // whether the remaining sleeps run to their end
    var states: seq<Circuit>      // what the remaining reads of the breaker will show
    ghost var trace: seq<Effect>
    ghost var mode: Mode

    ghost predicate Valid()
      reads this
    {
      && Follow(maxRetries, trace) == Some(mode)
      && Verdicts(trace) + answers == script
      && Readings(trace) + states == circuit
      && Naps(trace) + naps == rest
    }

    /** The script has no answer to what the worker asks next. */
    ghost predicate Starved()
      reads this
    {
      || (mode.Ready? && answers == [])
      || ((mode.Backing? || mode.Waiting? || mode.Holding?) && naps == [])
      || ((mode.Judging? || mode.Peeking?) && states == [])
    }

    constructor (maxRetries: nat, answers: seq<Verdict>, naps: seq<bool>, states: seq<Circuit>)
      ensures Valid() && mode == Ready(0) && trace == []
      ensures this.maxRetries == maxRetries && script == answers && circuit == states && rest == naps
    {
      this.maxRetries, this.answers, this.naps, this.states := maxRetries, answers, naps, states;
      script, circuit, rest, trace, mode := answers, states, naps, [], Ready(0);
    }

    ghost method Emit(e: Effect)
      requires Valid() && Next(maxRetries, mode, e).Some? && (e.Dlq? || e.Completed? || e.Swept?)
      modifies this`trace, this`mode
      ensures Valid() && mode == Next(maxRetries, old(mode), e).value && trace == old(trace) + [e]
    {
      OneMore(maxRetries, trace, e);
      trace, mode := trace + [e], Next(maxRetries, mode, e).value;
    }

    /** cb.Execute around the processor; None when the script has ended. */
    method Execute() returns (v: Option<Verdict>)
      requires Valid() && mode.Ready?
      modifies this`answers, this`trace, this`mode
      ensures Valid() && old(trace) <= trace
      ensures v.None? ==> Starved()
      ensures v.Some? ==> |answers| < |old(answers)| && mode == Next(maxRetries, old(mode), Tried(v.value)).value
    {
      if |answers| == 0 {
        return None;
      }
      v := Some(answers[0]);
      OneMore(maxRetries, trace, Tried(answers[0]));
      MoveOne(Verdicts(trace), answers);
      trace, mode := trace + [Tried(answers[0])], Next(maxRetries, mode, Tried(answers[0])).value;
      answers := answers[1..];
    }

    /** sleepWithContext; `e` is recorded when the sleep runs to its end. */
    method Sleep(ghost e: Effect) returns (nap: Nap)
      requires Valid() && (e.Slept? || e.HoldSlept?)
      requires Next(maxRetries, mode, e).Some? && Next(maxRetries, mode, Interrupted).Some?
      modifies this`naps, this`trace, this`mode
      ensures Valid() && old(trace) <= trace
      ensures nap == Rested ==> mode == Next(maxRetries, old(mode), e).value
      ensures nap == Cancelled ==> mode == Next(maxRetries, old(mode), Interrupted).value
      ensures nap == Over ==> Starved()
    {
      if |naps| == 0 {
        return Over;
      }
      ghost var seen := if naps[0] then e else Interrupted;
      OneMore(maxRetries, trace, seen);
      MoveOne(Naps(trace), naps);
      trace, mode := trace + [seen], Next(maxRetries, mode, seen).value;
      nap := if naps[0] then Rested else Cancelled;
      naps := naps[1..];
    }

    method ReadState() returns (st: Option<Circuit>)
      requires Valid() && (mode.Judging? || mode.Peeking?)
      modifies this`states, this`trace, this`mode
      ensures Valid() && old(trace) <= trace
      ensures st.None? ==> Starved()
      ensures st.Some? ==> |states| < |old(states)| && mode == Next(maxRetries, old(mode), Read(st.value)).value
    {
      if |states| == 0 {
        return None;
      }
      st := Some(states[0]);
      OneMore(maxRetries, trace, Read(states[0]));
      MoveOne(Readings(trace), states);
      trace, mode := trace + [Read(states[0])], Next(maxRetries, mode, Read(states[0])).value;
      states := states[1..];
    }

    /** BatchComplete, then onBatchDone. */
    ghost method Complete()
      requires Valid() && mode.Completing?
      modifies this`trace, this`mode
      ensures Valid() && old(trace) <= trace && mode == Ended(old(mode).ending)
    {
      Emit(Completed);
      Emit(Swept);
    }

    ghost method DeadLetter(r: Reason)
      requires Valid() && mode == Lettering(r)
      modifies this`trace, this`mode
      ensures Valid() && old(trace) <= trace && mode == Ended(EndingOf(r))
    {
      Emit(Dlq(r));
      Complete();
    }

    /** In terms of the script: which answers were taken, and whether the batch was completed for them. */
    ghost predicate Settled()
      requires Valid()
      reads this
    {
      var taken := |Verdicts(trace)|;
      && (forall j :: 0 <= j < taken - 1 ==> Retried(script[j]))
      && Count(trace, Completed) == Count(trace, Swept) == (if Done(trace) then 1 else 0)
      && (Done(trace) <==> (taken > 0 && (script[taken - 1] == Ok || script[taken - 1] == Poison)) || Exhausts(trace))
      && (!Done(trace) ==> Last(trace) == Some(Interrupted) || (taken > 0 && script[taken - 1] == Crash))
    }

    lemma FinishedIsSettled(x: Ending)
      requires Valid() && (x != Unfinished ==> mode == Ended(x))
      ensures x != Unfinished ==> Settled()
    {
      if x != Unfinished {
        CompletedExactlyWhenDone(maxRetries, trace);
        RetriedUntilDecided(maxRetries, trace);
        var vs := Verdicts(trace);
        assert forall j :: 0 <= j < |vs| ==> script[j] == vs[j];
      }
    }

    static function Quit(nap: Nap): Ending {
      if nap == Cancelled then Stopped else Unfinished
    }

    /** One pass of the retry loop: the ending, or None to go round again. */
    method Attempt(attempt: nat) returns (x: Option<Ending>, failed: Option<int>)
      requires Valid() && attempt <= maxRetries
      requires mode == if attempt == 0 then Ready(0) else Backing(attempt)
      modifies this`answers, this`naps, this`trace, this`mode
      ensures Valid() && old(trace) <= trace
      ensures x.Some? ==> if x.value == Unfinished then Starved() else mode == Ended(x.value)
      ensures x.None? ==> |answers| < |old(answers)|
      ensures x.None? && failed.Some? ==>
        mode == if attempt == maxRetries then Judging(failed.value) else Backing(attempt + 1)
      ensures x.None? && failed.None? ==> mode == old(mode)
    {
      if attempt > 0 {
        var nap := Sleep(Slept(attempt - 1));
        if nap != Rested {
          return Some(Quit(nap)), None;
        }
      }
      var v := Execute();
      if v.None? {
        return Some(Unfinished), None;
      }
      match v.value {
        case Crash => return Some(Crashed), None;
        case Poison =>
          DeadLetter(NonRetryable);
          return Some(DeadLettered), None;
        case Ok =>
          Complete();
          return Some(Succeeded), None;
        case Barred =>
          var nap := Sleep(Slept(attempt));
          if nap != Rested {
            return Some(Quit(nap)), None;
          }
          return None, None;
        case Transient(err) => return None, Some(err);
      }
    }

    /**
     * The script is followed up to its first answer that is neither a rejection nor a
     * transient failure, or up to a dead-letter decision, a cancelled sleep or its end.
     */
    method ProcessBatch() returns (x: Ending)
      requires Valid() && mode == Ready(0)
      modifies this
      ensures Valid() && old(trace) <= trace
      ensures if x == Unfinished then Starved() else mode == Ended(x)
      ensures x == Unfinished ==> answers == [] || naps == [] || states == []
      ensures x != Unfinished ==> Settled()
      decreases |states|, 1
    {
      var lastErr: Option<int> := None;
      var attempt := 0;
      while attempt <= maxRetries
        invariant 0 <= attempt <= maxRetries + 1 && Valid() && old(trace) <= trace && states == old(states)
        invariant attempt > 0 ==> lastErr.Some?
        invariant mode == if attempt == 0 then Ready(0)
                          else if attempt <= maxRetries then Backing(attempt)
                          else Judging(lastErr.value)
        decreases maxRetries + 1 - attempt, |answers|
      {
        var end, failed := Attempt(attempt);
        if end.Some? {
          FinishedIsSettled(end.value);
          return end.value;
        }
        if failed.Some? {
          lastErr := failed;
          attempt := attempt + 1;
        }
      }
      var st := ReadState();
      if st.None? {
        return Unfinished;
      }
      if st.value == Open {
        x := HoldUntilCircuitCloses();
        return;
      }
      DeadLetter(RetriesExhausted(lastErr.value));
      FinishedIsSettled(Exhausted);
      return Exhausted;
    }

    method HoldUntilCircuitCloses() returns (x: Ending)
      requires Valid() && mode == Holding
      modifies this
      ensures Valid() && old(trace) <= trace
      ensures if x == Unfinished then Starved() else mode == Ended(x)
      ensures x != Unfinished ==> Settled()
      decreases |states|, 0
    {
      while true
        invariant Valid() && mode == Holding && old(trace) <= trace && |states| <= |old(states)|
        decreases |states|
      {
        var nap := Sleep(HoldSlept);
        if nap != Rested {
          FinishedIsSettled(Quit(nap));
          return Quit(nap);
        }
        var st := ReadState();
        if st.None? {
          return Unfinished;
        }
        if st.value == Closed || st.value == HalfOpen {
          x := ProcessBatch();
          return;
        }
      }
    }
  }
}
