/**
 * The circuit breaker as the poll loop hears of it: each transition is announced on a
 * channel of three, and a notification that finds the channel full is dropped.
 */
module Breaker {
  import opened Types

  datatype Circuit = Closed | Open | HalfOpen

  const NOTICES := 3

  predicate Legal(from: Circuit, to: Circuit) {
    || (from == Closed && to == Open)
    || (from == Open && to == HalfOpen)
    || (from == HalfOpen && to != HalfOpen)
  }

  /** What a notification does to the TargetUnavailable reason. */
  function Heard(unavailable: bool, st: Circuit): bool {
    match st
    case Open => true
    case Closed => false
    case HalfOpen => unavailable
  }

  function HeardAll(unavailable: bool, notices: seq<Circuit>): bool
    decreases |notices|
  {
    if notices == [] then unavailable else HeardAll(Heard(unavailable, notices[0]), notices[1..])
  }

  datatype Line = Line(breaker: Circuit, notices: seq<Circuit>, unavailable: bool)

  /** The breaker changes state, or the poll loop takes a notice from the channel. */
  datatype Turning = Turn(to: Circuit) | Hear

  predicate CanTurn(s: Line, e: Turning) {
    match e
    case Turn(to) => Legal(s.breaker, to)
    case Hear => s.notices != []
  }

  function Turned(s: Line, e: Turning): Line
    requires CanTurn(s, e)
  {
    match e
    case Turn(to) => Line(to, if |s.notices| < NOTICES then s.notices + [to] else s.notices, s.unavailable)
    case Hear => s.(notices := s.notices[1..], unavailable := Heard(s.unavailable, s.notices[0]))
  }

  /** The state after a history; None when the history is not possible. */
  function LineAfter(h: seq<Turning>): Option<Line> {
    if h == [] then Some(Line(Closed, [], false))
    else
      var before := LineAfter(h[..|h| - 1]);
      if before.Some? && CanTurn(before.value, h[|h| - 1]) then Some(Turned(before.value, h[|h| - 1])) else None
  }

  // ---- What the history alone says ----

  /** How many notices wait on the channel. */
  function Backlog(h: seq<Turning>): nat {
    if h == [] then 0
    else
      var n := Backlog(h[..|h| - 1]);
      if h[|h| - 1].Turn? then (if n < NOTICES then n + 1 else n) else if n > 0 then n - 1 else 0
  }

  /** The latest change to Open or Closed. */
  function LatestChange(h: seq<Turning>): Circuit {
    if h == [] then Closed
    else if h[|h| - 1].Turn? && h[|h| - 1].to != HalfOpen then h[|h| - 1].to
    else LatestChange(h[..|h| - 1])
  }

  /** The latest change to Open or Closed whose notice found room on the channel. */
  function LatestAnnounced(h: seq<Turning>): Circuit {
    if h == [] then Closed
    else if h[|h| - 1].Turn? && h[|h| - 1].to != HalfOpen && Backlog(h[..|h| - 1]) < NOTICES then h[|h| - 1].to
    else LatestAnnounced(h[..|h| - 1])
  }

  /** Every notice found room. */
  predicate NothingDropped(h: seq<Turning>) {
    h == [] || (NothingDropped(h[..|h| - 1]) && (h[|h| - 1].Turn? ==> Backlog(h[..|h| - 1]) < NOTICES))
  }

  lemma {:induction false} HeardLast(unavailable: bool, notices: seq<Circuit>, st: Circuit)
    ensures HeardAll(unavailable, notices + [st]) == Heard(HeardAll(unavailable, notices), st)
    decreases |notices|
  {
    if notices == [] {
      assert notices + [st] == [st];
    } else {
      assert (notices + [st])[1..] == notices[1..] + [st];
      HeardLast(Heard(unavailable, notices[0]), notices[1..], st);
    }
  }

  lemma {:induction false} LineFollowsHistory(h: seq<Turning>, s: Line)
    requires LineAfter(h) == Some(s)
    ensures |s.notices| == Backlog(h)
    ensures (s.breaker != Closed) == (LatestChange(h) == Open)
    ensures HeardAll(s.unavailable, s.notices) == (LatestAnnounced(h) == Open)
    decreases |h|
  {
    if h != [] {
      var e := h[|h| - 1];
      var before := LineAfter(h[..|h| - 1]).value;
      LineFollowsHistory(h[..|h| - 1], before);
      if e.Turn? {
        HeardLast(before.unavailable, before.notices, e.to);
      }
    }
  }

  lemma {:induction false} AllAnnounced(h: seq<Turning>)
    requires NothingDropped(h)
    ensures LatestAnnounced(h) == LatestChange(h)
    decreases |h|
  {
    if h != [] {
      AllAnnounced(h[..|h| - 1]);
    }
  }

  /**
   * Hearing the pending notices makes the TargetUnavailable reason say "the breaker is not
   * Closed" exactly when the latest change to Open or Closed that found room on the channel
   * is the same as the latest one of all; so in every history without a drop.
   */
  lemma {:induction false} BreakerAgreement(h: seq<Turning>, s: Line)
    requires LineAfter(h) == Some(s)
    ensures HeardAll(s.unavailable, s.notices) == (s.breaker != Closed) <==> LatestAnnounced(h) == LatestChange(h)
    ensures NothingDropped(h) ==> HeardAll(s.unavailable, s.notices) == (s.breaker != Closed)
  {
    LineFollowsHistory(h, s);
    LatestAreTwoValued(h);
    if NothingDropped(h) {
      AllAnnounced(h);
    }
  }

  /** While nobody listens the first three changes are kept, in order, and every further one is dropped. */
  lemma {:induction false} FirstThreeAreKept(h: seq<Turning>, s: Line)
    requires LineAfter(h) == Some(s) && forall k :: 0 <= k < |h| ==> h[k].Turn?
    ensures |s.notices| == if |h| < 3 then |h| else 3
    ensures forall k :: 0 <= k < |s.notices| ==> s.notices[k] == h[k].to
    ensures h != [] ==> s.breaker == h[|h| - 1].to
    decreases |h|
  {
    if h != [] {
      FirstThreeAreKept(h[..|h| - 1], LineAfter(h[..|h| - 1]).value);
    }
  }

  /** The loop hears the notices in the order in which they were given. */
  lemma HearsInOrder(h: seq<Turning>, s: Line)
    requires LineAfter(h) == Some(s)
    ensures s.notices != [] <==> LineAfter(h + [Hear]).Some?
    ensures s.notices != [] ==>
      LineAfter(h + [Hear]).value == Line(s.breaker, s.notices[1..], Heard(s.unavailable, s.notices[0]))
  {
    assert (h + [Hear])[..|h|] == h;
  }

  lemma {:induction false} LatestAreTwoValued(h: seq<Turning>)
    ensures LatestChange(h) != HalfOpen && LatestAnnounced(h) != HalfOpen
    decreases |h|
  {
    if h != [] {
      LatestAreTwoValued(h[..|h| - 1]);
    }
  }

  /** A recovery that finds the channel full is never heard: the loop stays degraded. */
  lemma {:induction false} DroppedRecoveryIsNeverHeard(h: seq<Turning>, s: Line)
    requires LineAfter(h) == Some(s) && s.breaker == HalfOpen && Backlog(h) == NOTICES && LatestAnnounced(h) == Open
    ensures var h' := h + [Turn(Closed)];
      LineAfter(h') == Some(s.(breaker := Closed)) && HeardAll(s.unavailable, s.notices)
  {
    var h' := h + [Turn(Closed)];
    assert h'[..|h'| - 1] == h;
    LineFollowsHistory(h, s);
    assert CanTurn(s, Turn(Closed)) && Turned(s, Turn(Closed)) == s.(breaker := Closed);
  }

  lemma {:induction false} Then(h: seq<Turning>, s: Line, e: Turning)
    requires LineAfter(h) == Some(s) && CanTurn(s, e)
    ensures LineAfter(h + [e]) == Some(Turned(s, e)) && Backlog((h + [e])[..|h|]) == Backlog(h)
    ensures LatestAnnounced((h + [e])[..|h|]) == LatestAnnounced(h)
  {
    assert (h + [e])[..|h|] == h;
  }

  /** Such a history: the breaker trips, probes, trips again and probes while nobody listens. */
  lemma {:induction false} RecoveryCanBeDropped() returns (h: seq<Turning>, s: Line)
    ensures LineAfter(h) == Some(s) && s.breaker == HalfOpen && Backlog(h) == NOTICES && LatestAnnounced(h) == Open
  {
    h, s := [], Line(Closed, [], false);
    Then(h, s, Turn(Open));
    h, s := h + [Turn(Open)], Turned(s, Turn(Open));
    Then(h, s, Turn(HalfOpen));
    h, s := h + [Turn(HalfOpen)], Turned(s, Turn(HalfOpen));
    Then(h, s, Turn(Open));
    h, s := h + [Turn(Open)], Turned(s, Turn(Open));
    Then(h, s, Turn(HalfOpen));
    h, s := h + [Turn(HalfOpen)], Turned(s, Turn(HalfOpen));
  }
}
