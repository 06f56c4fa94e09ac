/** The set of reasons for degraded mode, kept in a bitmask, and the health flags. */
module Degraded {

  datatype Reason = BrokerUnavailable | TargetUnavailable

  function Bit(r: Reason): bv32 {
    match r
    case BrokerUnavailable => 1
    case TargetUnavailable => 2
  }

  predicate Has(mask: bv32, r: Reason) {
    mask & Bit(r) != 0
  }

  lemma OrFacts(m: bv32)
    ensures (m | 1) & 1 == 1 && (m | 1) & 2 == m & 2
    ensures (m | 2) & 2 == 2 && (m | 2) & 1 == m & 1
  {
  }

  lemma AndNotFacts(m: bv32)
    ensures (m & !1) & 1 == 0 && (m & !1) & 2 == m & 2
    ensures (m & !2) & 2 == 0 && (m & !2) & 1 == m & 1
  {
  }

  lemma OrSmall(m: bv32)
    requires m <= 3
    ensures m | 1 <= 3 && m | 2 <= 3
  {
  }

  lemma AndNotSmall(m: bv32)
    requires m <= 3
    ensures m & !1 <= 3 && m & !2 <= 3
  {
  }

  function Or(mask: bv32, r: Reason): (m: bv32)
    ensures Has(m, BrokerUnavailable) == (r == BrokerUnavailable || Has(mask, BrokerUnavailable))
    ensures Has(m, TargetUnavailable) == (r == TargetUnavailable || Has(mask, TargetUnavailable))
  {
    OrFacts(mask);
    mask | Bit(r)
  }

  function AndNot(mask: bv32, r: Reason): (m: bv32)
    ensures Has(m, BrokerUnavailable) == (r != BrokerUnavailable && Has(mask, BrokerUnavailable))
    ensures Has(m, TargetUnavailable) == (r != TargetUnavailable && Has(mask, TargetUnavailable))
  {
    AndNotFacts(mask);
    mask & !Bit(r)
  }

  /** The reasons a mask stands for. */
  function Active(mask: bv32): set<Reason> {
    (if Has(mask, BrokerUnavailable) then {BrokerUnavailable} else {})
    + (if Has(mask, TargetUnavailable) then {TargetUnavailable} else {})
  }

  /** The mask refines a set of reasons: or adds one. */
  lemma OrAddsReason(mask: bv32, r: Reason)
    ensures Active(Or(mask, r)) == Active(mask) + {r}
  {
  }

  /** And-not removes one. */
  lemma AndNotRemovesReason(mask: bv32, r: Reason)
    ensures Active(AndNot(mask, r)) == Active(mask) - {r}
  {
  }

  /** Only the two defined bits are in use. */
  predicate Clean(mask: bv32) {
    mask <= 3
  }

  lemma {:induction false} StaysClean(mask: bv32, r: Reason)
    requires Clean(mask)
    ensures Clean(Or(mask, r)) && Clean(AndNot(mask, r))
  {
    OrSmall(mask);
    AndNotSmall(mask);
  }

  lemma {:induction false} NonZeroIffReason(mask: bv32)
    requires Clean(mask)
    ensures mask != 0 <==> Active(mask) != {}
  {
    assert mask != 0 ==> mask & 1 != 0 || mask & 2 != 0;
  }

  class DegradedState {
    var reasons: bv32

    constructor ()
      ensures reasons == 0
    {
      reasons := 0;
    }

    /**
     * Load, compute, compare-and-swap, again if another goroutine wrote in between.
     * `others` are the values those goroutines store, one before each swap. The update
     * takes effect on the value that was there at the successful swap.
     */
    method Set(r: Reason, others: seq<bv32>) returns (ghost found: bv32)
      modifies this
      ensures reasons == Or(found, r) && Active(reasons) == Active(found) + {r}
      ensures found == old(reasons) || found in others
      ensures others == [] ==> found == old(reasons)
    {
      var k := 0;
      while true
        invariant 0 <= k <= |others|
        invariant k == 0 ==> reasons == old(reasons)
        invariant 0 < k ==> reasons == others[k - 1]
        decreases |others| - k
      {
        var seen := reasons;
        var updated := Or(seen, r);
        if k < |others| {
          reasons := others[k];
          k := k + 1;
        }
        if reasons == seen {
          found := reasons;
          OrAddsReason(found, r);
          reasons := updated;
          return;
        }
      }
    }

    method Clear(r: Reason, others: seq<bv32>) returns (ghost found: bv32)
      modifies this
      ensures reasons == AndNot(found, r) && Active(reasons) == Active(found) - {r}
      ensures found == old(reasons) || found in others
      ensures others == [] ==> found == old(reasons)
    {
      var k := 0;
      while true
        invariant 0 <= k <= |others|
        invariant k == 0 ==> reasons == old(reasons)
        invariant 0 < k ==> reasons == others[k - 1]
        decreases |others| - k
      {
        var seen := reasons;
        var updated := AndNot(seen, r);
        if k < |others| {
          reasons := others[k];
          k := k + 1;
        }
        if reasons == seen {
          found := reasons;
          AndNotRemovesReason(found, r);
          reasons := updated;
          return;
        }
      }
    }

    method IsDegraded() returns (b: bool)
      requires Clean(reasons)
      ensures b <==> Active(reasons) != {}
    {
      NonZeroIffReason(reasons);
      b := reasons != 0;
    }

    method Includes(r: Reason) returns (b: bool)
      ensures b <==> r in Active(reasons)
    {
      b := Has(reasons, r);
    }
  }

  class Health {
    var live: bool
    var ready: bool
    var partitionsAssigned: bool

    constructor ()
      ensures !live && !ready && !partitionsAssigned
    {
      live, ready, partitionsAssigned := false, false, false;
    }

    method SetReady(b: bool)
      modifies this`ready
      ensures ready == b
    {
      ready := b;
    }

    method SetPartitionsAssigned(b: bool)
      modifies this`partitionsAssigned
      ensures partitionsAssigned == b
    {
      partitionsAssigned := b;
    }

    predicate IsReady()
      reads this
    {
      ready && partitionsAssigned
    }
  }
}
