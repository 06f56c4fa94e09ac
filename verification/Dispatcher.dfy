/**
 * The unordered dispatcher, method by method. Each method is proved against a function
 * on the dispatcher's state; those functions say what one undisturbed execution of the
 * method does, and each is a run of steps of the interleaved pipeline.
 */
module Dispatcher {
  import opened Types
  import opened Offsets
  import opened Buffers

  /** Everything the dispatcher's methods read and write. */
  datatype Shared = Shared(bufs: map<int, Buf>, channel: seq<Batch>, records: Records, closed: bool)

  datatype Outcome = Accepted | Backpressure | Rejected

  /** The coordinator believes a partition is in flight only when the dispatcher does. */
  predicate Agreed(d: Shared) {
    forall p :: p in d.records && d.records[p].inFlight ==> p in d.bufs && d.bufs[p].inFlight
  }

  function DispatchedBatch(cap: nat, d: Shared, b: Batch): (Shared, Outcome)
    requires b.partition in d.bufs
  {
    if d.closed then (d, Rejected)
    else
      var records := Dispatched(d.records, b.partition, b.maxOffset);
      if |d.channel| < cap then (d.(records := records, channel := d.channel + [b]), Accepted)
      else (d.(records := Completed(records, b.partition, b.maxOffset),
               bufs := d.bufs[b.partition := AfterPutBack(b, d.bufs[b.partition])]), Backpressure)
  }

  function CutAndDispatched(size: nat, cap: nat, d: Shared, p: int): (Shared, Outcome)
    requires size > 0 && p in d.bufs && d.bufs[p].messages != []
  {
    DispatchedBatch(cap, d.(bufs := d.bufs[p := AfterCut(size, d.bufs[p])]), CutBatch(p, size, d.bufs[p]))
  }

  function Tried(size: nat, cap: nat, d: Shared, p: int): (Shared, Outcome)
    requires size > 0
  {
    if p !in d.bufs || d.bufs[p].inFlight || d.bufs[p].messages == [] then (d, Accepted)
    else if |d.bufs[p].messages| >= size then CutAndDispatched(size, cap, d, p)
    else (d.(bufs := d.bufs[p := d.bufs[p].(armed := true)]), Accepted)
  }

  function Flushed(size: nat, cap: nat, d: Shared, p: int): (Shared, Outcome)
    requires size > 0
  {
    if p !in d.bufs || d.bufs[p].inFlight || d.bufs[p].messages == [] then (d, Accepted)
    else CutAndDispatched(size, cap, d, p)
  }

  function Disarmed(d: Shared, p: int): Shared {
    if p in d.bufs then d.(bufs := d.bufs[p := d.bufs[p].(armed := false)]) else d
  }

  function Appended(d: Shared, p: int, ms: seq<Message>): Shared {
    var b := if p in d.bufs then d.bufs[p] else NewBuf();
    d.(bufs := d.bufs[p := b.(messages := b.messages + ms)])
  }

  function Sent(size: nat, cap: nat, d: Shared, p: int, ms: seq<Message>): (Shared, Outcome)
    requires size > 0
  {
    if d.closed then (d, Rejected) else Tried(size, cap, Appended(d, p, ms), p)
  }

  /** Try the pending partitions in order, up to the first that is not accepted. */
  function Drained(size: nat, cap: nat, d: Shared, pending: seq<int>): Shared
    requires size > 0
    decreases |pending|
  {
    if pending == [] then d
    else
      var (d', r) := Tried(size, cap, d, pending[0]);
      if r != Accepted then d' else Drained(size, cap, d', pending[1..])
  }

  function Released(d: Shared, p: int): Shared {
    if p in d.bufs then d.(bufs := d.bufs[p := d.bufs[p].(inFlight := false)]) else d
  }

  function Revoked(d: Shared, ps: seq<int>): Shared {
    d.(bufs := map q | q in d.bufs ::
         if q in ps then d.bufs[q].(messages := [], armed := false) else d.bufs[q])
  }

  function AssignedTo(d: Shared, ps: seq<int>): Shared {
    d.(bufs := map q | q in d.bufs.Keys + (set p | p in ps) :: if q in d.bufs then d.bufs[q] else NewBuf())
  }

  lemma {:induction false} AssignOneMore(d: Shared, ps: seq<int>, k: nat)
    requires k < |ps|
    ensures var d' := AssignedTo(d, ps[..k]);
      AssignedTo(d, ps[..k + 1]) == if ps[k] in d'.bufs then d' else d'.(bufs := d'.bufs[ps[k] := NewBuf()])
  {
    assert ps[..k + 1] == ps[..k] + [ps[k]];
    var d' := AssignedTo(d, ps[..k]);
    var bufs := if ps[k] in d'.bufs then d'.bufs else d'.bufs[ps[k] := NewBuf()];
    assert AssignedTo(d, ps[..k + 1]).bufs.Keys == bufs.Keys;
    assert AssignedTo(d, ps[..k + 1]).bufs == bufs;
  }

  lemma {:induction false} RevokeOneMore(d: Shared, ps: seq<int>, k: nat)
    requires k < |ps|
    ensures var d' := Revoked(d, ps[..k]);
      Revoked(d, ps[..k + 1]) == if ps[k] in d'.bufs
                                 then d'.(bufs := d'.bufs[ps[k] := d'.bufs[ps[k]].(messages := [], armed := false)])
                                 else d'
  {
    assert ps[..k + 1] == ps[..k] + [ps[k]];
    var d' := Revoked(d, ps[..k]);
    var bufs := if ps[k] in d'.bufs then d'.bufs[ps[k] := d'.bufs[ps[k]].(messages := [], armed := false)] else d'.bufs;
    assert Revoked(d, ps[..k + 1]).bufs.Keys == bufs.Keys;
    assert Revoked(d, ps[..k + 1]).bufs == bufs;
  }

  lemma {:induction false} AssignFirst(d: Shared, ps: seq<int>)
    requires ps != []
    ensures var d' := if ps[0] in d.bufs then d else d.(bufs := d.bufs[ps[0] := NewBuf()]);
      AssignedTo(d, ps) == AssignedTo(d', ps[1..])
  {
    var d' := if ps[0] in d.bufs then d else d.(bufs := d.bufs[ps[0] := NewBuf()]);
    assert ps == [ps[0]] + ps[1..];
    assert AssignedTo(d, ps).bufs.Keys == AssignedTo(d', ps[1..]).bufs.Keys;
    assert AssignedTo(d, ps).bufs == AssignedTo(d', ps[1..]).bufs;
  }

  lemma {:induction false} RevokeFirst(d: Shared, ps: seq<int>)
    requires ps != [] && ps[0] in d.bufs
    ensures Revoked(d, ps)
         == Revoked(d.(bufs := d.bufs[ps[0] := d.bufs[ps[0]].(messages := [], armed := false)]), ps[1..])
  {
    var d' := d.(bufs := d.bufs[ps[0] := d.bufs[ps[0]].(messages := [], armed := false)]);
    assert ps == [ps[0]] + ps[1..];
    assert Revoked(d, ps).bufs == Revoked(d', ps[1..]).bufs;
  }

  function Closed(d: Shared): Shared {
    d.(closed := true, bufs := map q | q in d.bufs :: d.bufs[q].(armed := false))
  }

  lemma AllStopped(d: Shared, bufs: map<int, Buf>)
    requires bufs.Keys == d.bufs.Keys && forall q :: q in bufs ==> bufs[q] == d.bufs[q].(armed := false)
    ensures bufs == Closed(d).bufs
  {
    assert forall q :: q in bufs ==> bufs[q] == Closed(d).bufs[q];
    assert bufs.Keys == Closed(d).bufs.Keys;
  }

  lemma TriedKeepsAgreed(size: nat, cap: nat, d: Shared, p: int)
    requires size > 0 && Agreed(d)
    ensures Agreed(Tried(size, cap, d, p).0) && Agreed(Flushed(size, cap, d, p).0)
  {
  }

  // ---- What an attempt to dispatch comes to ----

  function MessagesOf(d: Shared, p: int): seq<Message> {
    if p in d.bufs then d.bufs[p].messages else []
  }

  predicate InFlight(d: Shared, p: int) {
    p in d.bufs && d.bufs[p].inFlight
  }

  predicate TimerSet(d: Shared, p: int) {
    p in d.bufs && d.bufs[p].armed
  }

  /** The messages of `p` in the channel, in order. */
  function QueuedOf(channel: seq<Batch>, p: int): seq<Message> {
    if channel == [] then []
    else
      var b := channel[|channel| - 1];
      QueuedOf(channel[..|channel| - 1], p) + if b.partition == p then b.messages else []
  }

  /** The messages of `p` that the dispatcher holds: queued for a worker, then buffered. */
  function InHand(d: Shared, p: int): seq<Message> {
    QueuedOf(d.channel, p) + MessagesOf(d, p)
  }

  /** Nothing but what concerns `p` has changed. */
  predicate OnlyTouches(d: Shared, d': Shared, p: int) {
    && d'.closed == d.closed && d.bufs.Keys <= d'.bufs.Keys <= d.bufs.Keys + {p}
    && (forall q :: q in d.bufs && q != p ==> d'.bufs[q] == d.bufs[q])
    && d.records.Keys <= d'.records.Keys <= d.records.Keys + {p}
    && (forall q :: q in d.records && q != p ==> d'.records[q] == d.records[q])
  }

  /**
   * Between `d` and `d'` one attempt was made to dispatch `p`, which has `ms` to send; a
   * batch is due once there are `least` of them and none is in flight. It has the first
   * `size` messages, or all of fewer.
   */
  predicate Attends(size: nat, cap: nat, d: Shared, p: int, ms: seq<Message>, least: nat, d': Shared, r: Outcome) {
    var due := !InFlight(d, p) && ms != [] && |ms| >= least;
    var n := if |ms| < size then |ms| else size;
    && OnlyTouches(d, d', p)
    && (r == Rejected <==> due && d.closed)
    && (r == Backpressure <==> due && !d.closed && |d.channel| >= cap)
    && (due && n > 0 && r == Accepted ==>
          && d'.channel == d.channel + [Batch(p, ms[n - 1].offset, ms[..n])]
          && p in d'.records && d'.records[p] == Record(ms[n - 1].offset, true, false))
    && (due && n > 0 && r == Backpressure ==>
          p in d'.records && d'.records[p] == Record(ms[n - 1].offset, false, true))
    && (!due || r != Accepted ==> d'.channel == d.channel)
    && (!due || r == Rejected ==> d'.records == d.records)
    && MessagesOf(d', p) == (if due && r != Backpressure then ms[n..] else ms)
    && (InFlight(d', p) <==> InFlight(d, p) || (due && r != Backpressure))
  }

  /** A batch that is due stops its timer; too few messages start one; in flight it stays as it was. */
  predicate Times(size: nat, d: Shared, p: int, ms: seq<Message>, d': Shared) {
    TimerSet(d', p) <==> if InFlight(d, p) || ms == [] then TimerSet(d, p) else |ms| < size
  }

  /** Nobody is needed for `p`, or its timer runs. */
  predicate Attended(d: Shared, p: int) {
    InFlight(d, p) || MessagesOf(d, p) == [] || TimerSet(d, p)
  }

  lemma {:induction false} TriedAttends(size: nat, cap: nat, d: Shared, p: int)
    requires size > 0
    ensures var (d', r), ms := Tried(size, cap, d, p), MessagesOf(d, p);
      Attends(size, cap, d, p, ms, size, d', r) && Times(size, d, p, ms, d')
  {
  }

  lemma {:induction false} FlushedAttends(size: nat, cap: nat, d: Shared, p: int)
    requires size > 0
    ensures var (d', r) := Flushed(size, cap, Disarmed(d, p), p);
      Attends(size, cap, d, p, MessagesOf(d, p), 1, d', r) && !TimerSet(d', p)
  {
    var mid := Disarmed(d, p);
    FlushAttends(size, cap, mid, p);
  }

  lemma {:induction false} FlushAttends(size: nat, cap: nat, d: Shared, p: int)
    requires size > 0
    ensures var (d', r) := Flushed(size, cap, d, p);
      Attends(size, cap, d, p, MessagesOf(d, p), 1, d', r) && (TimerSet(d', p) ==> TimerSet(d, p))
  {
  }

  /** Send appends, then attempts; on a closed dispatcher it does neither. */
  lemma {:induction false} SentAttends(size: nat, cap: nat, d: Shared, p: int, ms: seq<Message>)
    requires size > 0
    ensures var (d', r), all := Sent(size, cap, d, p, ms), MessagesOf(d, p) + ms;
      if d.closed then d' == d && r == Rejected
      else Attends(size, cap, d, p, all, size, d', r) && Times(size, d, p, all, d')
  {
    if !d.closed {
      var mid := Appended(d, p, ms);
      TriedAttends(size, cap, mid, p);
    }
  }

  lemma QueuedOneMore(channel: seq<Batch>, b: Batch, p: int)
    ensures QueuedOf(channel + [b], p) == QueuedOf(channel, p) + if b.partition == p then b.messages else []
  {
    assert (channel + [b])[..|channel|] == channel;
  }

  /** No attempt loses, repeats or reorders a message, unless the dispatcher is closed. */
  lemma {:induction false} AttemptKeepsInHand(size: nat, cap: nat, d: Shared, p: int, ms: seq<Message>, least: nat,
                                              d': Shared, r: Outcome, q: int)
    requires size > 0 && Attends(size, cap, d, p, ms, least, d', r) && r != Rejected
    ensures InHand(d', q) == if q == p then QueuedOf(d.channel, p) + ms else InHand(d, q)
  {
    var n := if |ms| < size then |ms| else size;
    assert ms[..n] + ms[n..] == ms;
    if d'.channel != d.channel {
      QueuedOneMore(d.channel, Batch(p, ms[n - 1].offset, ms[..n]), q);
    }
  }

  /** A message handed to Send joins what the dispatcher holds of its partition, at the end. */
  lemma {:induction false} SentKeepsInHand(size: nat, cap: nat, d: Shared, p: int, ms: seq<Message>, q: int)
    requires size > 0
    ensures InHand(Sent(size, cap, d, p, ms).0, q) == InHand(d, q) + if q == p && !d.closed then ms else []
    ensures Sent(size, cap, d, p, ms).1 == Rejected <==> d.closed
  {
    SentAttends(size, cap, d, p, ms);
    if !d.closed {
      var (d', r) := Sent(size, cap, d, p, ms);
      AttemptKeepsInHand(size, cap, d, p, MessagesOf(d, p) + ms, size, d', r, q);
    }
  }

  // ---- What a sweep comes to ----

  /**
   * Between `d` and `d'` the first `tried` of `pending` were tried in turn. Each of them is
   * attended to, except the last when it met a full channel; the others are untouched. Only
   * a refusal ends the sweep early.
   */
  predicate Sweeps(cap: nat, d: Shared, pending: seq<int>, tried: nat, d': Shared) {
    && tried <= |pending| && d'.closed == d.closed && d'.bufs.Keys == d.bufs.Keys
    && (forall q :: q in d.bufs && q !in pending[..tried] ==> d'.bufs[q] == d.bufs[q])
    && (forall j :: 0 <= j < tried ==>
          Attended(d', pending[j]) || (j == tried - 1 && |d'.channel| >= cap && !d.closed))
    && (tried < |pending| ==> tried > 0 && (d.closed || |d'.channel| >= cap))
  }

  lemma {:induction false} DrainedSweeps(size: nat, cap: nat, d: Shared, pending: seq<int>) returns (tried: nat)
    requires size > 0 && forall i, j :: 0 <= i < j < |pending| ==> pending[i] != pending[j]
    requires forall q :: q in pending ==> Waiting(d.bufs, q)
    ensures Sweeps(cap, d, pending, tried, Drained(size, cap, d, pending))
    ensures |Drained(size, cap, d, pending).channel| >= |d.channel|
    decreases |pending|
  {
    if pending == [] {
      return 0;
    }
    var p := pending[0];
    assert p in pending;
    var (next, r) := Tried(size, cap, d, p);
    TriedAttends(size, cap, d, p);
    if r != Accepted {
      return 1;
    }
    forall q | q in pending[1..] ensures Waiting(next.bufs, q) {
      assert q in pending;
    }
    var more := DrainedSweeps(size, cap, next, pending[1..]);
    tried := more + 1;
    assert forall j :: 0 <= j < |pending[1..]| ==> pending[1..][j] == pending[j + 1];
    SweepsFrom(cap, d, p, next, pending, more, Drained(size, cap, d, pending));
  }

  lemma {:induction false} SweepsFrom(cap: nat, d: Shared, p: int, next: Shared, pending: seq<int>, more: nat,
                                      d': Shared)
    requires pending != [] && pending[0] == p && p in d.bufs && p !in pending[1..]
    requires OnlyTouches(d, next, p) && Attended(next, p) && Sweeps(cap, next, pending[1..], more, d')
    ensures Sweeps(cap, d, pending, more + 1, d')
  {
    assert pending[..more + 1] == [p] + pending[1..][..more];
    assert forall j :: 1 <= j < |pending| ==> pending[j] == pending[1..][j - 1];
    assert d'.bufs[p] == next.bufs[p];
  }

  /** A sweep loses, repeats and reorders nothing. */
  lemma {:induction false} DrainedKeepsInHand(size: nat, cap: nat, d: Shared, pending: seq<int>, q: int)
    requires size > 0 && !d.closed
    ensures InHand(Drained(size, cap, d, pending), q) == InHand(d, q)
    decreases |pending|
  {
    if pending != [] {
      var (next, r) := Tried(size, cap, d, pending[0]);
      TriedAttends(size, cap, d, pending[0]);
      AttemptKeepsInHand(size, cap, d, pending[0], MessagesOf(d, pending[0]), size, next, r, q);
      if r == Accepted {
        DrainedKeepsInHand(size, cap, next, pending[1..], q);
      }
    }
  }

  /** After a sweep of all that waited, whoever waits has a timer, unless the channel is full. */
  lemma {:induction false} SweptAreAttended(cap: nat, d: Shared, pending: seq<int>, tried: nat, d': Shared, q: int)
    requires Lists(d.bufs, pending) && Sweeps(cap, d, pending, tried, d') && !d.closed && |d'.channel| < cap
    ensures Attended(d', q)
  {
    if q in pending[..tried] {
      var j :| 0 <= j < tried && pending[j] == q;
      assert Attended(d', pending[j]);
    } else if q in d.bufs {
      assert pending[..tried] == pending;
      assert d'.bufs[q] == d.bufs[q];
    }
  }

  class UnorderedDispatcher {
    const batchSize: nat
    const channelCap: nat
    const coordinator: Coordinator
    var bufs: map<int, Buf>
    var batchCh: seq<Batch>
    var readyCh: bool
    var closed: bool
    var channelClosed: bool

    function View(): Shared
      reads this, coordinator
    {
      Shared(bufs, batchCh, coordinator.records, closed)
    }

    predicate Valid()
      reads this, coordinator
    {
      batchSize > 0 && channelCap > 0 && channelClosed == closed && Agreed(View())
    }

    constructor (batchSize: nat, channelCap: nat, coordinator: Coordinator)
      requires batchSize > 0 && channelCap > 0 && coordinator.records == map[]
      ensures Valid() && this.coordinator == coordinator
      ensures this.batchSize == batchSize && this.channelCap == channelCap
      ensures View() == Shared(map[], [], map[], false) && !readyCh
    {
      this.batchSize, this.channelCap, this.coordinator := batchSize, channelCap, coordinator;
      bufs, batchCh, readyCh, closed, channelClosed := map[], [], false, false, false;
    }

    /**
     * The caller has cut `b` and set the partition's inFlight flag. A send on the closed
     * channel would panic; undisturbed, the closed check rules it out.
     */
    method DispatchBatch(b: Batch) returns (r: Outcome)
      requires b.partition in bufs && CanDispatch(coordinator.records, b.partition) && channelClosed == closed
      modifies this, coordinator
      ensures channelClosed == closed
      ensures (View(), r) == DispatchedBatch(channelCap, old(View()), b)
      ensures readyCh == old(readyCh)
    {
      if closed {
        return Rejected;
      }
      coordinator.BatchDispatched(b.partition, b.maxOffset);
      assert !channelClosed;
      if |batchCh| < channelCap {
        batchCh := batchCh + [b];
        return Accepted;
      }
      coordinator.BatchComplete(b.partition, b.maxOffset);
      var pb := bufs[b.partition];
      bufs := bufs[b.partition := pb.(inFlight := false, messages := b.messages + pb.messages)];
      return Backpressure;
    }

    method TryDispatch(p: int) returns (r: Outcome)
      requires Valid()
      modifies this, coordinator
      ensures Valid()
      ensures (View(), r) == Tried(batchSize, channelCap, old(View()), p)
      ensures var d, ms := old(View()), MessagesOf(old(View()), p);
        Attends(batchSize, channelCap, d, p, ms, batchSize, View(), r) && Times(batchSize, d, p, ms, View())
      ensures readyCh == old(readyCh)
    {
      TriedKeepsAgreed(batchSize, channelCap, View(), p);
      TriedAttends(batchSize, channelCap, View(), p);
      if p !in bufs || bufs[p].inFlight || |bufs[p].messages| == 0 {
        return Accepted;
      }
      var pb := bufs[p];
      if |pb.messages| >= batchSize {
        var b := CutBatch(p, batchSize, pb);
        bufs := bufs[p := AfterCut(batchSize, pb)];
        r := DispatchBatch(b);
        return;
      }
      bufs := bufs[p := pb.(armed := true)];
      return Accepted;
    }

    method Send(p: int, msgs: seq<Message>) returns (r: Outcome)
      requires Valid()
      modifies this, coordinator
      ensures Valid()
      ensures (View(), r) == Sent(batchSize, channelCap, old(View()), p, msgs)
      ensures old(closed) ==> r == Rejected && View() == old(View())
      ensures var d, all := old(View()), MessagesOf(old(View()), p) + msgs;
        !d.closed ==>
          Attends(batchSize, channelCap, d, p, all, batchSize, View(), r) && Times(batchSize, d, p, all, View())
      ensures r == Accepted ==> Attended(View(), p)
      ensures readyCh == old(readyCh)
    {
      SentAttends(batchSize, channelCap, View(), p, msgs);
      if closed {
        return Rejected;
      }
      var pb := if p in bufs then bufs[p] else NewBuf();
      bufs := bufs[p := pb.(messages := pb.messages + msgs)];
      r := TryDispatch(p);
    }

    /** The linger callback: forget the timer, then flush. */
    method LingerCallback(p: int) returns (ghost r: Outcome)
      requires Valid()
      modifies this, coordinator
      ensures Valid()
      ensures (View(), r) == Flushed(batchSize, channelCap, Disarmed(old(View()), p), p)
      ensures Attends(batchSize, channelCap, old(View()), p, MessagesOf(old(View()), p), 1, View(), r)
      ensures !TimerSet(View(), p) && readyCh == old(readyCh)
    {
      FlushedAttends(batchSize, channelCap, View(), p);
      r := Accepted;
      if p in bufs {
        bufs := bufs[p := bufs[p].(armed := false)];
      }
      TriedKeepsAgreed(batchSize, channelCap, View(), p);
      if p !in bufs || bufs[p].inFlight || |bufs[p].messages| == 0 {
        return;
      }
      var pb := bufs[p];
      bufs := bufs[p := AfterCut(batchSize, pb)];
      r := DispatchBatch(CutBatch(p, batchSize, pb));
    }

    /** The caller has completed the batch at the coordinator. */
    method OnBatchDone(p: int) returns (ghost pending: seq<int>, ghost tried: nat)
      requires Valid() && CanDispatch(coordinator.records, p)
      modifies this, coordinator
      ensures Valid() && readyCh && closed == old(closed)
      ensures var bufs := if p in old(bufs) then old(bufs)[p := old(bufs)[p].(inFlight := false)] else old(bufs);
        Lists(bufs, pending) && Sweeps(channelCap, old(View()).(bufs := bufs), pending, tried, View())
      ensures !closed ==> forall q :: InHand(View(), q) == InHand(old(View()), q)
      ensures !closed && |batchCh| < channelCap ==> forall q :: Waiting(bufs, q) ==> bufs[q].armed
      ensures Lists(Released(old(View()), p).bufs, pending)
      ensures View() == Drained(batchSize, channelCap, Released(old(View()), p), pending)
    {
      if p in bufs {
        bufs := bufs[p := bufs[p].(inFlight := false)];
      }
      var queue := CollectPending();
      pending := queue;
      readyCh := true;
      ghost var start := View();
      tried := DrainedSweeps(batchSize, channelCap, start, queue);
      var k := 0;
      while k < |queue|
        invariant 0 <= k <= |queue| && Valid() && readyCh
        invariant Drained(batchSize, channelCap, start, queue)
               == Drained(batchSize, channelCap, View(), queue[k..])
      {
        var r := TryDispatch(queue[k]);
        assert queue[k..][1..] == queue[k + 1..];
        k := k + 1;
        if r != Accepted {
          break;
        }
      }
      SweepFacts(old(View()), start, p, queue, tried);
    }

    ghost method SweepFacts(d: Shared, start: Shared, p: int, queue: seq<int>, tried: nat)
      requires batchSize > 0 && start == Released(d, p) && Lists(start.bufs, queue)
      requires View() == Drained(batchSize, channelCap, start, queue) && Sweeps(channelCap, start, queue, tried, View())
      ensures !closed ==> forall q :: InHand(View(), q) == InHand(d, q)
      ensures !closed && |batchCh| < channelCap ==> forall q :: Waiting(bufs, q) ==> bufs[q].armed
    {
      if !closed {
        forall q ensures InHand(View(), q) == InHand(d, q) {
          DrainedKeepsInHand(batchSize, channelCap, start, queue, q);
        }
        if |batchCh| < channelCap {
          forall q | Waiting(bufs, q) ensures bufs[q].armed {
            SweptAreAttended(channelCap, start, queue, tried, View(), q);
          }
        }
      }
    }

    method CollectPending() returns (pending: seq<int>)
      ensures Lists(bufs, pending)
    {
      pending := [];
      var todo := bufs.Keys;
      while todo != {}
        invariant todo <= bufs.Keys
        invariant forall p :: p in pending <==> Waiting(bufs, p) && p !in todo
        invariant forall i, j :: 0 <= i < j < |pending| ==> pending[i] != pending[j]
        decreases |todo|
      {
        Inhabited(todo);
        var q :| q in todo;
        if !bufs[q].inFlight && |bufs[q].messages| > 0 {
          pending := pending + [q];
        }
        todo := todo - {q};
      }
    }

    method OnPartitionsAssigned(ps: seq<int>)
      requires Valid()
      modifies this
      ensures Valid() && View() == AssignedTo(old(View()), ps) && readyCh == old(readyCh)
      ensures forall q :: q in bufs <==> q in old(bufs) || q in ps
      ensures forall q :: q in bufs ==> bufs[q] == if q in old(bufs) then old(bufs)[q] else NewBuf()
      ensures batchCh == old(batchCh) && closed == old(closed)
    {
      for k := 0 to |ps|
        invariant View() == AssignedTo(old(View()), ps[..k]) && readyCh == old(readyCh) && channelClosed == closed
      {
        AssignOneMore(old(View()), ps, k);
        if ps[k] !in bufs {
          bufs := bufs[ps[k] := NewBuf()];
        }
      }
      assert ps[..|ps|] == ps;
    }

    method OnPartitionsRevoked(ps: seq<int>)
      requires Valid()
      modifies this
      ensures Valid() && View() == Revoked(old(View()), ps) && readyCh == old(readyCh)
      ensures bufs.Keys == old(bufs).Keys && forall q :: q in bufs && q !in ps ==> bufs[q] == old(bufs)[q]
      ensures forall q :: q in bufs && q in ps ==> bufs[q] == Buf([], old(bufs)[q].inFlight, false)
      ensures batchCh == old(batchCh) && closed == old(closed)
    {
      for k := 0 to |ps|
        invariant View() == Revoked(old(View()), ps[..k]) && readyCh == old(readyCh) && channelClosed == closed
      {
        RevokeOneMore(old(View()), ps, k);
        if ps[k] in bufs {
          bufs := bufs[ps[k] := bufs[ps[k]].(messages := [], armed := false)];
        }
      }
      assert ps[..|ps|] == ps;
    }

    /** The part of Close before it waits for the workers. Closing the channel twice panics. */
    method Close()
      requires Valid() && !closed
      modifies this
      ensures Valid() && View() == Closed(old(View())) && readyCh == old(readyCh) && channelClosed
      ensures closed && batchCh == old(batchCh) && bufs.Keys == old(bufs).Keys
      ensures forall q :: q in bufs ==> bufs[q] == Buf(old(bufs)[q].messages, old(bufs)[q].inFlight, false)
    {
      closed, channelClosed := true, true;
      StopTimers();
      AllStopped(old(View()), bufs);
    }

    method StopTimers()
      modifies this`bufs
      ensures bufs.Keys == old(bufs).Keys && forall q :: q in bufs ==> bufs[q] == old(bufs)[q].(armed := false)
    {
      var todo := bufs.Keys;
      while todo != {}
        invariant todo <= bufs.Keys && bufs.Keys == old(bufs).Keys
        invariant forall q :: q in bufs ==> bufs[q] == if q in todo then old(bufs)[q] else old(bufs)[q].(armed := false)
        decreases |todo|
      {
        Inhabited(todo);
        var q :| q in todo;
        bufs := bufs[q := bufs[q].(armed := false)];
        todo := todo - {q};
      }
    }
  }
}
