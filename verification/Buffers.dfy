/** What a partition buffer holds and how a batch is cut from it. */
module Buffers {
  import opened Types

  /** `armed` says that the linger timer field is set. */
  datatype Buf = Buf(messages: seq<Message>, inFlight: bool, armed: bool)

  function NewBuf(): Buf {
    Buf([], false, false)
  }

  /** The size of the next batch: up to `size`, all of a shorter buffer. */
  function CutLen(size: nat, b: Buf): (n: nat)
    ensures n <= |b.messages|
  {
    if size > |b.messages| then |b.messages| else size
  }

  function CutBatch(p: int, size: nat, b: Buf): Batch
    requires size > 0 && b.messages != []
  {
    var ms := b.messages[..CutLen(size, b)];
    Batch(p, ms[|ms| - 1].offset, ms)
  }

  function AfterCut(size: nat, b: Buf): Buf {
    Buf(b.messages[CutLen(size, b)..], true, false)
  }

  function AfterPutBack(batch: Batch, b: Buf): Buf {
    b.(messages := batch.messages + b.messages, inFlight := false)
  }

  /** The partition has messages and no batch in flight. */
  predicate Waiting(bufs: map<int, Buf>, p: int) {
    p in bufs && !bufs[p].inFlight && bufs[p].messages != []
  }

  /** `pending` lists exactly the waiting partitions, once each, in whatever order the map yields. */
  ghost predicate Lists(bufs: map<int, Buf>, pending: seq<int>) {
    && (forall p :: p in pending <==> Waiting(bufs, p))
    && (forall i, j :: 0 <= i < j < |pending| ==> pending[i] != pending[j])
  }
}
