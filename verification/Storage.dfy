/** The partition buffer over real storage: append, in-place cut, put-back. */
module Storage {
  import opened Types
  import opened Buffers

  /** A slice: the first `len` elements of `store`. */
  class PartitionBuffer {
    var store: array<Message>
    var len: nat
    var inFlight: bool
    var armed: bool

    ghost predicate Valid()
      reads this
    {
      len <= store.Length
    }

    ghost function Contents(): Buf
      requires Valid()
      reads this, store
    {
      Buf(store[..len], inFlight, armed)
    }

    constructor (capacity: nat)
      ensures Valid() && fresh(store) && Contents() == NewBuf()
    {
      store := new Message[capacity];
      len, inFlight, armed := 0, false, false;
    }

    /** Writes in place when the capacity allows it, and moves to larger storage otherwise. */
    method Append(ms: seq<Message>)
      requires Valid()
      modifies this, store
      ensures Valid() && (store == old(store) || fresh(store))
      ensures Contents() == old(Contents()).(messages := old(Contents().messages) + ms)
    {
      if len + |ms| > store.Length {
        var bigger := new Message[2 * store.Length + |ms|];
        CopyWithin(store, 0, bigger, 0, len);
        store := bigger;
      }
      Write(store, len, ms);
      len := len + |ms|;
      assert store[..len] == store[..old(len)] + ms;
    }

    /** Writes `ms` from index `j` on. */
    static method Write(to: array<Message>, j: nat, ms: seq<Message>)
      requires j + |ms| <= to.Length
      modifies to
      ensures to[..j] == old(to[..j]) && to[j..j + |ms|] == ms
    {
      for k := 0 to |ms|
        invariant to[..j] == old(to[..j]) && to[j..j + k] == ms[..k]
      {
        to[j + k] := ms[k];
      }
    }

    /** Go's copy, front to back; the ranges may overlap when moving towards the front. */
    static method CopyWithin(from: array<Message>, i: nat, to: array<Message>, j: nat, n: nat)
      requires i + n <= from.Length && j + n <= to.Length
      requires from == to ==> j <= i
      modifies to
      ensures to[j..j + n] == old(from[i..i + n])
      ensures to[..j] == old(to[..j]) && to[j + n..] == old(to[j + n..])
    {
      ghost var src := from[i..i + n];
      for k := 0 to n
        invariant forall x :: j <= x < j + k ==> to[x] == src[x - j]
        invariant forall x :: i + k <= x < i + n ==> from[x] == src[x - i]
        invariant forall x :: 0 <= x < j || j + n <= x < to.Length ==> to[x] == old(to[x])
      {
        to[j + k] := from[i + k];
      }
    }

    /** Copies the batch out, shifts the remainder to the front of the same storage. */
    method AssembleBatch(p: int, size: nat) returns (msgs: array<Message>, maxOffset: int)
      requires Valid() && size > 0 && len > 0
      modifies this, store
      ensures Valid() && store == old(store) && fresh(msgs)
      ensures Batch(p, maxOffset, msgs[..]) == CutBatch(p, size, old(Contents()))
      ensures Contents() == AfterCut(size, old(Contents())).(inFlight := old(inFlight))
    {
      var n := if size > len then len else size;
      msgs := new Message[n];
      CopyWithin(store, 0, msgs, 0, n);
      assert msgs[..] == msgs[0..n] == old(store[..len])[..n];
      var remaining := len - n;
      CopyWithin(store, n, store, 0, remaining);
      assert store[..remaining] == store[0..remaining] == old(store[..len])[n..];
      len := remaining;
      maxOffset := msgs[msgs.Length - 1].offset;
      armed := false;
    }

    /** `append(b.messages, pb.messages...)`: the returned batch goes in front. */
    method PutBack(p: int, maxOffset: int, msgs: array<Message>)
      requires Valid() && msgs != store
      modifies this
      ensures Valid() && (store == msgs || fresh(store))
      ensures Contents() == AfterPutBack(Batch(p, maxOffset, msgs[..]), old(Contents()))
    {
      inFlight := false;
      if len == 0 {
        store, len := msgs, msgs.Length;
        assert store[..len] == msgs[..] + old(store[..len]);
        return;
      }
      var joined := new Message[msgs.Length + len];
      CopyWithin(msgs, 0, joined, 0, msgs.Length);
      CopyWithin(store, 0, joined, msgs.Length, len);
      assert joined[..] == joined[..msgs.Length] + joined[msgs.Length..msgs.Length + len];
      assert msgs[0..msgs.Length] == msgs[..] && store[0..len] == store[..len];
      store, len := joined, msgs.Length + len;
    }
  }
}
