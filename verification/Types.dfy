/** Values shared by every component: messages, batches, options. */
module Types {

  datatype Option<+T> = None | Some(value: T)

  /** One consumed Kafka record. One topic, so a partition number identifies the log. */
  datatype Message = Message(partition: int, offset: int, value: string)

  /** Messages of one partition travelling to a worker together. */
  datatype Batch = Batch(partition: int, maxOffset: int, messages: seq<Message>)

  ghost predicate Ascending(ms: seq<Message>) {
    forall i, j :: 0 <= i < j < |ms| ==> ms[i].offset < ms[j].offset
  }

  ghost function OffsetsOf(ms: seq<Message>): set<int> {
    set m | m in ms :: m.offset
  }

  lemma {:induction false} OffsetsOfConcat(a: seq<Message>, b: seq<Message>)
    ensures OffsetsOf(a + b) == OffsetsOf(a) + OffsetsOf(b)
  {
    forall o ensures o in OffsetsOf(a + b) <==> o in OffsetsOf(a) + OffsetsOf(b) {
      if o in OffsetsOf(a) + OffsetsOf(b) {
        var m :| (m in a || m in b) && m.offset == o;
        assert m in a + b;
      }
    }
  }

  lemma NoElementIsEmpty<T>(s: set<T>)
    requires forall x :: x !in s
    ensures s == {}
  {
  }

  lemma {:induction false} Inhabited(s: set<int>)
    requires s != {}
    ensures exists x :: x in s
  {
    if forall x :: x !in s {
      NoElementIsEmpty(s);
    }
  }
}
