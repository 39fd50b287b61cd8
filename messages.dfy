/** The message exchanged between broker and subscribers (internal.Message in the Go
    repository): an opaque identifier and a simulated processing time in milliseconds.
    The Go field is a uint64. The model only compares it with 800 and 900; the sleep that
    multiplies it into a time.Duration is not modelled, so a nat loses nothing here. */
module Messages {

  datatype Message = Message(id: string, period: nat)

  datatype Option<+T> = None | Some(value: T)

  /** The identifiers of a sequence of messages, position by position. */
  function Ids(ms: seq<Message>): (r: seq<string>)
    ensures |r| == |ms|
    ensures forall i :: 0 <= i < |ms| ==> r[i] == ms[i].id
  {
    if ms == [] then [] else Ids(ms[..|ms| - 1]) + [ms[|ms| - 1].id]
  }

  lemma IdsSnoc(ms: seq<Message>, m: Message)
    ensures Ids(ms + [m]) == Ids(ms) + [m.id]
  {
    assert (ms + [m])[..|ms|] == ms;
  }

  /** The set of identifiers occurring in a sequence of messages. */
  function IdSet(ms: seq<Message>): set<string>
  {
    set m | m in ms :: m.id
  }
}
