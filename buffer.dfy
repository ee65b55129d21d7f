/** The unit of buffered work and the shared FIFO that holds it.

    One `Deque` object is created per worker process and handed both to the
    HTTP receiver (which appends at the tail) and to the sender (which takes
    from the head). */
module Buffer {

  import opened Wrappers

  /** Raw request bytes, never parsed by the proxy. */
  type Bytes = seq<bv8>

  /** Forwarded header names mapped to their value, or to `None` when the
      inbound request lacked that header. */
  type Headers = map<string, Option<string>>

  /** One buffered trace payload: the tuple `(data, headers)` put on the queue. */
  datatype Envelope = Envelope(data: Bytes, headers: Headers)

  /** The `collections.deque` shared by the receiver and the sender. */
  class Deque {
    var items: seq<Envelope>

    constructor ()
      ensures items == []
    {
      items := [];
    }

    /** Python truthiness of the deque: `not queue`. */
    function IsEmpty(): (b: bool)
      reads this
      ensures b <==> items == []
    {
      |items| == 0
    }

    /** `append`: put an envelope at the tail. */
    method Append(e: Envelope)
      modifies this
      ensures items == old(items) + [e]
    {
      items := items + [e];
    }

    /** `popleft`: remove and return the head; `None` stands for the
        `IndexError` raised on an empty deque, which leaves it unchanged. */
    method PopLeft() returns (head: Option<Envelope>)
      modifies this
      ensures head.None? <==> old(items) == []
      ensures head.None? ==> items == old(items)
      ensures head.Some? ==> head.value == old(items)[0] && items == old(items)[1..]
    {
      if |items| == 0 {
        head := None;
      } else {
        head := Some(items[0]);
        items := items[1..];
      }
    }

    /** `list(queue)`: the current contents, head first, without changing them. */
    method Snapshot() returns (s: seq<Envelope>)
      ensures s == items
    {
      s := items;
    }

    /** `clear`: drop every element. */
    method Clear()
      modifies this
      ensures items == []
    {
      items := [];
    }
  }
}
