/** The periodic sender: on each tick it takes envelopes from the head of
    the shared queue and POSTs each one to the collector; on stop it sends
    whatever is left. The network is replaced by a log of outbound POSTs. */
module Forwarder {

  import opened Buffer

  /** One outbound POST to the collector: target URL, body and headers. */
  datatype Post = Post(url: string, data: Bytes, headers: Headers)

  /** The default batch size of a tick. */
  const DefaultBulkSize: int := 10000

  /** The POSTs issued for a batch sent to `url`: one per envelope, in batch
      order, each carrying that envelope's data and headers. */
  function Posts(url: string, batch: seq<Envelope>): (r: seq<Post>)
    ensures |r| == |batch|
    ensures forall i :: 0 <= i < |batch| ==> r[i] == Post(url, batch[i].data, batch[i].headers)
  {
    if batch == [] then [] else [Post(url, batch[0].data, batch[0].headers)] + Posts(url, batch[1..])
  }

  /** Sending two batches one after the other issues the POSTs of their
      concatenation. */
  lemma {:induction false} PostsAppend(url: string, a: seq<Envelope>, b: seq<Envelope>)
    ensures Posts(url, a + b) == Posts(url, a) + Posts(url, b)
  {
    if a == [] {
      assert a + b == b;
    } else {
      assert (a + b)[1..] == a[1..] + b;
      PostsAppend(url, a[1..], b);
    }
  }

  /** The `PeriodicService` that forwards the shared queue. */
  class Sender {
    const route: string
    const bulkSize: int
    const queue: Deque
    /** Every POST issued so far, oldest first. */
    var outbound: seq<Post>

    constructor (route: string, bulkSize: int, queue: Deque)
      ensures this.route == route && this.bulkSize == bulkSize && this.queue == queue
      ensures outbound == []
    {
      this.route := route;
      this.bulkSize := bulkSize;
      this.queue := queue;
      outbound := [];
    }

    /** `send`: nothing for an empty batch, otherwise one POST per envelope. */
    method Send(metrics: seq<Envelope>)
      modifies this`outbound
      ensures outbound == old(outbound) + Posts(route, metrics)
    {
      if |metrics| == 0 {
        return;
      }
      var i := 0;
      while i < |metrics|
        invariant 0 <= i <= |metrics|
        invariant outbound == old(outbound) + Posts(route, metrics[..i])
      {
        assert metrics[..i + 1] == metrics[..i] + [metrics[i]];
        PostsAppend(route, metrics[..i], [metrics[i]]);
        outbound := outbound + [Post(route, metrics[i].data, metrics[i].headers)];
        i := i + 1;
      }
      assert metrics[..i] == metrics;
    }

    /** `callback`, one tick. The loop runs while the queue is non-empty OR
        the batch is short of `bulkSize`, so it stops only when `popleft`
        finds the queue empty or when the queue is empty and the batch is
        already full: a tick sends the whole queue, whatever `bulkSize` is. */
    method Callback()
      modifies queue, this`outbound
      ensures queue.items == []
      ensures outbound == old(outbound) + Posts(route, old(queue.items))
    {
      if queue.IsEmpty() {
        return;
      }
      var metrics: seq<Envelope> := [];
      while !queue.IsEmpty() || |metrics| < bulkSize
        invariant metrics + queue.items == old(queue.items)
        invariant outbound == old(outbound)
        decreases |queue.items|
      {
        var head := queue.PopLeft();
        if head.None? {
          break;
        }
        metrics := metrics + [head.value];
      }
      assert metrics == old(queue.items);
      Send(metrics);
    }

    /** `stop`: snapshot the queue, clear it, and send the snapshot; the
        batch size plays no part. */
    method Stop()
      modifies queue, this`outbound
      ensures queue.items == []
      ensures outbound == old(outbound) + Posts(route, old(queue.items))
    {
      var metrics := queue.Snapshot();
      queue.Clear();
      Send(metrics);
    }
  }
}
