/** One worker process: a single deque created at start-up and shared by the
    HTTP service and the sender, and what the pair does end to end. */
module Worker {

  import opened Wrappers
  import opened Buffer
  import opened Rest
  import opened Forwarder

  /** The services of one worker, built around one shared queue. */
  class Worker {
    const queue: Deque
    const api: Api
    const sender: Sender

    constructor (login: string, password: string, route: string)
      ensures fresh(queue) && fresh(api) && fresh(sender)
      ensures api.queue == queue && sender.queue == queue && queue.items == []
      ensures api.login == login && api.password == password
      ensures sender.route == route && sender.bulkSize == DefaultBulkSize && sender.outbound == []
    {
      var q := new Deque();
      queue := q;
      api := new Api(login, password, q);
      sender := new Sender(route, DefaultBulkSize, q);
    }
  }

  /** One tick of a sender with any batch size over a queue holding
      `pending`: every pending envelope is sent, in order, and the queue is
      left empty, so a queue longer than the batch size is sent past it. */
  method TickIgnoresBulkSize(route: string, bulkSize: int, pending: seq<Envelope>)
    returns (sent: seq<Post>, left: seq<Envelope>)
    ensures left == []
    ensures sent == Posts(route, pending)
    ensures |pending| > bulkSize ==> |sent| > bulkSize
  {
    var q := new Deque();
    var s := new Sender(route, bulkSize, q);
    var i := 0;
    while i < |pending|
      invariant 0 <= i <= |pending|
      invariant q.items == pending[..i]
      invariant s.outbound == []
    {
      assert pending[..i + 1] == pending[..i] + [pending[i]];
      q.Append(pending[i]);
      i := i + 1;
    }
    assert pending[..i] == pending;
    s.Callback();
    sent, left := s.outbound, q.items;
  }

  /** A trace POSTed with the configured credentials is accepted, and the next
      tick forwards exactly its body, with the allow-listed headers, to the
      collector. */
  method AcceptThenForward(login: string, password: string, route: string, request: Request, decode: Decoder)
    returns (status: Status, sent: seq<Post>)
    requires AuthorizationHeader in request.headers && request.headers[AuthorizationHeader] != ""
    requires decode(request.headers[AuthorizationHeader]) == Some(Credentials(login, password))
    ensures status == Accepted && status.Code() == 202
    ensures sent == [Post(route, request.body, BypassHeaders(request.headers))]
  {
    var w := new Worker(login, password, route);
    status := w.api.StatisticReceiver(request, decode);
    w.sender.Callback();
    sent := w.sender.outbound;
  }
}
