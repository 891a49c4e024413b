/**
 * A RabbitMQ `basic.get` request: the queue read from, the broker's response
 * (null when the queue was empty) and the connection. Its span name hides
 * server-generated queue names.
 */
module RabbitReceive {
  import opened Wrappers
  import opened Strings

  const GENERATED_QUEUE_PREFIX: string := "amq.gen-"
  const GENERATED_QUEUE_NAME: string := "<generated>"
  const RECEIVE: string := "receive"

  /** The client library's response and connection, seen only as identities. */
  datatype GetResponse = GetResponse(id: nat)
  datatype Connection = Connection(id: nat)

  datatype ReceiveRequest = ReceiveRequest(queue: string, response: Option<GetResponse>, connection: Connection) {

    function GetQueue(): string { queue }
    function GetResponse(): Option<GetResponse> { response }
    function GetConnection(): Connection { connection }

    /**
     * The span name; `stable` says whether the stable conventions are emitted.
     * Stable mode puts the operation first, the old conventions put it last.
     */
    function SpanName(stable: bool): (name: string)
      ensures stable ==> StartsWith(name, RECEIVE + " ") && name[|RECEIVE| + 1..] == Destination(queue)
      ensures !stable ==> EndsWith(name, " " + RECEIVE) && name[..|name| - |RECEIVE| - 1] == Destination(queue)
    {
      var destination := Destination(GetQueue());
      if stable then "receive " + destination else destination + " receive"
    }
  }

  function Create(queue: string, response: Option<GetResponse>, connection: Connection): (r: ReceiveRequest)
    ensures r.GetQueue() == queue && r.GetResponse() == response && r.GetConnection() == connection
  {
    ReceiveRequest(queue, response, connection)
  }

  /** The destination shown for a queue: server-generated names are masked. */
  function Destination(queue: string): (d: string)
    ensures d == queue <==> !StartsWith(queue, GENERATED_QUEUE_PREFIX)
    ensures d == GENERATED_QUEUE_NAME || d == queue
  {
    if StartsWith(queue, GENERATED_QUEUE_PREFIX) then
      assert queue[0] == 'a' != GENERATED_QUEUE_NAME[0];
      GENERATED_QUEUE_NAME
    else queue
  }

  /** A generated queue never shows its own name: both orders use the placeholder. */
  lemma GeneratedQueueMasked(r: ReceiveRequest)
    requires StartsWith(r.queue, GENERATED_QUEUE_PREFIX)
    ensures r.SpanName(true) == "receive <generated>"
    ensures r.SpanName(false) == "<generated> receive"
  {
  }

  /** The two modes give the same words in opposite order. */
  lemma ModesSwapWordOrder(r: ReceiveRequest, d: string)
    requires r.SpanName(false) == d + " " + RECEIVE
    ensures r.SpanName(true) == RECEIVE + " " + d
  {
    var legacy := r.SpanName(false);
    assert legacy[..|legacy| - |RECEIVE| - 1] == d;
  }
}
