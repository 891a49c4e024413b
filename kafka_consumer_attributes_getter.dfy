/**
 * The Kafka consumer's answers to the messaging getter interface, read from
 * a consumed record. Header values are taken as already-decoded strings.
 */
module KafkaGetter {
  import opened Wrappers
  import opened Strings
  import opened MessagingApi
  import MessagingSpanNames

  /** Java's `int`. */
  newtype Int32 = x: int | -0x8000_0000 <= x < 0x8000_0000

  datatype Header = Header(key: string, value: string)

  /** A consumed record; a serialized size of -1 means the size is unknown. */
  datatype ConsumerRecord = ConsumerRecord(topic: string, serializedValueSize: Int32, headers: seq<Header>)

  datatype KafkaProcessRequest = KafkaProcessRequest(record: ConsumerRecord, clientId: Option<string>)

  function GetSystem(request: KafkaProcessRequest): (system: string)
    ensures system == "kafka"
  {
    "kafka"
  }

  function GetDestination(request: KafkaProcessRequest): (destination: Option<string>)
    ensures destination == Some(request.record.topic)
  {
    Some(request.record.topic)
  }

  function IsTemporaryDestination(request: KafkaProcessRequest): (temporary: bool)
    ensures !temporary
  {
    false
  }

  function IsAnonymousDestination(request: KafkaProcessRequest): (anonymous: bool)
    ensures !anonymous
  {
    false
  }

  /** The body size, or none when the record reports a negative (unknown) size. */
  function GetMessageBodySize(request: KafkaProcessRequest): (size: Option<int>)
    ensures size.Some? <==> request.record.serializedValueSize >= 0
    ensures size.Some? ==> size.value == request.record.serializedValueSize as int
  {
    var size := request.record.serializedValueSize;
    if size >= 0 then Some(size as int) else None
  }

  function GetMessageEnvelopeSize(request: KafkaProcessRequest): (size: Option<int>)
    ensures size.None?
  {
    None
  }

  function GetMessageId(request: KafkaProcessRequest, unused: Option<()>): (id: Option<string>)
    ensures id.None?
  {
    None
  }

  function GetClientId(request: KafkaProcessRequest): (clientId: Option<string>)
    ensures clientId == request.clientId
  {
    request.clientId
  }

  /** The values of the record's headers called `name`, in record order. */
  function GetMessageHeader(request: KafkaProcessRequest, name: string): (values: seq<string>)
    ensures |values| <= |request.record.headers|
    ensures forall v :: v in values <==> Header(name, v) in request.record.headers
  {
    HeaderValues(request.record.headers, name)
  }

  function HeaderValues(headers: seq<Header>, name: string): (values: seq<string>)
    ensures |values| <= |headers|
    ensures forall v :: v in values <==> Header(name, v) in headers
  {
    if |headers| == 0 then []
    else
      var rest := HeaderValues(headers[1..], name);
      assert forall h :: h in headers <==> h == headers[0] || h in headers[1..];
      if headers[0].key == name then [headers[0].value] + rest else rest
  }

  /** Order is kept: the values found in two runs of headers are found one run after the other. */
  lemma {:induction false} HeaderValuesAppend(a: seq<Header>, b: seq<Header>, name: string)
    ensures HeaderValues(a + b, name) == HeaderValues(a, name) + HeaderValues(b, name)
  {
    if |a| > 0 {
      assert (a + b)[1..] == a[1..] + b;
      assert (a + b)[0] == a[0];
      HeaderValuesAppend(a[1..], b, name);
    } else {
      assert a + b == b;
    }
  }

  /** A single header contributes its value exactly when it is called `name`. */
  lemma SingleHeader(h: Header, name: string)
    ensures HeaderValues([h], name) == if h.key == name then [h.value] else []
  {
    assert [h][1..] == [];
  }

  /**
   * The consumer getter as an implementation of the messaging getter
   * interface. The destination template is inherited from the interface,
   * which is not part of this model, so it is supplied by the caller.
   */
  function AsMessagingGetter(destinationTemplate: KafkaProcessRequest -> Option<string>)
    : (g: MessagingAttributesGetter<KafkaProcessRequest, ()>)
    ensures forall r :: g.destination(r) == Some(r.record.topic)
    ensures forall r :: !g.isTemporaryDestination(r) && !g.isAnonymousDestination(r)
  {
    MessagingAttributesGetter(
      GetSystem, GetDestination, destinationTemplate, IsTemporaryDestination, IsAnonymousDestination,
      GetMessageBodySize, GetMessageEnvelopeSize, GetMessageId, GetClientId, GetMessageHeader)
  }

  /** Without a template, a Kafka span is named after the record's topic. */
  lemma SpanNameIsTopic(e: MessagingSpanNames.MessagingSpanNameExtractor<KafkaProcessRequest, ()>,
                        template: KafkaProcessRequest -> Option<string>, request: KafkaProcessRequest)
    requires e.getter == AsMessagingGetter(template) && template(request).None?
    ensures e.Extract(request) == request.record.topic + " " + e.operation.operationName
  {
    MessagingSpanNames.DestinationWins(e, request, request.record.topic);
  }

  /** A size of 0 is reported as 0, not omitted; -1 is omitted. */
  lemma ZeroSizeReportedNegativeOmitted(topic: string, headers: seq<Header>, clientId: Option<string>)
    ensures GetMessageBodySize(KafkaProcessRequest(ConsumerRecord(topic, 0, headers), clientId)) == Some(0)
    ensures GetMessageBodySize(KafkaProcessRequest(ConsumerRecord(topic, -1, headers), clientId)).None?
  {
  }
}
