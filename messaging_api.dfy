/**
 * The capability interfaces a messaging library adapter implements, and the
 * operation kind. Each interface is a record of pure read functions over the
 * adapter's own request (and response) type, so an adapter is one value of
 * the record type.
 */
module MessagingApi {
  import opened Wrappers

  /** A messaging operation; only its name enters span names. */
  datatype MessageOperation = MessageOperation(operationName: string)

  /** What the core reads from a library's request and response. */
  datatype MessagingAttributesGetter<-Req, -Resp> = MessagingAttributesGetter(
    system: Req -> string,
    destination: Req -> Option<string>,
    destinationTemplate: Req -> Option<string>,
    isTemporaryDestination: Req -> bool,
    isAnonymousDestination: Req -> bool,
    messageBodySize: Req -> Option<int>,
    messageEnvelopeSize: Req -> Option<int>,
    messageId: (Req, Option<Resp>) -> Option<string>,
    clientId: Req -> Option<string>,
    messageHeader: (Req, string) -> seq<string>
  )

  /** The address and port of the broker a request talks to. */
  datatype ServerAttributesGetter<-Req> = ServerAttributesGetter(
    serverAddress: Req -> Option<string>,
    serverPort: Req -> Option<int>
  )

  /** The network view of a request and its response. */
  datatype MessagingNetworkAttributesGetter<-Req, -Resp> = MessagingNetworkAttributesGetter(
    serverAddress: Req -> Option<string>,
    serverPort: Req -> Option<int>
  )
}
