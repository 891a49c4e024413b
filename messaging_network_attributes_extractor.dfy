/**
 * The messaging network attributes extractor: it keeps the network getter
 * it was created with and adds no attribute, neither at start nor at end.
 */
module MessagingNetwork {
  import opened Wrappers
  import opened Attributes
  import opened MessagingApi

  class MessagingNetworkAttributesExtractor<!Req, !Resp> {
    const getter: MessagingNetworkAttributesGetter<Req, Resp>

    constructor (getter: MessagingNetworkAttributesGetter<Req, Resp>)
      ensures this.getter == getter
    {
      this.getter := getter;
    }

    /** Leaves the attributes as they are. */
    method OnStart(attributes: AttributesBuilder, request: Req)
      modifies attributes
      ensures unchanged(attributes)
    {
    }

    /** Leaves the attributes as they are, with or without a response or an error. */
    method OnEnd(attributes: AttributesBuilder, request: Req, response: Option<Resp>, error: Option<Throwable>)
      modifies attributes
      ensures unchanged(attributes)
    {
    }
  }

  /** A new extractor wrapping exactly `getter`. */
  method Create<Req, Resp>(getter: MessagingNetworkAttributesGetter<Req, Resp>)
    returns (extractor: MessagingNetworkAttributesExtractor<Req, Resp>)
    ensures fresh(extractor) && extractor.getter == getter
  {
    extractor := new MessagingNetworkAttributesExtractor(getter);
  }
}
