/**
 * The builder of the messaging attributes extractor: it holds the two
 * getters and the operation given at construction, and a list of header
 * names to capture that callers may replace before building.
 */
module MessagingBuilder {
  import opened Strings
  import opened MessagingApi

  const HEADER_KEY_PREFIX: string := "messaging.header."

  /**
   * What `build` hands to the attributes extractor (which itself is not part
   * of this model): an immutable snapshot of the builder's settings.
   */
  datatype MessagingAttributesExtractor<!Req, !Resp> = MessagingAttributesExtractor(
    getter: MessagingAttributesGetter<Req, Resp>,
    networkAttributesGetter: MessagingNetworkAttributesGetter<Req, Resp>,
    operation: MessageOperation,
    capturedHeaders: seq<string>
  )

  class MessagingAttributesExtractorBuilder<!Req, !Resp> {
    const getter: MessagingAttributesGetter<Req, Resp>
    const networkAttributesGetter: MessagingNetworkAttributesGetter<Req, Resp>
    const operation: MessageOperation
    var capturedHeaders: seq<string>

    constructor (getter: MessagingAttributesGetter<Req, Resp>,
                 networkAttributesGetter: MessagingNetworkAttributesGetter<Req, Resp>,
                 operation: MessageOperation)
      ensures this.getter == getter && this.networkAttributesGetter == networkAttributesGetter
      ensures this.operation == operation
      ensures capturedHeaders == []
    {
      this.getter := getter;
      this.networkAttributesGetter := networkAttributesGetter;
      this.operation := operation;
      capturedHeaders := [];
    }

    /** Replaces the whole list of captured header names and returns this builder. */
    method SetCapturedHeaders(capturedHeaders: seq<string>) returns (self: MessagingAttributesExtractorBuilder<Req, Resp>)
      modifies this
      ensures self == this
      ensures this.capturedHeaders == capturedHeaders
    {
      this.capturedHeaders := capturedHeaders;
      self := this;
    }

    /** A new extractor with exactly the builder's current settings. */
    method Build() returns (extractor: MessagingAttributesExtractor<Req, Resp>)
      ensures extractor.getter == getter && extractor.networkAttributesGetter == networkAttributesGetter
      ensures extractor.operation == operation
      ensures extractor.capturedHeaders == capturedHeaders
    {
      extractor := MessagingAttributesExtractor(getter, networkAttributesGetter, operation, capturedHeaders);
    }
  }

  /**
   * A client of the builder: the list set last is the one built, and an
   * extractor built earlier keeps the list it was built with.
   */
  method LastSetWins<Req, Resp>(getter: MessagingAttributesGetter<Req, Resp>,
                                 networkAttributesGetter: MessagingNetworkAttributesGetter<Req, Resp>,
                                 operation: MessageOperation, first: seq<string>, second: seq<string>)
    returns (earlier: MessagingAttributesExtractor<Req, Resp>, later: MessagingAttributesExtractor<Req, Resp>)
    ensures earlier == MessagingAttributesExtractor(getter, networkAttributesGetter, operation, first)
    ensures later == MessagingAttributesExtractor(getter, networkAttributesGetter, operation, second)
  {
    var builder := new MessagingAttributesExtractorBuilder(getter, networkAttributesGetter, operation);
    var same := builder.SetCapturedHeaders(first);
    earlier := builder.Build();
    same := builder.SetCapturedHeaders([]);
    same := same.SetCapturedHeaders(second);
    later := builder.Build();
  }

  // ---------------------------------------------------------------------------
  // The attribute key of a captured header

  /** Lower-cases a header-name character and turns a dash into an underscore. */
  function NormalizeChar(c: char): (r: char)
    ensures r != '-' && !('A' <= r <= 'Z')
    ensures c == '-' ==> r == '_'
    ensures 'A' <= c <= 'Z' ==> r as int == c as int - 'A' as int + 'a' as int
    ensures c != '-' && !('A' <= c <= 'Z') ==> r == c
  {
    if c == '-' then '_' else ToLowerChar(c)
  }

  /** The header name as it appears in the attribute key. */
  function NormalizeHeaderName(name: string): (r: string)
    ensures |r| == |name|
    ensures forall i :: 0 <= i < |r| ==> r[i] == NormalizeChar(name[i])
  {
    seq(|name|, i requires 0 <= i < |name| => NormalizeChar(name[i]))
  }

  /** The attribute key under which the values of header `name` are captured. */
  function CapturedHeaderKey(name: string): (key: string)
    ensures StartsWith(key, HEADER_KEY_PREFIX)
    ensures key[|HEADER_KEY_PREFIX|..] == NormalizeHeaderName(name)
    ensures '-' !in key[|HEADER_KEY_PREFIX|..]
  {
    HEADER_KEY_PREFIX + NormalizeHeaderName(name)
  }

  /** Normalising is idempotent: a normalised name is its own normal form. */
  lemma NormalizeIdempotent(name: string)
    ensures NormalizeHeaderName(NormalizeHeaderName(name)) == NormalizeHeaderName(name)
  {
  }

  /**
   * Two header-name characters that are the same up to ASCII case, or are a
   * dash and an underscore in either order.
   */
  predicate SameUpToCaseAndDash(x: char, y: char) {
    || x == y
    || ((x == '-' || x == '_') && (y == '-' || y == '_'))
    || ('A' <= x <= 'Z' && y as int == x as int - 'A' as int + 'a' as int)
    || ('A' <= y <= 'Z' && x as int == y as int - 'A' as int + 'a' as int)
  }

  /** Names equal up to case and dash versus underscore share one key. */
  lemma CaseAndDashInsensitive(a: string, b: string)
    requires |a| == |b|
    requires forall i :: 0 <= i < |a| ==> SameUpToCaseAndDash(a[i], b[i])
    ensures CapturedHeaderKey(a) == CapturedHeaderKey(b)
  {
    forall i | 0 <= i < |a|
      ensures NormalizeChar(a[i]) == NormalizeChar(b[i])
    {
      assert SameUpToCaseAndDash(a[i], b[i]);
    }
    assert NormalizeHeaderName(a) == NormalizeHeaderName(b);
  }

  /** For example, `Content-Type` is captured under `messaging.header.content_type`. */
  lemma ContentTypeKey()
    ensures CapturedHeaderKey("Content-Type") == "messaging.header.content_type"
  {
  }
}
