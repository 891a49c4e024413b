/**
 * The generic messaging span name: `<subject> <operation name>`, where the
 * subject is the first of five sources that applies, or the operation name
 * alone when none does.
 */
module MessagingSpanNames {
  import opened Wrappers
  import opened Strings
  import opened MessagingApi

  /**
   * The placeholders that stand for a temporary and an anonymous destination.
   * They are defined with the attribute extractor, which is not part of this
   * model, so their text is left open.
   */
  const TEMP_DESTINATION_NAME: string
  const ANONYMOUS_DESTINATION_NAME: string

  datatype MessagingSpanNameExtractor<!Req, !Resp> = MessagingSpanNameExtractor(
    getter: MessagingAttributesGetter<Req, Resp>,
    operation: MessageOperation,
    serverAttributesGetter: ServerAttributesGetter<Req>
  ) {

    /** The span name of `request`, following the fixed precedence chain. */
    function Extract(request: Req): (name: string)
      ensures EndsWith(name, operation.operationName)
    {
      var op := operation.operationName;
      if getter.destinationTemplate(request).Some? then
        getter.destinationTemplate(request).value + " " + op
      else if getter.isTemporaryDestination(request) then
        TEMP_DESTINATION_NAME + " " + op
      else if getter.isAnonymousDestination(request) then
        ANONYMOUS_DESTINATION_NAME + " " + op
      else if getter.destination(request).Some? then
        getter.destination(request).value + " " + op
      else if serverAttributesGetter.serverAddress(request).Some?
        && serverAttributesGetter.serverPort(request).Some? then
        serverAttributesGetter.serverAddress(request).value + ":"
          + IntToString(serverAttributesGetter.serverPort(request).value) + " " + op
      else
        op
    }

    /** The five possible subjects of the span name, in order of precedence. */
    function Candidates(request: Req): seq<Option<string>> {
      var address := serverAttributesGetter.serverAddress(request);
      var port := serverAttributesGetter.serverPort(request);
      [ getter.destinationTemplate(request),
        if getter.isTemporaryDestination(request) then Some(TEMP_DESTINATION_NAME) else None,
        if getter.isAnonymousDestination(request) then Some(ANONYMOUS_DESTINATION_NAME) else None,
        getter.destination(request),
        if address.Some? && port.Some? then Some(address.value + ":" + IntToString(port.value)) else None ]
    }

    /** The subject of the span name: the first candidate that is present. */
    function Subject(request: Req): Option<string> {
      FirstPresent(Candidates(request))
    }
  }

  function Create<Req, Resp>(getter: MessagingAttributesGetter<Req, Resp>, operation: MessageOperation,
                             serverAttributesGetter: ServerAttributesGetter<Req>): (e: MessagingSpanNameExtractor<Req, Resp>)
    ensures e.getter == getter && e.operation == operation
    ensures e.serverAttributesGetter == serverAttributesGetter
  {
    MessagingSpanNameExtractor(getter, operation, serverAttributesGetter)
  }

  /** The first present value of a list, if any: "first match wins". */
  function FirstPresent(xs: seq<Option<string>>): (r: Option<string>)
    ensures r.Some? <==> exists i :: 0 <= i < |xs| && xs[i].Some?
    ensures r.Some? ==> exists i :: 0 <= i < |xs| && xs[i] == r && forall j :: 0 <= j < i ==> xs[j].None?
  {
    if |xs| == 0 then None
    else if xs[0].Some? then xs[0]
    else
      var r := FirstPresent(xs[1..]);
      assert forall i :: 1 <= i < |xs| ==> xs[i] == xs[1..][i - 1];
      r
  }

  /** On a list of five, "first present" is the first of five tests that succeeds. */
  lemma FirstPresentOfFive(xs: seq<Option<string>>)
    requires |xs| == 5
    ensures FirstPresent(xs) ==
      if xs[0].Some? then xs[0] else if xs[1].Some? then xs[1] else if xs[2].Some? then xs[2]
      else if xs[3].Some? then xs[3] else xs[4]
  {
    assert xs[1..][0] == xs[1];
    assert xs[1..][1..][0] == xs[2];
    assert xs[1..][1..][1..][0] == xs[3];
    assert xs[1..][1..][1..][1..][0] == xs[4];
    assert xs[1..][1..][1..][1..][1..] == [];
  }

  /** Formats a subject and an operation name as a span name. */
  function Format(subject: Option<string>, op: string): string {
    match subject
    case Some(s) => s + " " + op
    case None => op
  }

  // ---------------------------------------------------------------------------
  // The precedence chain, stated against the candidate list

  /** The span name is the first present candidate followed by the operation name. */
  lemma ExtractIsFirstCandidate<Req, Resp>(e: MessagingSpanNameExtractor<Req, Resp>, request: Req)
    ensures e.Extract(request) == Format(e.Subject(request), e.operation.operationName)
  {
    FirstPresentOfFive(e.Candidates(request));
  }

  /** The name is the bare operation name exactly when no source applies. */
  lemma BareOperationNameIffNoSubject<Req, Resp>(e: MessagingSpanNameExtractor<Req, Resp>, request: Req)
    ensures e.Extract(request) == e.operation.operationName <==> e.Subject(request).None?
  {
    ExtractIsFirstCandidate(e, request);
    if e.Subject(request).Some? {
      assert |e.Extract(request)| > |e.operation.operationName|;
    }
  }

  /** A destination template wins over every other source. */
  lemma TemplateWins<Req, Resp>(e: MessagingSpanNameExtractor<Req, Resp>, request: Req, template: string)
    requires e.getter.destinationTemplate(request) == Some(template)
    ensures e.Subject(request) == Some(template)
    ensures e.Extract(request) == template + " " + e.operation.operationName
  {
  }

  /** Without a template, a temporary destination wins over anonymous and literal destinations. */
  lemma TemporaryWins<Req, Resp>(e: MessagingSpanNameExtractor<Req, Resp>, request: Req)
    requires e.getter.destinationTemplate(request).None?
    requires e.getter.isTemporaryDestination(request)
    ensures e.Subject(request) == Some(TEMP_DESTINATION_NAME)
    ensures e.Extract(request) == TEMP_DESTINATION_NAME + " " + e.operation.operationName
  {
    FirstPresentOfFive(e.Candidates(request));
  }

  /** Otherwise an anonymous destination wins over a literal destination. */
  lemma AnonymousWins<Req, Resp>(e: MessagingSpanNameExtractor<Req, Resp>, request: Req)
    requires e.getter.destinationTemplate(request).None?
    requires !e.getter.isTemporaryDestination(request)
    requires e.getter.isAnonymousDestination(request)
    ensures e.Subject(request) == Some(ANONYMOUS_DESTINATION_NAME)
    ensures e.Extract(request) == ANONYMOUS_DESTINATION_NAME + " " + e.operation.operationName
  {
    FirstPresentOfFive(e.Candidates(request));
  }

  /** Otherwise a literal destination wins over the server address. */
  lemma DestinationWins<Req, Resp>(e: MessagingSpanNameExtractor<Req, Resp>, request: Req, destination: string)
    requires e.getter.destinationTemplate(request).None?
    requires !e.getter.isTemporaryDestination(request) && !e.getter.isAnonymousDestination(request)
    requires e.getter.destination(request) == Some(destination)
    ensures e.Subject(request) == Some(destination)
    ensures e.Extract(request) == destination + " " + e.operation.operationName
  {
    FirstPresentOfFive(e.Candidates(request));
  }

  /**
   * Otherwise the server is the subject, but only when both its address and
   * its port are known; with either missing the name is the operation name alone.
   */
  lemma ServerNeedsAddressAndPort<Req, Resp>(e: MessagingSpanNameExtractor<Req, Resp>, request: Req)
    requires e.getter.destinationTemplate(request).None?
    requires !e.getter.isTemporaryDestination(request) && !e.getter.isAnonymousDestination(request)
    requires e.getter.destination(request).None?
    ensures e.serverAttributesGetter.serverAddress(request).Some? && e.serverAttributesGetter.serverPort(request).Some?
      ==> e.Extract(request) == e.serverAttributesGetter.serverAddress(request).value + ":"
            + IntToString(e.serverAttributesGetter.serverPort(request).value) + " " + e.operation.operationName
    ensures e.serverAttributesGetter.serverAddress(request).None? || e.serverAttributesGetter.serverPort(request).None?
      ==> e.Extract(request) == e.operation.operationName
  {
  }

  /** With only the server known, a `process` span is named `10.0.0.5:5672 process`. */
  lemma ServerAddressExample<Req, Resp>(e: MessagingSpanNameExtractor<Req, Resp>, request: Req)
    requires e.getter.destinationTemplate(request).None?
    requires !e.getter.isTemporaryDestination(request) && !e.getter.isAnonymousDestination(request)
    requires e.getter.destination(request).None?
    requires e.serverAttributesGetter.serverAddress(request) == Some("10.0.0.5")
    requires e.serverAttributesGetter.serverPort(request) == Some(5672)
    requires e.operation.operationName == "process"
    ensures e.Extract(request) == "10.0.0.5:5672 process"
  {
    assert IntToString(5672) == "5672";
  }
}
