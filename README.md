# Messaging semantic-convention helpers of the OpenTelemetry Java instrumentation, in Dafny

This project models the helpers that name messaging spans and fill in their attributes:

- **Stability mode** (module `Semconv`). The `otel.semconv-stability.opt-in` setting decides whether the old messaging conventions, the stable ones, or both are emitted.
- **Generic span name** (module `MessagingSpanNames`). The name is `<subject> <operation>`. The subject is the first of five sources that applies: destination template, temporary placeholder, anonymous placeholder, destination, or `address:port`. With no source, the name is the operation name alone.
- **Extractor builder** (module `MessagingBuilder`). This is a class whose captured-header list is replaced wholesale and then snapshotted by `Build`. The module also holds the documented header-key normalisation.
- **Network extractor** (module `MessagingNetwork`). Both its start and end hooks provably leave the attribute sink unchanged.
- **RabbitMQ** (modules `RabbitReceive` and `RabbitDelivery`). `RabbitReceive` covers the receive request and its span name, which masks generated queues. `RabbitDelivery` covers the delivery extractor, which records the routing key and the delivery tag.
- **Kafka** (module `KafkaGetter`). These are the consumer getter's answers for a consumed record.

Helper modules: `Wrappers` (Option, standing for Java's null), `Strings` (Java's `split`, decimal rendering, ASCII lower-casing), `Attributes` (the sink: a key-unique map from typed keys to values) and `MessagingApi` (the getter interfaces as records of pure functions).

Behaviour as the code has it, which differs from what one might assume:
- Opt-in tokens are not trimmed. `" messaging"` is an unknown token (`Semconv.LeadingBlankDoesNotMatch`).
- Captured headers are keyed `messaging.header.<normalised name>`, not `message.header.…`.
- `ReceiveRequest.spanName` yields `receive <destination>` in stable mode and `<destination> receive` otherwise. The generic resolver always yields `<subject> <operation>`. Each is modelled as written.

## Model

| member | source | states |
|---|---|---|
| Strings.JavaSplitKeepsNonEmptyFields | instrumentation-api/src/main/java/io/opentelemetry/instrumentation/api/internal/SemconvStability.java:28 | a non-empty token is among Java's split parts exactly when it is among the raw comma-separated fields, so Java dropping trailing empty fields loses no token |
| Strings.JavaSplit | instrumentation-api/src/main/java/io/opentelemetry/instrumentation/api/internal/SemconvStability.java:28 | Java's split: a setting without a comma is its own single part; no part contains a comma; with a comma, the last part (if any) is non-empty |
| Strings.JoinFields | instrumentation-api/src/main/java/io/opentelemetry/instrumentation/api/internal/SemconvStability.java:28 | joining the split fields with the separator gives back the original setting, so the field model loses nothing |
| Strings.FieldsWithoutSeparator | instrumentation-api/src/main/java/io/opentelemetry/instrumentation/api/internal/SemconvStability.java:28 | a setting without a comma is one single token |
| Strings.FieldsAfterFirst | instrumentation-api/src/main/java/io/opentelemetry/instrumentation/api/internal/SemconvStability.java:28 | a comma-free prefix followed by a comma is exactly the first token |
| Strings.IntToString | instrumentation-api-incubator/src/main/java/io/opentelemetry/instrumentation/api/incubator/semconv/messaging/MessagingSpanNameExtractor.java:58-59 | the rendered port is non-empty and contains no blank |
| Strings.NatToStringRoundTrip | instrumentation-api-incubator/src/main/java/io/opentelemetry/instrumentation/api/incubator/semconv/messaging/MessagingSpanNameExtractor.java:58-59 | the decimal rendering of the port reads back as the same number |
| Semconv.Tokens | instrumentation-api/src/main/java/io/opentelemetry/instrumentation/api/internal/SemconvStability.java:28 | the token set of the setting: the setting itself when it has no comma; no token contains a comma; a non-empty string is a token iff it is one of the raw comma-separated fields |
| Semconv.Resolve | instrumentation-api/src/main/java/io/opentelemetry/instrumentation/api/internal/SemconvStability.java:23-43 | at least one of old and stable is emitted, for every setting; with no setting the result is old only |
| Semconv.InitializeFlags | instrumentation-api/src/main/java/io/opentelemetry/instrumentation/api/internal/SemconvStability.java:22-44 | the static initializer's step-by-step updates end in the documented decision table |
| Semconv.SemconvStability.constructor | instrumentation-api/src/main/java/io/opentelemetry/instrumentation/api/internal/SemconvStability.java:22-44 | the two flags are fixed once, from the setting, as the decision table says |
| Semconv.SemconvStability.EmitOldMessagingSemconv | instrumentation-api/src/main/java/io/opentelemetry/instrumentation/api/internal/SemconvStability.java:46-48 | returns the flag fixed at initialisation; it or the stable flag is true |
| Semconv.SemconvStability.EmitStableMessagingSemconv | instrumentation-api/src/main/java/io/opentelemetry/instrumentation/api/internal/SemconvStability.java:50-52 | returns the flag fixed at initialisation |
| Semconv.NoSettingKeepsOld | instrumentation-api/src/main/java/io/opentelemetry/instrumentation/api/internal/SemconvStability.java:23-27 | with no setting: old on, stable off |
| Semconv.MessagingSelectsStableOnly | instrumentation-api/src/main/java/io/opentelemetry/instrumentation/api/internal/SemconvStability.java:30-33 | a `messaging` token without `messaging/dup` gives old off and stable on |
| Semconv.DupSelectsBoth | instrumentation-api/src/main/java/io/opentelemetry/instrumentation/api/internal/SemconvStability.java:34-39 | a `messaging/dup` token gives both on, whether or not `messaging` is also present |
| Semconv.UnrecognisedTokensKeepDefault | instrumentation-api/src/main/java/io/opentelemetry/instrumentation/api/internal/SemconvStability.java:28-40 | a setting with neither token keeps the default; other tokens are ignored |
| Semconv.LeadingBlankDoesNotMatch | instrumentation-api/src/main/java/io/opentelemetry/instrumentation/api/internal/SemconvStability.java:28-30 | `" messaging"` is not trimmed and so does not select stable mode |
| Semconv.BlankAfterCommaDoesNotMatch | instrumentation-api/src/main/java/io/opentelemetry/instrumentation/api/internal/SemconvStability.java:28-39 | in `messaging, messaging/dup` the second token keeps its blank and is ignored, giving stable only |
| MessagingSpanNames.Create | instrumentation-api-incubator/src/main/java/io/opentelemetry/instrumentation/api/incubator/semconv/messaging/MessagingSpanNameExtractor.java:22-38 | the extractor holds exactly the given getter, operation and server getter |
| MessagingSpanNames.MessagingSpanNameExtractor.Extract | instrumentation-api-incubator/src/main/java/io/opentelemetry/instrumentation/api/incubator/semconv/messaging/MessagingSpanNameExtractor.java:41-63 | every span name ends with the operation name |
| MessagingSpanNames.FirstPresent | instrumentation-api-incubator/src/main/java/io/opentelemetry/instrumentation/api/incubator/semconv/messaging/MessagingSpanNameExtractor.java:41-63 | "first match wins": the result is present iff some candidate is, and it is the earliest present candidate |
| MessagingSpanNames.ExtractIsFirstCandidate | instrumentation-api-incubator/src/main/java/io/opentelemetry/instrumentation/api/incubator/semconv/messaging/MessagingSpanNameExtractor.java:41-63 | the span name is the first present candidate of the list (template, temporary, anonymous, destination, address:port), then a blank and the operation name; or the operation name alone |
| MessagingSpanNames.BareOperationNameIffNoSubject | instrumentation-api-incubator/src/main/java/io/opentelemetry/instrumentation/api/incubator/semconv/messaging/MessagingSpanNameExtractor.java:56-62 | the name is exactly the operation name iff no source applies |
| MessagingSpanNames.TemplateWins | instrumentation-api-incubator/src/main/java/io/opentelemetry/instrumentation/api/incubator/semconv/messaging/MessagingSpanNameExtractor.java:42-44 | a template gives `template op`, whatever the flags and the destination are |
| MessagingSpanNames.TemporaryWins | instrumentation-api-incubator/src/main/java/io/opentelemetry/instrumentation/api/incubator/semconv/messaging/MessagingSpanNameExtractor.java:45-47 | without a template, a temporary destination gives the temporary placeholder, beating anonymous and destination |
| MessagingSpanNames.AnonymousWins | instrumentation-api-incubator/src/main/java/io/opentelemetry/instrumentation/api/incubator/semconv/messaging/MessagingSpanNameExtractor.java:48-51 | without template or temporary flag, an anonymous destination gives the anonymous placeholder, beating the destination |
| MessagingSpanNames.DestinationWins | instrumentation-api-incubator/src/main/java/io/opentelemetry/instrumentation/api/incubator/semconv/messaging/MessagingSpanNameExtractor.java:52-54 | otherwise a destination gives `destination op` |
| MessagingSpanNames.ServerNeedsAddressAndPort | instrumentation-api-incubator/src/main/java/io/opentelemetry/instrumentation/api/incubator/semconv/messaging/MessagingSpanNameExtractor.java:56-62 | otherwise `address:port op` is used only when both are known; if either is missing the name is the operation name |
| MessagingSpanNames.ServerAddressExample | instrumentation-api-incubator/src/main/java/io/opentelemetry/instrumentation/api/incubator/semconv/messaging/MessagingSpanNameExtractor.java:56-60 | address 10.0.0.5 and port 5672 for `process` give `10.0.0.5:5672 process` |
| MessagingBuilder.MessagingAttributesExtractorBuilder.constructor | instrumentation-api-incubator/src/main/java/io/opentelemetry/instrumentation/api/incubator/semconv/messaging/MessagingAttributesExtractorBuilder.java:17-29 | stores the getter, the network getter and the operation; the header list starts empty |
| MessagingBuilder.MessagingAttributesExtractorBuilder.SetCapturedHeaders | instrumentation-api-incubator/src/main/java/io/opentelemetry/instrumentation/api/incubator/semconv/messaging/MessagingAttributesExtractorBuilder.java:41-45 | replaces the whole list and returns the same builder; getters and operation are constants |
| MessagingBuilder.MessagingAttributesExtractorBuilder.Build | instrumentation-api-incubator/src/main/java/io/opentelemetry/instrumentation/api/incubator/semconv/messaging/MessagingAttributesExtractorBuilder.java:51-53 | the new extractor carries exactly the current getter, network getter, operation and header list |
| MessagingBuilder.LastSetWins | instrumentation-api-incubator/src/main/java/io/opentelemetry/instrumentation/api/incubator/semconv/messaging/MessagingAttributesExtractorBuilder.java:41-53 | the list set last is the one built, and an earlier built extractor keeps its own list |
| Strings.ToLowerChar | instrumentation-api-incubator/src/main/java/io/opentelemetry/instrumentation/api/incubator/semconv/messaging/MessagingAttributesExtractorBuilder.java:35-36 | each of A-Z becomes its own lower-case letter; every other character is kept |
| MessagingBuilder.NormalizeChar | instrumentation-api-incubator/src/main/java/io/opentelemetry/instrumentation/api/incubator/semconv/messaging/MessagingAttributesExtractorBuilder.java:34-36 | a dash becomes an underscore, each of A-Z becomes its own lower-case letter, every other character is kept |
| MessagingBuilder.NormalizeHeaderName | instrumentation-api-incubator/src/main/java/io/opentelemetry/instrumentation/api/incubator/semconv/messaging/MessagingAttributesExtractorBuilder.java:34-36 | the normalised name has the same length and is normalised character by character |
| MessagingBuilder.CapturedHeaderKey | instrumentation-api-incubator/src/main/java/io/opentelemetry/instrumentation/api/incubator/semconv/messaging/MessagingAttributesExtractorBuilder.java:34-36 | the key is `messaging.header.` followed by the normalised name, which has no dash |
| MessagingBuilder.NormalizeIdempotent | instrumentation-api-incubator/src/main/java/io/opentelemetry/instrumentation/api/incubator/semconv/messaging/MessagingAttributesExtractorBuilder.java:34-36 | normalising twice is normalising once |
| MessagingBuilder.CaseAndDashInsensitive | instrumentation-api-incubator/src/main/java/io/opentelemetry/instrumentation/api/incubator/semconv/messaging/MessagingAttributesExtractorBuilder.java:34-36 | two names of equal length whose characters pairwise agree up to ASCII case, or are a dash and an underscore, share one key |
| MessagingBuilder.ContentTypeKey | instrumentation-api-incubator/src/main/java/io/opentelemetry/instrumentation/api/incubator/semconv/messaging/MessagingAttributesExtractorBuilder.java:34-36 | `Content-Type` is captured under `messaging.header.content_type` |
| MessagingNetwork.Create | instrumentation-api-incubator/src/main/java/io/opentelemetry/instrumentation/api/incubator/semconv/messaging/MessagingNetworkAttributesExtractor.java:22-25 | a fresh extractor wrapping exactly the given getter |
| MessagingNetwork.MessagingNetworkAttributesExtractor.constructor | instrumentation-api-incubator/src/main/java/io/opentelemetry/instrumentation/api/incubator/semconv/messaging/MessagingNetworkAttributesExtractor.java:27-31 | the extractor's only state is the getter |
| MessagingNetwork.MessagingNetworkAttributesExtractor.OnStart | instrumentation-api-incubator/src/main/java/io/opentelemetry/instrumentation/api/incubator/semconv/messaging/MessagingNetworkAttributesExtractor.java:33-34 | the sink is unchanged |
| MessagingNetwork.MessagingNetworkAttributesExtractor.OnEnd | instrumentation-api-incubator/src/main/java/io/opentelemetry/instrumentation/api/incubator/semconv/messaging/MessagingNetworkAttributesExtractor.java:36-43 | the sink is unchanged, with or without response and error |
| RabbitReceive.Create | instrumentation/rabbitmq-2.7/javaagent/src/main/java/io/opentelemetry/javaagent/instrumentation/rabbitmq/ReceiveRequest.java:17-26 | the getters return the queue, the response (possibly absent) and the connection given |
| RabbitReceive.Destination | instrumentation/rabbitmq-2.7/javaagent/src/main/java/io/opentelemetry/javaagent/instrumentation/rabbitmq/ReceiveRequest.java:36-37 | the destination is the queue itself iff the queue lacks the `amq.gen-` prefix; otherwise it is `<generated>` |
| RabbitReceive.ReceiveRequest.SpanName | instrumentation/rabbitmq-2.7/javaagent/src/main/java/io/opentelemetry/javaagent/instrumentation/rabbitmq/ReceiveRequest.java:36-43 | stable mode: `receive ` followed by the destination; otherwise the destination followed by ` receive` |
| RabbitReceive.GeneratedQueueMasked | instrumentation/rabbitmq-2.7/javaagent/src/main/java/io/opentelemetry/javaagent/instrumentation/rabbitmq/ReceiveRequest.java:36-43 | a generated queue gives `receive <generated>` / `<generated> receive` |
| RabbitReceive.ModesSwapWordOrder | instrumentation/rabbitmq-2.7/javaagent/src/main/java/io/opentelemetry/javaagent/instrumentation/rabbitmq/ReceiveRequest.java:39-43 | the two modes name the same destination in opposite word order |
| RabbitDelivery.IsNullOrEmpty | instrumentation/rabbitmq-2.7/javaagent/src/main/java/io/opentelemetry/javaagent/instrumentation/rabbitmq/RabbitDeliveryExtraAttributesExtractor.java:27 | a routing key counts as present exactly when it is non-null and has at least one character |
| RabbitDelivery.OnStartAttributes | instrumentation/rabbitmq-2.7/javaagent/src/main/java/io/opentelemetry/javaagent/instrumentation/rabbitmq/RabbitDeliveryExtraAttributesExtractor.java:27-30 | the delivery tag is always recorded as a long; the routing key is recorded verbatim iff non-null and non-empty, else that key keeps its old state; every other key is untouched |
| RabbitDelivery.RabbitDeliveryExtraAttributesExtractor.OnStart | instrumentation/rabbitmq-2.7/javaagent/src/main/java/io/opentelemetry/javaagent/instrumentation/rabbitmq/RabbitDeliveryExtraAttributesExtractor.java:22-31 | the sink after the call is `OnStartAttributes` of the sink before it, and stays well-typed |
| RabbitDelivery.RabbitDeliveryExtraAttributesExtractor.OnEnd | instrumentation/rabbitmq-2.7/javaagent/src/main/java/io/opentelemetry/javaagent/instrumentation/rabbitmq/RabbitDeliveryExtraAttributesExtractor.java:33-39 | the sink is unchanged, whatever the error |
| RabbitDelivery.RoutingKeyRecordedIffPresent | instrumentation/rabbitmq-2.7/javaagent/src/main/java/io/opentelemetry/javaagent/instrumentation/rabbitmq/RabbitDeliveryExtraAttributesExtractor.java:27-30 | on an empty sink: the routing-key attribute appears iff the key is non-null and non-empty, and no key other than the two is added |
| RabbitDelivery.KeyTypes | instrumentation/rabbitmq-2.7/javaagent/src/main/java/io/opentelemetry/javaagent/instrumentation/rabbitmq/RabbitDeliveryExtraAttributesExtractor.java:17-20 | the routing key is a string-typed key and the delivery tag a long-typed key, with the source's names |
| KafkaGetter.GetSystem | instrumentation/kafka/kafka-clients/kafka-clients-common/library/src/main/java/io/opentelemetry/instrumentation/kafka/internal/KafkaConsumerAttributesGetter.java:18-21 | always `kafka` |
| KafkaGetter.GetDestination | instrumentation/kafka/kafka-clients/kafka-clients-common/library/src/main/java/io/opentelemetry/instrumentation/kafka/internal/KafkaConsumerAttributesGetter.java:23-26 | the record's topic |
| KafkaGetter.IsTemporaryDestination | instrumentation/kafka/kafka-clients/kafka-clients-common/library/src/main/java/io/opentelemetry/instrumentation/kafka/internal/KafkaConsumerAttributesGetter.java:28-31 | always false |
| KafkaGetter.IsAnonymousDestination | instrumentation/kafka/kafka-clients/kafka-clients-common/library/src/main/java/io/opentelemetry/instrumentation/kafka/internal/KafkaConsumerAttributesGetter.java:33-36 | always false |
| KafkaGetter.GetMessageBodySize | instrumentation/kafka/kafka-clients/kafka-clients-common/library/src/main/java/io/opentelemetry/instrumentation/kafka/internal/KafkaConsumerAttributesGetter.java:38-43 | present iff the serialized size is >= 0, and then equal to it |
| KafkaGetter.ZeroSizeReportedNegativeOmitted | instrumentation/kafka/kafka-clients/kafka-clients-common/library/src/main/java/io/opentelemetry/instrumentation/kafka/internal/KafkaConsumerAttributesGetter.java:41-42 | size 0 is reported as 0; size -1 is omitted |
| KafkaGetter.GetMessageEnvelopeSize | instrumentation/kafka/kafka-clients/kafka-clients-common/library/src/main/java/io/opentelemetry/instrumentation/kafka/internal/KafkaConsumerAttributesGetter.java:45-49 | always absent |
| KafkaGetter.GetMessageId | instrumentation/kafka/kafka-clients/kafka-clients-common/library/src/main/java/io/opentelemetry/instrumentation/kafka/internal/KafkaConsumerAttributesGetter.java:51-55 | always absent, whatever the response |
| KafkaGetter.GetClientId | instrumentation/kafka/kafka-clients/kafka-clients-common/library/src/main/java/io/opentelemetry/instrumentation/kafka/internal/KafkaConsumerAttributesGetter.java:57-61 | the request's client id, unchanged |
| KafkaGetter.GetMessageHeader | instrumentation/kafka/kafka-clients/kafka-clients-common/library/src/main/java/io/opentelemetry/instrumentation/kafka/internal/KafkaConsumerAttributesGetter.java:63-68 | a list (never null) with a value v iff the record has a header (name, v), no longer than the header list |
| KafkaGetter.HeaderValues | instrumentation/kafka/kafka-clients/kafka-clients-common/library/src/main/java/io/opentelemetry/instrumentation/kafka/internal/KafkaConsumerAttributesGetter.java:63-68 | a value is in the list iff a header of that name carries it |
| KafkaGetter.HeaderValuesAppend | instrumentation/kafka/kafka-clients/kafka-clients-common/library/src/main/java/io/opentelemetry/instrumentation/kafka/internal/KafkaConsumerAttributesGetter.java:63-68 | record order is kept: values of concatenated header runs are concatenated |
| KafkaGetter.SingleHeader | instrumentation/kafka/kafka-clients/kafka-clients-common/library/src/main/java/io/opentelemetry/instrumentation/kafka/internal/KafkaConsumerAttributesGetter.java:63-68 | one header contributes its value iff its key is the name asked for |
| KafkaGetter.AsMessagingGetter | instrumentation/kafka/kafka-clients/kafka-clients-common/library/src/main/java/io/opentelemetry/instrumentation/kafka/internal/KafkaConsumerAttributesGetter.java:15-68 | as a messaging getter, the destination is the topic and the destination is never temporary nor anonymous |
| KafkaGetter.SpanNameIsTopic | instrumentation/kafka/kafka-clients/kafka-clients-common/library/src/main/java/io/opentelemetry/instrumentation/kafka/internal/KafkaConsumerAttributesGetter.java:23-36 | with no template, a Kafka span is named `<topic> <operation>` by the generic resolver |

## Left out

- Reading the setting: the system property or environment lookup of `otel.semconv-stability.opt-in` is not modelled. The setting is a parameter of type `Option<string>`.
- One-time, thread-safe class initialisation: concurrency is out of scope. The constructor of `Semconv.SemconvStability` plays the static initializer, and its `const` flags cannot change afterwards.
- `ReceiveRequest.spanName` lines 29-34: this fragment does not compile, so it is not modelled. The stable flag that lines 29 and 39 read from the global is a parameter.
- The attribute-population engine `MessagingAttributesExtractor`: it is not part of this model. This covers dual emission, the attribute keys it writes and its header capture. `Build` returns a plain snapshot of its four inputs. `TEMP_DESTINATION_NAME` and `ANONYMOUS_DESTINATION_NAME` are constants whose text is left open.
- `MessagingAttributesGetter`, `MessagingNetworkAttributesGetter`, `ServerAttributesGetter` and `MessageOperation` are not part of this model. They are records of pure functions and an operation name. The network getter is given only server address and port.
- Kafka's `getDestinationTemplate` is inherited from `MessagingAttributesGetter`, which is not part of this model. `KafkaGetter.AsMessagingGetter` therefore takes it as a parameter.
- Client-library types (`ConsumerRecord`, Kafka headers, `Envelope`, `GetResponse`, `Connection`) are plain datatypes. Header values are already decoded, so UTF-8 decoding and null header values are not modelled.
- `AttributesBuilder`, `AttributeKey` and `Context` are library types. The sink is a map from typed key to value, with insertion order not kept. The library's silent dropping of null values and empty keys is not modelled, and `Context` arguments are dropped.
- The builder stores the caller's list without copying. Value semantics of `seq` replace that aliasing.
- MessagingBuilder.NormalizeHeaderName: it lower-cases only ASCII A-Z. Java's locale-aware Unicode `toLowerCase` is not modelled.
