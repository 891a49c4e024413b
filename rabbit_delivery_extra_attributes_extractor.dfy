/**
 * The RabbitMQ delivery extractor: at start it records the routing key of the
 * delivered message (when there is one) and always its delivery tag; at end
 * it records nothing.
 */
module RabbitDelivery {
  import opened Wrappers
  import opened Attributes

  const MESSAGING_RABBITMQ_DESTINATION_ROUTING_KEY: AttributeKey :=
    StringKey("messaging.rabbitmq.destination.routing_key")
  const MESSAGING_RABBITMQ_MESSAGE_DELIVERY_TAG: AttributeKey :=
    LongKey("messaging.rabbitmq.message.delivery_tag")

  /** The broker's envelope of a delivered message; the routing key may be null. */
  datatype Envelope = Envelope(routingKey: Option<string>, deliveryTag: Long)

  datatype DeliveryRequest = DeliveryRequest(envelope: Envelope)

  /** Guava's `Strings.isNullOrEmpty`. */
  predicate IsNullOrEmpty(s: Option<string>): (b: bool)
    ensures !b <==> s.Some? && |s.value| > 0
  {
    s.None? || s.value == ""
  }

  /** The attributes after `onStart`, given the attributes before it. */
  function OnStartAttributes(before: map<AttributeKey, AttributeValue>, envelope: Envelope)
    : (after: map<AttributeKey, AttributeValue>)
    ensures MESSAGING_RABBITMQ_MESSAGE_DELIVERY_TAG in after
    ensures after[MESSAGING_RABBITMQ_MESSAGE_DELIVERY_TAG] == LongValue(envelope.deliveryTag)
    ensures !IsNullOrEmpty(envelope.routingKey) ==>
      MESSAGING_RABBITMQ_DESTINATION_ROUTING_KEY in after
      && after[MESSAGING_RABBITMQ_DESTINATION_ROUTING_KEY] == StringValue(envelope.routingKey.value)
    ensures IsNullOrEmpty(envelope.routingKey) ==>
      (MESSAGING_RABBITMQ_DESTINATION_ROUTING_KEY in after <==> MESSAGING_RABBITMQ_DESTINATION_ROUTING_KEY in before)
      && (MESSAGING_RABBITMQ_DESTINATION_ROUTING_KEY in before ==>
            after[MESSAGING_RABBITMQ_DESTINATION_ROUTING_KEY] == before[MESSAGING_RABBITMQ_DESTINATION_ROUTING_KEY])
    ensures forall k :: k != MESSAGING_RABBITMQ_DESTINATION_ROUTING_KEY && k != MESSAGING_RABBITMQ_MESSAGE_DELIVERY_TAG ==>
      (k in after <==> k in before) && (k in before ==> after[k] == before[k])
  {
    var withRoutingKey :=
      if !IsNullOrEmpty(envelope.routingKey)
      then before[MESSAGING_RABBITMQ_DESTINATION_ROUTING_KEY := StringValue(envelope.routingKey.value)]
      else before;
    withRoutingKey[MESSAGING_RABBITMQ_MESSAGE_DELIVERY_TAG := LongValue(envelope.deliveryTag)]
  }

  class RabbitDeliveryExtraAttributesExtractor {

    method OnStart(attributes: AttributesBuilder, request: DeliveryRequest)
      requires attributes.Valid()
      modifies attributes
      ensures attributes.Valid()
      ensures attributes.attributes == OnStartAttributes(old(attributes.attributes), request.envelope)
    {
      var envelope := request.envelope;
      if !IsNullOrEmpty(envelope.routingKey) {
        attributes.Put(MESSAGING_RABBITMQ_DESTINATION_ROUTING_KEY, StringValue(envelope.routingKey.value));
      }
      attributes.Put(MESSAGING_RABBITMQ_MESSAGE_DELIVERY_TAG, LongValue(envelope.deliveryTag));
    }

    /** Leaves the attributes as they are, whatever the error. */
    method OnEnd(attributes: AttributesBuilder, request: DeliveryRequest, error: Option<Throwable>)
      modifies attributes
      ensures unchanged(attributes)
    {
    }
  }

  /** On an empty sink, the routing key is recorded exactly when it is non-null and non-empty. */
  lemma RoutingKeyRecordedIffPresent(envelope: Envelope)
    ensures var after := OnStartAttributes(map[], envelope);
      (MESSAGING_RABBITMQ_DESTINATION_ROUTING_KEY in after <==> !IsNullOrEmpty(envelope.routingKey))
      && after.Keys <= {MESSAGING_RABBITMQ_DESTINATION_ROUTING_KEY, MESSAGING_RABBITMQ_MESSAGE_DELIVERY_TAG}
  {
  }

  /** The routing key is a string attribute and the delivery tag a long one. */
  lemma KeyTypes()
    ensures MESSAGING_RABBITMQ_DESTINATION_ROUTING_KEY == AttributeKey("messaging.rabbitmq.destination.routing_key", StringType)
    ensures MESSAGING_RABBITMQ_MESSAGE_DELIVERY_TAG == AttributeKey("messaging.rabbitmq.message.delivery_tag", LongType)
  {
  }
}
