/**
 * The attribute sink the extractors write into: a key-unique collection of
 * typed attributes. A key carries its value type, as an attribute key of
 * the tracing API does, and the sink only ever holds values of the key's type.
 */
module Attributes {

  /** Java's `long`. */
  newtype Long = x: int | -0x8000_0000_0000_0000 <= x < 0x8000_0000_0000_0000

  datatype AttributeType = StringType | LongType

  datatype AttributeKey = AttributeKey(name: string, kind: AttributeType)

  datatype AttributeValue = StringValue(s: string) | LongValue(n: Long)

  function StringKey(name: string): (k: AttributeKey)
    ensures k.name == name && k.kind == StringType
  {
    AttributeKey(name, StringType)
  }

  function LongKey(name: string): (k: AttributeKey)
    ensures k.name == name && k.kind == LongType
  {
    AttributeKey(name, LongType)
  }

  /** A value may be stored under a key only if it has the key's type. */
  predicate Fits(key: AttributeKey, value: AttributeValue) {
    match key.kind
    case StringType => value.StringValue?
    case LongType => value.LongValue?
  }

  /** An error passed to an extractor at the end of an operation. */
  datatype Throwable = Throwable(message: string)

  /** The span's attribute builder, handed to an extractor at start and at end. */
  class AttributesBuilder {
    var attributes: map<AttributeKey, AttributeValue>

    /** Every stored value has its key's type. */
    ghost predicate Valid()
      reads this
    {
      forall k :: k in attributes ==> Fits(k, attributes[k])
    }

    constructor ()
      ensures Valid() && attributes == map[]
    {
      attributes := map[];
    }

    /** Stores `value` under `key`, replacing any earlier value of that key. */
    method Put(key: AttributeKey, value: AttributeValue)
      requires Valid() && Fits(key, value)
      modifies this
      ensures Valid()
      ensures attributes == old(attributes)[key := value]
    {
      attributes := attributes[key := value];
    }
  }
}
