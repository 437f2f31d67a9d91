/**
 * The wire messages the shopping-cart server exchanges with the Dapr sidecar:
 * the protobuf messages of its own `shoppingCart` package, the
 * `google.protobuf.Any` envelope and the sidecar's callback envelopes.
 * Protobuf encoding itself is a library concern, so the three codec calls
 * the server makes are carried as function values in a `Codec` record whose
 * behaviour the model leaves unspecified.
 */
module Messages {
  import opened Wrappers

  newtype byte = b: int | 0 <= b < 256

  /** A Go `error` value; only its message is kept. */
  datatype Error = Error(message: string)

  /** `google.protobuf.Any`: a type URL naming the schema, and the encoded bytes. */
  datatype Any = Any(typeUrl: string, value: seq<byte>)

  /** The zero `Any` (`&any.Any{}`): no type URL and no bytes. */
  const EmptyAny: Any := Any("", [])

  /** shoppingCart.AddProductRequest */
  datatype AddProductRequest = AddProductRequest(productId: string)

  /** shoppingCart.AddProductResponse */
  datatype AddProductResponse = AddProductResponse(succeed: bool)

  /** shoppingCart.GetShoppingCartResponse */
  datatype GetShoppingCartResponse = GetShoppingCartResponse(productIds: seq<string>)

  /** The sidecar's method-invocation envelope: a method name and its payload. */
  datatype InvokeEnvelope = InvokeEnvelope(methodName: string, data: Any, metadata: map<string, string>)

  /** The answer to the topic-subscription query. */
  datatype GetTopicSubscriptionsEnvelope = GetTopicSubscriptionsEnvelope(topics: seq<string>)

  /** The answer to the input-binding query. */
  datatype GetBindingsSubscriptionsEnvelope = GetBindingsSubscriptionsEnvelope(bindings: seq<string>)

  /** An event fired by an input binding. */
  datatype BindingEventEnvelope = BindingEventEnvelope(name: string, data: Any, metadata: map<string, string>)

  /** A state item the app may ask the sidecar to save after a binding event. */
  datatype StateItem = StateItem(key: string, value: Option<Any>)

  /**
   * The app's answer to a binding event: an optional payload, the output
   * bindings to forward it to, state to save, and a concurrency mode
   * (the empty string when unset).
   */
  datatype BindingResponseEnvelope =
    BindingResponseEnvelope(data: Option<Any>, to: seq<string>, state: seq<StateItem>, concurrency: string)

  /** The zero binding response (`&pb.BindingResponseEnvelope{}`). */
  const EmptyBindingResponse: BindingResponseEnvelope := BindingResponseEnvelope(None, [], [], "")

  /** A message published to a subscribed topic, as the sidecar delivers it. */
  datatype CloudEventEnvelope = CloudEventEnvelope(topic: string, data: Any)

  /** `google.protobuf.Empty` */
  datatype Empty = Empty

  /**
   * The protobuf library calls the server makes: `proto.Unmarshal` into an
   * `AddProductRequest`, and `ptypes.MarshalAny` of its two response types.
   * Each may fail with an error.
   */
  datatype Codec = Codec(
    unmarshalAddProductRequest: seq<byte> -> Result<AddProductRequest, Error>,
    marshalAddProductResponse: AddProductResponse -> Result<Any, Error>,
    marshalShoppingCart: GetShoppingCartResponse -> Result<Any, Error>)
}
