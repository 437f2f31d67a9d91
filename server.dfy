/**
 * The shopping-cart application server: the object the Dapr sidecar calls
 * back into. Its one piece of state is the ordered list of product IDs,
 * updated in place by AddProduct.
 */
module CartServer {
  import opened Wrappers
  import opened Messages
  import Dispatch

  class Server {
    /** The product IDs added so far, in call order. */
    var productIds: seq<string>

    /** A server is registered with the sidecar with an empty cart. */
    constructor ()
      ensures productIds == []
    {
      productIds := [];
    }

    /** Appends the requested product to the cart; always reports success. */
    method AddProduct(req: AddProductRequest) returns (resp: AddProductResponse)
      modifies this
      ensures productIds == old(productIds) + [req.productId]
      ensures resp.succeed
    {
      productIds := productIds + [req.productId];
      resp := AddProductResponse(true);
    }

    /** The current cart, read without changing it. */
    function GetShoppingCart(): (r: GetShoppingCartResponse)
      reads this
      ensures r.productIds == productIds
    {
      GetShoppingCartResponse(productIds)
    }

    /**
     * The sidecar's method-invocation callback: routes on the method name.
     * The new cart and the reply are those `Dispatch.OnInvoke` gives for the
     * cart before the call.
     */
    method OnInvoke(env: InvokeEnvelope, codec: Codec) returns (reply: Result<Any, Error>)
      modifies this
      ensures Dispatch.Outcome(productIds, reply) == Dispatch.OnInvoke(old(productIds), env, codec)
    {
      if env.methodName == Dispatch.AddProductMethod {
        var decoded := codec.unmarshalAddProductRequest(env.data.value);
        if decoded.Failure? {
          return Failure(decoded.error);
        }
        var resp := AddProduct(decoded.value);
        reply := codec.marshalAddProductResponse(resp);
      } else if env.methodName == Dispatch.GetShoppingCartMethod {
        var cart := GetShoppingCart();
        reply := codec.marshalShoppingCart(cart);
      } else {
        reply := Success(EmptyAny);
      }
    }

    /** The topics the app subscribes to: "TopicA" alone; the cart is not read. */
    function GetTopicSubscriptions(e: Empty): (r: Result<GetTopicSubscriptionsEnvelope, Error>)
      ensures r.Success? && r.value.topics == ["TopicA"]
    {
      Success(GetTopicSubscriptionsEnvelope(["TopicA"]))
    }

    /** The input bindings the app is triggered by: "storage" alone; the cart is not read. */
    function GetBindingsSubscriptions(e: Empty): (r: Result<GetBindingsSubscriptionsEnvelope, Error>)
      ensures r.Success? && r.value.bindings == ["storage"]
    {
      Success(GetBindingsSubscriptionsEnvelope(["storage"]))
    }

    /**
     * A binding event is acknowledged and nothing more: no payload, no
     * output binding to forward to, no state to save, no concurrency mode.
     */
    function OnBindingEvent(e: BindingEventEnvelope): (r: Result<BindingResponseEnvelope, Error>)
      ensures r.Success? && r.value.data == None && r.value.to == [] && r.value.state == []
      ensures r.Success? && r.value.concurrency == ""
    {
      Success(EmptyBindingResponse)
    }

    /** A topic event is acknowledged with an empty message and never fails. */
    function OnTopicEvent(e: CloudEventEnvelope): (r: Result<Empty, Error>)
      ensures r.Success?
    {
      Success(Empty)
    }
  }

  /**
   * On a fresh server, AddProduct of "abc-123" is answered with
   * Succeed == true, and a following GetShoppingCart with exactly ["abc-123"].
   */
  method AddThenGetCart(codec: Codec, addData: Any, getData: Any, metadata: map<string, string>)
    returns (addReply: Result<Any, Error>, cartReply: Result<Any, Error>)
    requires codec.unmarshalAddProductRequest(addData.value) == Success(AddProductRequest("abc-123"))
    ensures addReply == codec.marshalAddProductResponse(AddProductResponse(true))
    ensures cartReply == codec.marshalShoppingCart(GetShoppingCartResponse(["abc-123"]))
  {
    var s := new Server();
    addReply := s.OnInvoke(InvokeEnvelope(Dispatch.AddProductMethod, addData, metadata), codec);
    assert s.productIds == [] + ["abc-123"] == ["abc-123"];
    cartReply := s.OnInvoke(InvokeEnvelope(Dispatch.GetShoppingCartMethod, getData, metadata), codec);
  }
}
