/**
 * The shopping-cart server's `OnInvoke` callback as a pure state transition
 * on the cart (the ordered list of product IDs), and the sequence of
 * invocations the sidecar makes over the server's lifetime.
 */
module Dispatch {
  import opened Wrappers
  import opened Messages

  /** The two method names the server routes on; every other name is ignored. */
  const AddProductMethod: string := "AddProduct"
  const GetShoppingCartMethod: string := "GetShoppingCart"

  /** What one invocation leaves behind: the new cart and the reply to the sidecar. */
  datatype Outcome = Outcome(cart: seq<string>, reply: Result<Any, Error>)

  /** `env` is an AddProduct invocation whose payload decodes. */
  predicate Adds(env: InvokeEnvelope, codec: Codec)
  {
    env.methodName == AddProductMethod && codec.unmarshalAddProductRequest(env.data.value).Success?
  }

  /** The product ID an AddProduct invocation carries. */
  function AddedId(env: InvokeEnvelope, codec: Codec): string
    requires Adds(env, codec)
  {
    codec.unmarshalAddProductRequest(env.data.value).value.productId
  }

  /**
   * One `OnInvoke` call on a server whose cart is `cart`. The payload's type
   * URL is not consulted: the bytes are decoded as an `AddProductRequest`
   * whatever it says. The product listing fetched before decoding has no
   * effect on the cart or the reply.
   */
  function OnInvoke(cart: seq<string>, env: InvokeEnvelope, codec: Codec): (r: Outcome)
    // the cart is append-only and grows by at most one entry
    ensures cart <= r.cart && |r.cart| <= |cart| + 1
    // it grows exactly when an AddProduct payload decodes, and by that product ID
    ensures |r.cart| == |cart| + 1 <==> Adds(env, codec)
    ensures Adds(env, codec) ==> r.cart[|cart|] == AddedId(env, codec)
    // a payload that does not decode is answered with the decoder's error
    ensures env.methodName == AddProductMethod && !Adds(env, codec) ==>
              r.reply == Failure(codec.unmarshalAddProductRequest(env.data.value).error)
    // a decoded AddProduct is answered with the encoded Succeed == true response
    ensures Adds(env, codec) ==> r.reply == codec.marshalAddProductResponse(AddProductResponse(true))
    // GetShoppingCart is answered with the encoded cart as it was before the call
    ensures env.methodName == GetShoppingCartMethod ==>
              r.reply == codec.marshalShoppingCart(GetShoppingCartResponse(cart))
    // any other method name is answered with an empty payload and no error
    ensures env.methodName != AddProductMethod && env.methodName != GetShoppingCartMethod ==>
              r.reply == Success(EmptyAny)
  {
    if env.methodName == AddProductMethod then
      match codec.unmarshalAddProductRequest(env.data.value)
      case Failure(e) => Outcome(cart, Failure(e))
      case Success(req) =>
        Outcome(cart + [req.productId], codec.marshalAddProductResponse(AddProductResponse(true)))
    else if env.methodName == GetShoppingCartMethod then
      Outcome(cart, codec.marshalShoppingCart(GetShoppingCartResponse(cart)))
    else
      Outcome(cart, Success(EmptyAny))
  }

  /**
   * The invocations `envs` served one after another, starting from `cart`:
   * the final cart and the reply to each invocation, in order.
   */
  function Run(cart: seq<string>, envs: seq<InvokeEnvelope>, codec: Codec): (r: (seq<string>, seq<Result<Any, Error>>))
    ensures cart <= r.0
    ensures |r.1| == |envs|
    decreases |envs|
  {
    if envs == [] then (cart, [])
    else
      var step := OnInvoke(cart, envs[0], codec);
      var rest := Run(step.cart, envs[1..], codec);
      (rest.0, [step.reply] + rest.1)
  }

  /**
   * Reference definition of what a run adds to the cart: the product IDs of
   * the AddProduct invocations whose payload decodes, in call order.
   */
  function AddedIds(envs: seq<InvokeEnvelope>, codec: Codec): (ids: seq<string>)
    ensures |ids| <= |envs|
    ensures ids == [] <==> forall i | 0 <= i < |envs| :: !Adds(envs[i], codec)
    decreases |envs|
  {
    if envs == [] then []
    else
      var rest := AddedIds(envs[1..], codec);
      var ids := (if Adds(envs[0], codec) then [AddedId(envs[0], codec)] else []) + rest;
      assert forall i | 1 <= i < |envs| :: envs[i] == envs[1..][i - 1];
      ids
  }

  /** A run appends exactly the decoded AddProduct IDs to the cart, in call order. */
  lemma {:induction false} RunAppendsAddedIds(cart: seq<string>, envs: seq<InvokeEnvelope>, codec: Codec)
    ensures Run(cart, envs, codec).0 == cart + AddedIds(envs, codec)
    decreases |envs|
  {
    if envs != [] {
      var step := OnInvoke(cart, envs[0], codec);
      var head := if Adds(envs[0], codec) then [AddedId(envs[0], codec)] else [];
      assert step.cart == cart + head;
      RunAppendsAddedIds(step.cart, envs[1..], codec);
      assert cart + head + AddedIds(envs[1..], codec) == cart + (head + AddedIds(envs[1..], codec));
    }
  }

  /**
   * The reply to the `i`-th invocation of a run is the reply `OnInvoke`
   * gives on the cart holding the IDs added by the invocations before it.
   */
  lemma {:induction false} RunReplyAt(cart: seq<string>, envs: seq<InvokeEnvelope>, codec: Codec, i: nat)
    requires i < |envs|
    ensures Run(cart, envs, codec).1[i] == OnInvoke(cart + AddedIds(envs[..i], codec), envs[i], codec).reply
    decreases i
  {
    var step := OnInvoke(cart, envs[0], codec);
    if i == 0 {
      assert envs[..0] == [];
      assert cart + [] == cart;
    } else {
      var head := if Adds(envs[0], codec) then [AddedId(envs[0], codec)] else [];
      assert step.cart == cart + head;
      RunReplyAt(step.cart, envs[1..], codec, i - 1);
      assert envs[..i][0] == envs[0];
      assert envs[..i][1..] == envs[1..][..i - 1];
      assert AddedIds(envs[..i], codec) == head + AddedIds(envs[1..][..i - 1], codec);
      assert cart + head + AddedIds(envs[1..][..i - 1], codec)
          == cart + (head + AddedIds(envs[1..][..i - 1], codec));
    }
  }

  /**
   * On a freshly constructed server, every GetShoppingCart invocation is
   * answered with exactly the IDs added by the invocations before it, in
   * call order.
   */
  lemma {:induction false} CartReplyReflectsEarlierAdds(envs: seq<InvokeEnvelope>, codec: Codec, i: nat)
    requires i < |envs| && envs[i].methodName == GetShoppingCartMethod
    ensures Run([], envs, codec).1[i] == codec.marshalShoppingCart(GetShoppingCartResponse(AddedIds(envs[..i], codec)))
  {
    RunReplyAt([], envs, codec, i);
    assert [] + AddedIds(envs[..i], codec) == AddedIds(envs[..i], codec);
  }

  /**
   * AddProduct invocations whose payloads decode to the IDs `ids` add
   * exactly `ids`, in call order.
   */
  lemma {:induction false} AddsInCallOrder(envs: seq<InvokeEnvelope>, ids: seq<string>, codec: Codec)
    requires |envs| == |ids|
    requires forall i | 0 <= i < |envs| ::
               envs[i].methodName == AddProductMethod &&
               codec.unmarshalAddProductRequest(envs[i].data.value) == Success(AddProductRequest(ids[i]))
    ensures AddedIds(envs, codec) == ids
    decreases |envs|
  {
    if envs != [] {
      assert Adds(envs[0], codec) && AddedId(envs[0], codec) == ids[0];
      assert forall i | 0 <= i < |envs| - 1 :: envs[1..][i] == envs[i + 1] && ids[1..][i] == ids[i + 1];
      AddsInCallOrder(envs[1..], ids[1..], codec);
      assert ids == [ids[0]] + ids[1..];
    }
  }

  /**
   * On a fresh server, a GetShoppingCart that follows AddProduct calls whose
   * payloads decode to x1..xn is answered with exactly [x1..xn].
   */
  lemma {:induction false} FreshCartAfterAdds(adds: seq<InvokeEnvelope>, ids: seq<string>, get: InvokeEnvelope, codec: Codec)
    requires |adds| == |ids|
    requires forall i | 0 <= i < |adds| ::
               adds[i].methodName == AddProductMethod &&
               codec.unmarshalAddProductRequest(adds[i].data.value) == Success(AddProductRequest(ids[i]))
    requires get.methodName == GetShoppingCartMethod
    ensures Run([], adds + [get], codec).1[|adds|] == codec.marshalShoppingCart(GetShoppingCartResponse(ids))
  {
    var envs := adds + [get];
    assert envs[..|adds|] == adds;
    CartReplyReflectsEarlierAdds(envs, codec, |adds|);
    AddsInCallOrder(adds, ids, codec);
  }

  /**
   * Only AddProduct writes the cart: a run with no AddProduct invocation
   * leaves the cart as it was, whatever the payloads and other method names.
   */
  lemma {:induction false} ReadOnlyRunKeepsCart(cart: seq<string>, envs: seq<InvokeEnvelope>, codec: Codec)
    requires forall i | 0 <= i < |envs| :: envs[i].methodName != AddProductMethod
    ensures Run(cart, envs, codec).0 == cart
  {
    RunAppendsAddedIds(cart, envs, codec);
    assert cart + [] == cart;
  }
}
