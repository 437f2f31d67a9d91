# Shopping-cart application server, modelled in Dafny

This project models the Go shopping-cart server of the Dapr demo (`golang/server/main.go`).
The Dapr sidecar calls back into this server over gRPC.
The server keeps one piece of mutable state: `productIDs`, an ordered list of product IDs.
It starts empty, because the server is registered as `&server{}`.
The sidecar's callbacks are:

- `OnInvoke` routes on the method name.
  `"AddProduct"` decodes an `AddProductRequest`, appends its product ID and replies with `Succeed: true`.
  `"GetShoppingCart"` replies with the current list.
  Any other name gets an empty `Any` payload and no error.
- `GetTopicSubscriptions` and `GetBindingsSubscriptions` return constant lists (`["TopicA"]`, `["storage"]`).
- `OnBindingEvent` and `OnTopicEvent` only acknowledge.

Files:

- `wrappers.dfy` (module `Wrappers`): `Option` and `Result`. A Go `(value, error)` pair is a `Result`.
- `messages.dfy` (module `Messages`): the protobuf messages and the sidecar's envelopes.
  It also defines `Codec`, a record of three function values.
  They stand for the protobuf library calls the server makes: `proto.Unmarshal` into an
  `AddProductRequest`, and `ptypes.MarshalAny` of the two response types.
  Each may fail, and the model says nothing more about them.
- `dispatch.dfy` (module `Dispatch`): `OnInvoke` as a pure transition on the cart value.
  `Run` serves a sequence of invocations.
  `AddedIds` is an independent reference definition of what a run adds.
  The lemmas relate these three.
- `server.dfy` (module `CartServer`): the `Server` class.
  Its `productIds: seq<string>` field is updated in place by `AddProduct` and `OnInvoke` (`modifies this`).
  Its `OnInvoke` method is proved to change the cart and reply exactly as `Dispatch.OnInvoke` says.
  The constant queries and acknowledgements are functions with no `reads` clause, so they neither read nor change the cart.
  `AddThenGetCart` is a client of the class: one add of `"abc-123"` on a fresh server, followed by a cart query.

Behaviour of the code that the model keeps:

- Decoding ignores the `Any` type URL. The payload bytes are decoded as an `AddProductRequest` whatever the URL says. There is no schema-mismatch error.
- An unknown method name is not an error. The reply is an empty `Any` with a nil error.
- There is no method registry and no duplicate-registration check. Routing is a fixed two-case switch.
- The append is not rolled back when encoding the `AddProduct` reply fails. The cart has grown, yet the caller receives the encoder's error.

## Model

| member | source | states |
|---|---|---|
| CartServer.Server.constructor | golang/server/main.go:37 | a newly registered server has an empty cart |
| CartServer.Server.AddProduct | golang/server/main.go:47-50 | the cart becomes the old cart followed by the requested ID; the response always has Succeed == true |
| CartServer.Server.GetShoppingCart | golang/server/main.go:52-55 | the response lists exactly the current cart; only reads the server |
| CartServer.Server.OnInvoke | golang/server/main.go:59-79 | the new cart and the reply are exactly those of `Dispatch.OnInvoke` on the cart before the call |
| CartServer.Server.GetTopicSubscriptions | golang/server/main.go:83-87 | always succeeds with exactly ["TopicA"], independent of the cart |
| CartServer.Server.GetBindingsSubscriptions | golang/server/main.go:91-95 | always succeeds with exactly ["storage"], independent of the cart |
| CartServer.Server.OnBindingEvent | golang/server/main.go:98-101 | always succeeds with the zero response: no payload, no output bindings, no state to save and no concurrency mode; the cart is untouched |
| CartServer.Server.OnTopicEvent | golang/server/main.go:104-107 | always succeeds with an empty acknowledgement; the cart is untouched |
| CartServer.AddThenGetCart | golang/server/main.go:47-76 | on a fresh server, AddProduct of "abc-123" is answered with Succeed == true, and a following GetShoppingCart with exactly ["abc-123"] |
| Dispatch.OnInvoke | golang/server/main.go:62-78 | the cart is append-only and grows by at most one entry. It grows exactly when the method is AddProduct and the payload decodes, and then by the decoded ID. A decode failure is answered with that error and leaves the cart alone. GetShoppingCart is answered with the encoded cart as it stood. Any other name gets an empty payload and no error |
| Dispatch.Run | golang/server/main.go:59-79 | successive invocations never shrink the cart, and each invocation gets one reply |
| Dispatch.AddedIds | golang/server/main.go:63-70 | at most one ID per invocation; no ID at all exactly when no invocation is an AddProduct with a decodable payload |
| Dispatch.RunAppendsAddedIds | golang/server/main.go:47-48 | a run appends to the cart exactly the decoded AddProduct IDs, in call order |
| Dispatch.RunReplyAt | golang/server/main.go:59-79 | the reply to the i-th invocation is OnInvoke's reply on the cart holding the IDs added by the earlier invocations |
| Dispatch.CartReplyReflectsEarlierAdds | golang/server/main.go:52-55 | on a fresh server, every GetShoppingCart reply lists exactly the IDs added before it, in call order |
| Dispatch.AddsInCallOrder | golang/server/main.go:47-48 | AddProduct calls whose payloads decode to x1..xn add exactly [x1..xn] |
| Dispatch.FreshCartAfterAdds | golang/server/main.go:47-55 | on a fresh server, GetShoppingCart after AddProduct calls whose payloads decode to x1..xn is answered with exactly [x1..xn] |
| Dispatch.ReadOnlyRunKeepsCart | golang/server/main.go:73-78 | a run without AddProduct invocations leaves the cart unchanged, whatever the payloads and method names |

## Left out

- `getAllProducts` (golang/server/main.go:109-149): reads `DAPR_GRPC_PORT`, dials the sidecar and invokes `productService`; its result is only printed. Its call at main.go:64 is modelled as having no effect on the cart or the reply. The outbound call itself is network I/O.
- `main` (golang/server/main.go:28-45): TCP listener and gRPC server setup, which is I/O.
- The protobuf encoding itself (`proto.Unmarshal`, `ptypes.MarshalAny`): library code, carried as the unspecified, possibly failing functions of `Messages.Codec`.
- Concurrency: gRPC may run `OnInvoke` calls concurrently, and they race on the unsynchronised slice. The model is sequential and does not capture that race or its lost updates.
- Logging (`fmt.Println`) and the request `context.Context`: no effect on state or replies.
- A nil `in.Data`: main.go:60 dereferences it for every method, so such a call would panic. The model assumes the sidecar always supplies a payload.
- Go slice aliasing: `GetShoppingCart` returns the slice that backs the cart. Later appends never change the elements visible through that slice, so value semantics (`seq<string>`) lose nothing observable. A nil slice and an empty slice are both modelled as `[]`.
- The other files of the repository: the network client in golang/shoppingCartForJava/main.go, the Java gRPC client, the customer database lookup, and the ASP.NET startup configuration. They are not part of this model.
