# Stanza builders of the WhatsApp service extension

A Dafny model of `extensions/service.js`, the part of the node-whatsapi
client that builds outbound protocol stanzas: the clear-dirty request, the
pong, the read receipt, the notification ack, the receipt ack, and the
server-properties and service-pricing queries.

A stanza is a `Stanza.Node`: a tag, an ordered attribute list and ordered
children. Each builder is a pure function. The three values the JavaScript
draws from its surroundings become parameters: the message id from
`nextMessageId`, the timestamp string from `common.tstamp().toString()`, and
`config.server`.

Reading an attribute (`node.attribute(name)`) is `Stanza.Attribute`. It
returns `None` when the attribute is missing. The source's presence tests are
JavaScript truthiness checks, so a missing attribute and the empty string
both count as "not present". This is `Stanza.Truthy`, and `language || 'en'`
is `Stanza.OrElse`.

Each builder's own contract states the outbound tag, the children, and the
exact attribute names in JavaScript insertion order. That order also shows
that no other attribute is present. A companion `...Rules` lemma states every
attribute's value in terms of the inbound node and the parameters.

The two `request*` operations return an effect trace: `Register(id)`, which
stands for `addCallback`, followed by `Send(node)`, which stands for
`sendNode`. `Service.Correlated` is an invariant over a session's effects.
It holds when no id is registered twice and no node carrying a registered id
is sent before that registration. Issuing either request under a fresh id
preserves it.

Three behaviours of the code are easy to misread; the model follows the
code:
- Presence rules use truthiness, not mere presence. An inbound
  `participant=""` or `to=""` is dropped, and an empty language or country
  code falls back to `en`/`us`.
- The pricing query's namespace (`urn:xmpp:whatsapp:account`) sits on the
  `iq`, not on its `pricing` child. The server-properties query likewise
  puts `xmlns="w"` on the `iq` and sends a bare `props` child.
- The notification ack copies `type` unconditionally, even when the inbound
  node has none. The model keeps that missing value as `None` in the
  attribute list.

## Model

| member | source | states |
|---|---|---|
| Stanza.LookupAbsent | extensions/service.js:54-56 | reading a name that no attribute carries gives no value, never an error |
| Stanza.LookupFirst | extensions/service.js:54-56 | reading a name gives the value of the first attribute that carries it |
| Stanza.Attribute | extensions/service.js:54 | definition, no contract: `node.attribute(name)` as a lookup in the node's attributes |
| Stanza.Child | extensions/service.js:14 | definition, no contract: `node.child(i)`, the i-th child |
| Stanza.Truthy | extensions/service.js:60 | definition, no contract: JavaScript truthiness of an attribute read; missing and empty are both falsy |
| Stanza.OrElse | extensions/service.js:157 | definition, no contract: JavaScript's logical-or fallback on an attribute read (the value when truthy, else the fallback) |
| Service.CategoryEntry | extensions/service.js:16 | a bare `category` node whose only attribute `name` reads as the inbound child's `name` |
| Service.CategoryOrigin | extensions/service.js:13-17 | every entry comes from some inbound `category` child and carries that child's `name` |
| Service.Categories | extensions/service.js:11-19 | one outbound entry per inbound `category` child (length equals the number of such children), each a `category` node with exactly the attribute `name` and no children |
| Service.CategoriesAppend | extensions/service.js:11-19 | the scan splits over concatenation of the inbound children, so entries keep the inbound order |
| Service.CategoriesOfOne | extensions/service.js:15-16 | a single child yields its `name` entry when tagged `category` and nothing otherwise |
| Service.CategoriesEmptyIff | extensions/service.js:11-19 | there are no entries exactly when no inbound child is tagged `category`; no children gives no entries |
| Service.CategoryPosition | extensions/service.js:13-17 | the inbound `category` child at index i yields the entry at position "number of category children before i", carrying that child's `name` |
| Service.CollectCategories | extensions/service.js:9-19 | the indexed loop over the children computes exactly the category entries |
| Service.ClearDirty | extensions/service.js:8-30 | an `iq` with attributes id, type, to and exactly one `clean` child with only `xmlns`, whose children are the category entries; attribute names are unique |
| Service.ClearDirtyRules | extensions/service.js:21-29 | `id` is the supplied cleardirty id, `type` is `set`, `to` is the server, and `clean` has `xmlns` `urn:xmpp:whatsapp:dirty` |
| Service.Pong | extensions/service.js:37-45 | an `iq` with exactly the attributes to, id, type and no children; attribute names are unique |
| Service.PongRules | extensions/service.js:38-42 | the pong's id is the ping's id verbatim, `type` is `result`, and `to` is the server |
| Service.Receipt | extensions/service.js:52-65 | a `receipt` with attributes to, type, id, t, plus `participant` exactly when the inbound one is truthy; nothing else and no children; attribute names are unique |
| Service.ReceiptRules | extensions/service.js:53-62 | `to` is the inbound `from`, `id` the inbound `id`, `type` is `read`, `t` the timestamp; `participant` is present iff the inbound one is truthy, and then equal to it |
| Service.NotificationAck | extensions/service.js:72-87 | an `ack` with attributes to, class, id, type, then `from` iff the inbound `to` is truthy and `participant` iff truthy; nothing else; attribute names are unique |
| Service.NotificationAckAddressing | extensions/service.js:73-81 | `to` is the inbound `from`, `class` is `notification`, `id` and `type` are copied unconditionally, and `from` is present iff the inbound `to` is truthy and then equals it |
| Service.NotificationAckParticipant | extensions/service.js:82-84 | `participant` is present iff the inbound one is truthy, and then equal to it |
| Service.Ack | extensions/service.js:94-112 | an `ack` with attributes to, id, t, plus `type` exactly when the inbound one is truthy; nothing else; attribute names are unique |
| Service.AckRules | extensions/service.js:95-104 | `to` is the inbound `from`, `id` the inbound `id`, `t` the timestamp; `type` is present iff the inbound one is truthy, then equal to it, and never defaulted |
| Service.ServerPropertiesQuery | extensions/service.js:122-133 | an `iq` with attributes id, type, xmlns, to and exactly one child, a `props` node with no attributes and no children; attribute names are unique |
| Service.ServerPropertiesRules | extensions/service.js:124-129 | `id` is the registered id, `type` is `get`, `xmlns` is `w`, and `to` is the server |
| Service.RequestServerProperties | extensions/service.js:118-136 | the callback is registered under the id first, and then a node carrying that id is sent |
| Service.PricingQuery | extensions/service.js:148-159 | an `iq` with attributes id, xmlns, type, to and exactly one `pricing` child with attributes lg, lc and no children; attribute names are unique |
| Service.PricingRules | extensions/service.js:150-157 | `xmlns` is `urn:xmpp:whatsapp:account`, `type` is `get`, `id` is the registered id; `lg` is the language if truthy else `en`, and `lc` the country if truthy else `us` |
| Service.RequestServicePricing | extensions/service.js:144-162 | the callback is registered under the id first, and then a node carrying that id is sent |
| Service.IssuePreservesCorrelation | extensions/service.js:119-135 | appending a register-then-send request under a fresh id keeps registrations distinct and every registration ahead of any send carrying its id |
| Service.RequestsPreserveCorrelation | extensions/service.js:118-161 | both request operations keep a correlated session correlated when given a fresh id |
| ServiceVectors.ReceiptVectors | extensions/service.js:52-65 | on concrete messages: no `participant` on a one-to-one receipt, `participant` `g1` carried over, an empty one dropped |
| ServiceVectors.NotificationAckVectors | extensions/service.js:72-87 | on concrete notifications: `to` b becomes `from` b; without `to` there is no `from`, and a missing `type` stays missing |
| ServiceVectors.PricingVectors | extensions/service.js:144-161 | missing or empty codes give `en`/`us`; `fr`/`fr` is kept |
| ServiceVectors.ClearDirtyVectors | extensions/service.js:8-30 | only non-category children give an empty `clean`; two categories around another child give both entries, in order |

## Left out

- `nextMessageId`: its implementation is not part of this model. Ids are parameters, so the prefixes `cleardirty`, `getproperties` and `get_service_pricing_` do not appear. Freshness is a precondition only where the session invariant needs it.
- `addCallback` and `sendNode`: the correlator and the transport are not part of this model. They appear only as the `Register` and `Send` effects, with no callback, resolution, cancellation or asynchronous delivery.
- `common.tstamp`: this is the wall clock. The timestamp arrives as an already rendered string.
- `protocol.Node`: its internals and the binary wire codec are not part of this model. `Node` is a plain datatype with no raw-content payload. An attribute object or child list the source leaves `undefined` (`new protocol.Node('props')`, or a pong built without children) is the empty sequence.
- The `undefined` value the notification ack can store under `type` is kept as `None`. How the codec would serialise it is not modelled.
- Inbound nodes may repeat an attribute name, which a JavaScript attribute object cannot; reads then return the first value. Every node the builders produce has unique names (`Stanza.UniqueKeys`).
- `Service.Correlated` covers only sessions made of the two request operations. Fire-and-forget stanzas, which carry ids the peer chose, are not threaded through it.
