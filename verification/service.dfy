/** The stanza builders of the service extension. The three values the
    source draws from its surroundings are parameters here: the message id
    (from the id generator), the protocol timestamp (from the clock, already
    rendered as a string) and the configured server address. */
module Service {
  import opened Wrappers
  import opened Stanza

  const DirtyNamespace := "urn:xmpp:whatsapp:dirty"
  const AccountNamespace := "urn:xmpp:whatsapp:account"
  const DefaultLanguage := "en"
  const DefaultCountry := "us"

  // ---------------------------------------------------------------------
  // Clear-dirty request
  // ---------------------------------------------------------------------

  /** The outbound entry for one inbound `category` child: its `name` only. */
  function CategoryEntry(child: Node): (r: Node)
    ensures r.tag == "category" && r.children == []
    ensures Keys(r.attrs) == ["name"]
    ensures Attribute(r, "name") == Attribute(child, "name")
  {
    Node("category", [Attr("name", Attribute(child, "name"))], [])
  }

  /** How many of `cs` are tagged `category`. */
  function CategoryCount(cs: seq<Node>): nat
    decreases |cs|
  {
    if |cs| == 0 then 0
    else (if cs[0].tag == "category" then 1 else 0) + CategoryCount(cs[1..])
  }

  /** The outbound `category` entries for the inbound children `cs`: one per
      child tagged `category`, other children skipped. */
  function Categories(cs: seq<Node>): (r: seq<Node>)
    ensures |r| == CategoryCount(cs)
    ensures forall k :: 0 <= k < |r| ==>
              r[k].tag == "category" && Keys(r[k].attrs) == ["name"] && r[k].children == []
    decreases |cs|
  {
    if |cs| == 0 then []
    else if cs[0].tag == "category" then [CategoryEntry(cs[0])] + Categories(cs[1..])
    else Categories(cs[1..])
  }

  /** Categories splits over concatenation, so entries keep the inbound order. */
  lemma {:induction false} CategoriesAppend(a: seq<Node>, b: seq<Node>)
    ensures Categories(a + b) == Categories(a) + Categories(b)
    decreases |a|
  {
    if |a| == 0 {
      assert a + b == b;
    } else {
      assert (a + b)[1..] == a[1..] + b;
      CategoriesAppend(a[1..], b);
    }
  }

  /** A single inbound child yields its entry when tagged `category`, else nothing. */
  lemma CategoriesOfOne(c: Node)
    ensures Categories([c]) == if c.tag == "category" then [CategoryEntry(c)] else []
  {
  }

  /** No entries exactly when no inbound child is tagged `category`; in
      particular a node without children gives an empty `clean`. */
  lemma {:induction false} CategoriesEmptyIff(cs: seq<Node>)
    ensures Categories(cs) == [] <==> forall i :: 0 <= i < |cs| ==> cs[i].tag != "category"
    decreases |cs|
  {
    if |cs| > 0 {
      CategoriesEmptyIff(cs[1..]);
      assert forall i :: 1 <= i < |cs| ==> cs[i] == cs[1..][i - 1];
    }
  }

  /** The entry for the inbound `category` child at index `i` sits at the
      position given by the number of `category` children before it: entries
      come one per such child, in the inbound order. */
  lemma CategoryPosition(cs: seq<Node>, i: nat)
    requires i < |cs| && cs[i].tag == "category"
    ensures CategoryCount(cs[..i]) < |Categories(cs)|
    ensures Categories(cs)[CategoryCount(cs[..i])] == CategoryEntry(cs[i])
  {
    assert cs == cs[..i] + ([cs[i]] + cs[i + 1..]);
    CategoriesAppend(cs[..i], [cs[i]] + cs[i + 1..]);
    CategoriesAppend([cs[i]], cs[i + 1..]);
    CategoriesOfOne(cs[i]);
  }

  /** Conversely, every entry comes from some inbound `category` child and
      carries that child's `name`. */
  lemma {:induction false} CategoryOrigin(cs: seq<Node>, k: nat)
    requires k < |Categories(cs)|
    ensures exists i :: 0 <= i < |cs| && cs[i].tag == "category" && Categories(cs)[k] == CategoryEntry(cs[i])
    decreases |cs|
  {
    if cs[0].tag == "category" && k == 0 {
      assert Categories(cs)[0] == CategoryEntry(cs[0]);
    } else {
      var k' := if cs[0].tag == "category" then k - 1 else k;
      CategoryOrigin(cs[1..], k');
      var i :| 0 <= i < |cs[1..]| && cs[1..][i].tag == "category"
               && Categories(cs[1..])[k'] == CategoryEntry(cs[1..][i]);
      assert cs[i + 1] == cs[1..][i];
    }
  }

  /** The scan over the inbound children, as the source writes it: one pass
      by index, pushing an entry for every `category` child. */
  method CollectCategories(node: Node) returns (categories: seq<Node>)
    ensures categories == Categories(node.children)
  {
    categories := [];
    var i := 0;
    while i < |node.children|
      invariant 0 <= i <= |node.children|
      invariant categories == Categories(node.children[..i])
    {
      var child := Child(node, i);
      assert node.children[..i + 1] == node.children[..i] + [child];
      CategoriesAppend(node.children[..i], [child]);
      CategoriesOfOne(child);
      if child.tag == "category" {
        categories := categories + [CategoryEntry(child)];
      }
      i := i + 1;
    }
    assert node.children[..i] == node.children;
  }

  /** `createClearDirtyNode`: an `iq` of type `set` to the server whose one
      `clean` child carries the dirty namespace and the category entries. */
  function ClearDirty(node: Node, id: string, server: string): (r: Node)
    ensures r.tag == "iq"
    ensures UniqueKeys(r.attrs)
    ensures Keys(r.attrs) == ["id", "type", "to"]
    ensures |r.children| == 1
    ensures r.children[0].tag == "clean"
    ensures UniqueKeys(r.children[0].attrs)
    ensures Keys(r.children[0].attrs) == ["xmlns"]
    ensures r.children[0].children == Categories(node.children)
  {
    var clean := Node("clean", [Attr("xmlns", Some(DirtyNamespace))], Categories(node.children));
    Node("iq", [Attr("id", Some(id)), Attr("type", Some("set")), Attr("to", Some(server))], [clean])
  }

  /** The attribute values of the clear-dirty request and of its `clean` child. */
  lemma ClearDirtyRules(node: Node, id: string, server: string)
    ensures var r := ClearDirty(node, id, server);
      && Attribute(r, "id") == Some(id)
      && Attribute(r, "type") == Some("set")
      && Attribute(r, "to") == Some(server)
      && Attribute(r.children[0], "xmlns") == Some(DirtyNamespace)
  {
    var r := ClearDirty(node, id, server);
    LookupFirst(r.attrs, "type", 1);
    LookupFirst(r.attrs, "to", 2);
  }

  // ---------------------------------------------------------------------
  // Replies and acknowledgements: fire-and-forget, nothing is registered
  // ---------------------------------------------------------------------

  /** `createPongNode`: an `iq` result to the server with no children. */
  function Pong(messageId: string, server: string): (r: Node)
    ensures r.tag == "iq"
    ensures UniqueKeys(r.attrs)
    ensures Keys(r.attrs) == ["to", "id", "type"]
    ensures r.children == []
  {
    Node("iq", [Attr("to", Some(server)), Attr("id", Some(messageId)), Attr("type", Some("result"))], [])
  }

  /** The pong reuses the ping's id verbatim, as a result `iq` carries the id
      of the request it answers (section 8.2.3 of RFC 6120). */
  lemma PongRules(messageId: string, server: string)
    ensures var r := Pong(messageId, server);
      && Attribute(r, "to") == Some(server)
      && Attribute(r, "id") == Some(messageId)
      && Attribute(r, "type") == Some("result")
  {
    var r := Pong(messageId, server);
    LookupFirst(r.attrs, "id", 1);
    LookupFirst(r.attrs, "type", 2);
  }

  /** `createReceiptNode`: a receipt with `to`, `type`, `id`, `t` and, when the
      inbound `participant` is truthy, `participant` — no other attribute. */
  function Receipt(node: Node, timestamp: string): (r: Node)
    ensures r.tag == "receipt"
    ensures r.children == []
    ensures UniqueKeys(r.attrs)
    ensures Keys(r.attrs) == ["to", "type", "id", "t"]
              + (if Truthy(Attribute(node, "participant")) then ["participant"] else [])
  {
    var participant := Attribute(node, "participant");
    var base := [Attr("to", Attribute(node, "from")), Attr("type", Some("read")),
                 Attr("id", Attribute(node, "id")), Attr("t", Some(timestamp))];
    var attrs := if Truthy(participant) then base + [Attr("participant", participant)] else base;
    Node("receipt", attrs, [])
  }

  /** A `read` receipt addressed back to the sender of the message, under the
      message's id; `participant` is present exactly when the inbound one is
      truthy, and then equal to it. */
  lemma ReceiptRules(node: Node, timestamp: string)
    ensures var r := Receipt(node, timestamp);
      && Attribute(r, "to") == Attribute(node, "from")
      && Attribute(r, "type") == Some("read")
      && Attribute(r, "id") == Attribute(node, "id")
      && Attribute(r, "t") == Some(timestamp)
      && (Attribute(r, "participant").Some? <==> Truthy(Attribute(node, "participant")))
      && (Truthy(Attribute(node, "participant")) ==>
            Attribute(r, "participant") == Attribute(node, "participant"))
  {
    var r := Receipt(node, timestamp);
    LookupFirst(r.attrs, "type", 1);
    LookupFirst(r.attrs, "id", 2);
    LookupFirst(r.attrs, "t", 3);
    if Truthy(Attribute(node, "participant")) {
      LookupFirst(r.attrs, "participant", 4);
    } else {
      LookupAbsent(r.attrs, "participant");
    }
  }

  /** `createNotificationAckNode`: an ack with `to`, `class`, `id`, `type`
      always, then `from` and `participant` each when the inbound `to`,
      respectively `participant`, is truthy — no other attribute. */
  function NotificationAck(node: Node): (r: Node)
    ensures r.tag == "ack"
    ensures r.children == []
    ensures UniqueKeys(r.attrs)
    ensures Keys(r.attrs) == ["to", "class", "id", "type"]
              + (if Truthy(Attribute(node, "to")) then ["from"] else [])
              + (if Truthy(Attribute(node, "participant")) then ["participant"] else [])
  {
    var to := Attribute(node, "to");
    var participant := Attribute(node, "participant");
    var base := [Attr("to", Attribute(node, "from")), Attr("class", Some("notification")),
                 Attr("id", Attribute(node, "id")), Attr("type", Attribute(node, "type"))];
    var withFrom := if Truthy(to) then base + [Attr("from", to)] else base;
    var attrs := if Truthy(participant) then withFrom + [Attr("participant", participant)] else withFrom;
    Node("ack", attrs, [])
  }

  /** The notification ack inverts the addressing: it goes to the inbound
      `from`, and the inbound `to`, when truthy, becomes its `from`. `id` and
      `type` are copied whatever they hold (a missing one stays missing). */
  lemma NotificationAckAddressing(node: Node)
    ensures var r := NotificationAck(node);
      && Attribute(r, "to") == Attribute(node, "from")
      && Attribute(r, "class") == Some("notification")
      && Attribute(r, "id") == Attribute(node, "id")
      && Attribute(r, "type") == Attribute(node, "type")
      && (Attribute(r, "from").Some? <==> Truthy(Attribute(node, "to")))
      && (Truthy(Attribute(node, "to")) ==> Attribute(r, "from") == Attribute(node, "to"))
  {
    var r := NotificationAck(node);
    LookupFirst(r.attrs, "class", 1);
    LookupFirst(r.attrs, "id", 2);
    LookupFirst(r.attrs, "type", 3);
    if Truthy(Attribute(node, "to")) {
      LookupFirst(r.attrs, "from", 4);
    } else {
      LookupAbsent(r.attrs, "from");
    }
  }

  /** `participant` is present on the notification ack exactly when the
      inbound one is truthy, and then equal to it. */
  lemma NotificationAckParticipant(node: Node)
    ensures var r := NotificationAck(node);
      && (Attribute(r, "participant").Some? <==> Truthy(Attribute(node, "participant")))
      && (Truthy(Attribute(node, "participant")) ==>
            Attribute(r, "participant") == Attribute(node, "participant"))
  {
    var r := NotificationAck(node);
    if Truthy(Attribute(node, "participant")) {
      LookupFirst(r.attrs, "participant", |r.attrs| - 1);
    } else {
      LookupAbsent(r.attrs, "participant");
    }
  }

  /** `createAckNode`: an ack with `to`, `id`, `t` and, when the inbound
      `type` is truthy, `type` — no other attribute. */
  function Ack(node: Node, timestamp: string): (r: Node)
    ensures r.tag == "ack"
    ensures r.children == []
    ensures UniqueKeys(r.attrs)
    ensures Keys(r.attrs) == ["to", "id", "t"]
              + (if Truthy(Attribute(node, "type")) then ["type"] else [])
  {
    var kind := Attribute(node, "type");
    var base := [Attr("to", Attribute(node, "from")), Attr("id", Attribute(node, "id")),
                 Attr("t", Some(timestamp))];
    var attrs := if Truthy(kind) then base + [Attr("type", kind)] else base;
    Node("ack", attrs, [])
  }

  /** The receipt ack goes back to the sender under the receipt's id; its
      `type` is the inbound one when truthy and absent otherwise, never a
      default. */
  lemma AckRules(node: Node, timestamp: string)
    ensures var r := Ack(node, timestamp);
      && Attribute(r, "to") == Attribute(node, "from")
      && Attribute(r, "id") == Attribute(node, "id")
      && Attribute(r, "t") == Some(timestamp)
      && (Attribute(r, "type").Some? <==> Truthy(Attribute(node, "type")))
      && (Truthy(Attribute(node, "type")) ==> Attribute(r, "type") == Attribute(node, "type"))
  {
    var r := Ack(node, timestamp);
    LookupFirst(r.attrs, "id", 1);
    LookupFirst(r.attrs, "t", 2);
    if Truthy(Attribute(node, "type")) {
      LookupFirst(r.attrs, "type", 3);
    } else {
      LookupAbsent(r.attrs, "type");
    }
  }

  // ---------------------------------------------------------------------
  // Requests that await a reply
  // ---------------------------------------------------------------------

  /** What a request does to the outside world: it registers a callback
      under an id with the response correlator, and it hands a node to the
      transport. Neither collaborator is modelled; only the order is. */
  datatype Effect = Register(id: string) | Send(node: Node)

  /** The `iq` of `requestServerProperties`: a `get` in namespace `w` with
      one bare `props` child. */
  function ServerPropertiesQuery(id: string, server: string): (r: Node)
    ensures r.tag == "iq"
    ensures UniqueKeys(r.attrs)
    ensures Keys(r.attrs) == ["id", "type", "xmlns", "to"]
    ensures |r.children| == 1
    ensures r.children[0] == Node("props", [], [])
  {
    Node("iq", [Attr("id", Some(id)), Attr("type", Some("get")), Attr("xmlns", Some("w")),
                Attr("to", Some(server))],
         [Node("props", [], [])])
  }

  /** `requestServerProperties`: register under the fresh id, then send. */
  function RequestServerProperties(id: string, server: string): (trace: seq<Effect>)
    ensures IsRequest(trace, id)
  {
    [Register(id), Send(ServerPropertiesQuery(id, server))]
  }

  /** The server-properties query carries the registered id and is
      addressed to the server. */
  lemma ServerPropertiesRules(id: string, server: string)
    ensures var r := ServerPropertiesQuery(id, server);
      && Attribute(r, "id") == Some(id)
      && Attribute(r, "type") == Some("get")
      && Attribute(r, "xmlns") == Some("w")
      && Attribute(r, "to") == Some(server)
  {
    var r := ServerPropertiesQuery(id, server);
    LookupFirst(r.attrs, "type", 1);
    LookupFirst(r.attrs, "xmlns", 2);
    LookupFirst(r.attrs, "to", 3);
  }

  /** The `iq` of `requestServicePricing`: a `get` in the account namespace
      with one `pricing` child holding the language and country codes. */
  function PricingQuery(id: string, language: Option<string>, country: Option<string>,
                        server: string): (r: Node)
    ensures r.tag == "iq"
    ensures UniqueKeys(r.attrs)
    ensures Keys(r.attrs) == ["id", "xmlns", "type", "to"]
    ensures |r.children| == 1
    ensures r.children[0].tag == "pricing"
    ensures UniqueKeys(r.children[0].attrs)
    ensures Keys(r.children[0].attrs) == ["lg", "lc"]
    ensures r.children[0].children == []
  {
    var pricing := Node("pricing", [Attr("lg", Some(OrElse(language, DefaultLanguage))),
                                    Attr("lc", Some(OrElse(country, DefaultCountry)))], []);
    Node("iq", [Attr("id", Some(id)), Attr("xmlns", Some(AccountNamespace)), Attr("type", Some("get")),
                Attr("to", Some(server))],
         [pricing])
  }

  /** `requestServicePricing`: register under the fresh id, then send. */
  function RequestServicePricing(id: string, language: Option<string>, country: Option<string>,
                                 server: string): (trace: seq<Effect>)
    ensures IsRequest(trace, id)
  {
    [Register(id), Send(PricingQuery(id, language, country, server))]
  }

  /** The pricing query carries the registered id; `lg` is the language when
      truthy and `en` otherwise, `lc` the country when truthy and `us`
      otherwise. */
  lemma PricingRules(id: string, language: Option<string>, country: Option<string>, server: string)
    ensures var r := PricingQuery(id, language, country, server);
      && Attribute(r, "id") == Some(id)
      && Attribute(r, "xmlns") == Some(AccountNamespace)
      && Attribute(r, "type") == Some("get")
      && Attribute(r, "to") == Some(server)
      && Attribute(r.children[0], "lg") == Some(if Truthy(language) then language.value else DefaultLanguage)
      && Attribute(r.children[0], "lc") == Some(if Truthy(country) then country.value else DefaultCountry)
  {
    var r := PricingQuery(id, language, country, server);
    LookupFirst(r.attrs, "xmlns", 1);
    LookupFirst(r.attrs, "type", 2);
    LookupFirst(r.attrs, "to", 3);
    LookupFirst(r.children[0].attrs, "lc", 1);
  }

  // ---------------------------------------------------------------------
  // Correlation discipline over a session's effects
  // ---------------------------------------------------------------------

  /** The id an effect is about: the registered id, or the id of the node sent. */
  function EffectId(e: Effect): Option<string> {
    match e
    case Register(id) => Some(id)
    case Send(n) => Attribute(n, "id")
  }

  /** A request trace: register under `id`, then send one node carrying `id`. */
  predicate IsRequest(trace: seq<Effect>, id: string) {
    && |trace| == 2
    && trace[0] == Register(id)
    && trace[1].Send?
    && Attribute(trace[1].node, "id") == Some(id)
  }

  /** `id` has not appeared in the session so far: it was neither registered
      nor carried by a node already sent. */
  predicate Fresh(log: seq<Effect>, id: string) {
    forall k :: 0 <= k < |log| ==> EffectId(log[k]) != Some(id)
  }

  /** At most one registration per id. */
  predicate DistinctRegistrations(log: seq<Effect>) {
    forall i, j :: 0 <= i < j < |log| && log[i].Register? && log[j].Register? ==> log[i].id != log[j].id
  }

  /** No node carrying a registered id goes out before that registration:
      a reply can never arrive before its callback is in place. */
  predicate RegisteredBeforeSent(log: seq<Effect>) {
    forall i, j :: (0 <= i < |log| && 0 <= j < |log| && log[i].Register? && log[j].Send?
                    && Attribute(log[j].node, "id") == Some(log[i].id)) ==> i < j
  }

  predicate Correlated(log: seq<Effect>) {
    DistinctRegistrations(log) && RegisteredBeforeSent(log)
  }

  /** Issuing a request under a fresh id keeps the session correlated. */
  lemma IssuePreservesCorrelation(log: seq<Effect>, request: seq<Effect>, id: string)
    requires Correlated(log)
    requires Fresh(log, id)
    requires IsRequest(request, id)
    ensures Correlated(log + request)
  {
  }

  /** Both request builders keep a correlated session correlated. */
  lemma RequestsPreserveCorrelation(log: seq<Effect>, id: string, language: Option<string>,
                                    country: Option<string>, server: string)
    requires Correlated(log)
    requires Fresh(log, id)
    ensures Correlated(log + RequestServerProperties(id, server))
    ensures Correlated(log + RequestServicePricing(id, language, country, server))
  {
  }
}
