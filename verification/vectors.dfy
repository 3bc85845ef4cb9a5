/** The builders applied to concrete inputs, one per behaviour the
    conditional-attribute rules distinguish. */
module ServiceVectors {
  import opened Wrappers
  import opened Stanza
  import opened Service

  function Message(attrs: seq<Attr>): Node {
    Node("message", attrs, [])
  }

  /** A one-to-one message gets a receipt without `participant`; a group
      message's `participant` is carried over; an empty one is dropped. */
  lemma ReceiptVectors()
    ensures var r := Receipt(Message([Attr("from", Some("123")), Attr("id", Some("m1"))]), "1400000000");
      && Attribute(r, "to") == Some("123") && Attribute(r, "id") == Some("m1")
      && Attribute(r, "participant") == None
    ensures var r := Receipt(Message([Attr("from", Some("123")), Attr("id", Some("m1")),
                                      Attr("participant", Some("g1"))]), "1400000000");
      Attribute(r, "participant") == Some("g1")
    ensures var r := Receipt(Message([Attr("from", Some("123")), Attr("id", Some("m1")),
                                      Attr("participant", Some(""))]), "1400000000");
      Attribute(r, "participant") == None
  {
  }

  /** The notification ack swaps `to` into `from` when there is one and
      adds no `from` when there is not. */
  lemma NotificationAckVectors()
    ensures var r := NotificationAck(Message([Attr("from", Some("a")), Attr("to", Some("b")),
                                              Attr("id", Some("n1")), Attr("type", Some("t"))]));
      && Attribute(r, "to") == Some("a") && Attribute(r, "from") == Some("b")
      && Attribute(r, "id") == Some("n1") && Attribute(r, "type") == Some("t")
    ensures var r := NotificationAck(Message([Attr("from", Some("a")), Attr("id", Some("n1"))]));
      && Attribute(r, "from") == None && Attribute(r, "type") == None
  {
  }

  /** Pricing falls back to `en`/`us` and otherwise uses the given codes. */
  lemma PricingVectors(id: string, server: string)
    ensures var q := PricingQuery(id, None, None, server);
      Attribute(q.children[0], "lg") == Some("en") && Attribute(q.children[0], "lc") == Some("us")
    ensures var q := PricingQuery(id, Some(""), Some(""), server);
      Attribute(q.children[0], "lg") == Some("en") && Attribute(q.children[0], "lc") == Some("us")
    ensures var q := PricingQuery(id, Some("fr"), Some("fr"), server);
      Attribute(q.children[0], "lg") == Some("fr") && Attribute(q.children[0], "lc") == Some("fr")
  {
    PricingRules(id, None, None, server);
    PricingRules(id, Some(""), Some(""), server);
    PricingRules(id, Some("fr"), Some("fr"), server);
  }

  /** A clear-dirty notification with only non-`category` children yields an
      empty `clean`; one with two categories yields both, in order. */
  lemma ClearDirtyVectors(id: string, server: string)
    ensures ClearDirty(Node("dirty", [], [Node("other", [], [])]), id, server).children[0].children == []
    ensures var a := Node("category", [Attr("name", Some("groups"))], []);
            var b := Node("category", [Attr("name", Some("contacts"))], []);
      ClearDirty(Node("dirty", [], [a, Node("other", [], []), b]), id, server).children[0].children
        == [a, b]
  {
  }
}
