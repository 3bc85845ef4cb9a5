/** The protocol's message tree: a tag, an ordered list of attributes, and
    an ordered list of children. Every node a builder produces has unique
    attribute names (`UniqueKeys`); an inbound node is not required to. Nodes are immutable values;
    every builder returns a fresh one. */
module Stanza {
  import opened Wrappers

  /** One attribute. Its value is optional because a builder may store the
      result of reading an inbound attribute that is missing (JavaScript
      `undefined`); how the codec serialises such a value is outside the model. */
  datatype Attr = Attr(key: string, value: Option<string>)

  datatype Node = Node(tag: string, attrs: seq<Attr>, children: seq<Node>)

  /** The attribute names, in insertion order. */
  function Keys(attrs: seq<Attr>): seq<string> {
    seq(|attrs|, i requires 0 <= i < |attrs| => attrs[i].key)
  }

  /** No attribute name occurs twice, as in a JavaScript attribute object. */
  predicate UniqueKeys(attrs: seq<Attr>) {
    forall i, j :: 0 <= i < j < |attrs| ==> attrs[i].key != attrs[j].key
  }

  /** The value stored under `key`: the first attribute with that name, and
      `None` when there is none (absence is never an error). */
  function Lookup(attrs: seq<Attr>, key: string): Option<string>
    decreases |attrs|
  {
    if |attrs| == 0 then None
    else if attrs[0].key == key then attrs[0].value
    else Lookup(attrs[1..], key)
  }

  /** A name that no attribute carries reads as no value. */
  lemma {:induction false} LookupAbsent(attrs: seq<Attr>, key: string)
    requires forall i :: 0 <= i < |attrs| ==> attrs[i].key != key
    ensures Lookup(attrs, key) == None
    decreases |attrs|
  {
    if |attrs| > 0 {
      LookupAbsent(attrs[1..], key);
    }
  }

  /** A name reads as the value of the first attribute that carries it. */
  lemma {:induction false} LookupFirst(attrs: seq<Attr>, key: string, i: nat)
    requires i < |attrs| && attrs[i].key == key
    requires forall j :: 0 <= j < i ==> attrs[j].key != key
    ensures Lookup(attrs, key) == attrs[i].value
    decreases i
  {
    if i > 0 {
      LookupFirst(attrs[1..], key, i - 1);
    }
  }

  /** `node.attribute(name)`. */
  function Attribute(n: Node, key: string): Option<string> {
    Lookup(n.attrs, key)
  }

  /** `node.child(i)`. */
  function Child(n: Node, i: nat): Node
    requires i < |n.children|
  {
    n.children[i]
  }

  /** JavaScript truthiness of an attribute read: both a missing attribute
      and the empty string are falsy. */
  predicate Truthy(v: Option<string>) {
    v.Some? && v.value != ""
  }

  /** JavaScript `v || fallback` on an attribute read. */
  function OrElse(v: Option<string>, fallback: string): string {
    if Truthy(v) then v.value else fallback
  }
}
