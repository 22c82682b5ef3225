/**
 The abstract configuration tree that the generator builds with the hclwrite
 library: a block has a type, labels and a body; a body is an ordered list of
 items, each an attribute (name = value) or a nested block. Only the two body
 operations the generator uses are modelled: setting an attribute value and
 appending a block. Serialising the tree to bytes is not part of this model.
 */
module Hcl {

  datatype Option<+T> = None | Some(value: T)

  /** The values the generator writes: cty.BoolVal, cty.StringVal and cty.ListVal. */
  datatype Value = Bool(b: bool) | Str(s: string) | List(elems: seq<Value>)

  datatype Block = Block(kind: string, labels: seq<string>, body: seq<Item>)

  datatype Item = Attribute(name: string, value: Value) | Nested(block: Block)

  /** The names of the attributes in a body. */
  function Names(items: seq<Item>): (r: set<string>)
    ensures forall i :: 0 <= i < |items| && items[i].Attribute? ==> items[i].name in r
  {
    if items == [] then {}
    else (if items[0].Attribute? then {items[0].name} else {}) + Names(items[1..])
  }

  lemma {:induction false} NamesConcat(a: seq<Item>, b: seq<Item>)
    ensures Names(a + b) == Names(a) + Names(b)
  {
    if a == [] {
      assert a + b == b;
    } else {
      assert (a + b)[0] == a[0] && (a + b)[1..] == a[1..] + b;
      NamesConcat(a[1..], b);
    }
  }

  /** A name in Names is the name of one of the body's attributes. */
  lemma {:induction false} NamesWitness(items: seq<Item>, n: string) returns (i: nat)
    requires n in Names(items)
    ensures i < |items| && items[i].Attribute? && items[i].name == n
  {
    if items[0].Attribute? && items[0].name == n {
      i := 0;
    } else {
      var j := NamesWitness(items[1..], n);
      i := j + 1;
    }
  }

  /** The value of the first attribute called n, as the body's GetAttribute finds it. */
  function Lookup(items: seq<Item>, n: string): (r: Option<Value>)
    ensures r.Some? <==> n in Names(items)
  {
    if items == [] then None
    else if items[0].Attribute? && items[0].name == n then Some(items[0].value)
    else Lookup(items[1..], n)
  }

  /** A body of two attributes with different names: what it holds and what Lookup finds in it. */
  lemma TwoAttributes(n1: string, v1: Value, n2: string, v2: Value)
    requires n1 != n2
    ensures var body := [Attribute(n1, v1), Attribute(n2, v2)];
      Names(body) == {n1, n2} && Lookup(body, n1) == Some(v1) && Lookup(body, n2) == Some(v2)
  {
    var body := [Attribute(n1, v1), Attribute(n2, v2)];
    assert body[1..] == [Attribute(n2, v2)] && body[1..][1..] == [];
    assert Names(body[1..]) == {n2};
  }

  /** A body of three attributes with different names: what it holds and what Lookup finds in it. */
  lemma ThreeAttributes(n1: string, v1: Value, n2: string, v2: Value, n3: string, v3: Value)
    requires n1 != n2 && n1 != n3 && n2 != n3
    ensures var body := [Attribute(n1, v1), Attribute(n2, v2), Attribute(n3, v3)];
      && Names(body) == {n1, n2, n3}
      && Lookup(body, n1) == Some(v1) && Lookup(body, n2) == Some(v2) && Lookup(body, n3) == Some(v3)
  {
    var body := [Attribute(n1, v1), Attribute(n2, v2), Attribute(n3, v3)];
    assert body[1..] == [Attribute(n2, v2), Attribute(n3, v3)];
    TwoAttributes(n2, v2, n3, v3);
  }

  /**
   SetAttributeValue: the first attribute called n gets the value v, in place;
   when there is none, a new attribute is appended at the end of the body.
   */
  function SetAttr(items: seq<Item>, n: string, v: Value): (r: seq<Item>)
    ensures Names(r) == Names(items) + {n}
    ensures n !in Names(items) ==> r == items + [Attribute(n, v)]
  {
    if |items| == 0 then [Attribute(n, v)]
    else if items[0].Attribute? && items[0].name == n then [Attribute(n, v)] + items[1..]
    else
      var rest := SetAttr(items[1..], n, v);
      assert items == [items[0]] + items[1..];
      NamesConcat([items[0]], rest);
      NamesConcat([items[0]], items[1..]);
      [items[0]] + rest
  }

  /** After SetAttr the attribute n has the value v. */
  lemma {:induction false} SetAttrLookup(items: seq<Item>, n: string, v: Value)
    ensures Lookup(SetAttr(items, n, v), n) == Some(v)
  {
    if |items| != 0 && !(items[0].Attribute? && items[0].name == n) {
      SetAttrLookup(items[1..], n, v);
    }
  }

  /** Setting one attribute leaves every other attribute's value as it was. */
  lemma {:induction false} SetAttrOthers(items: seq<Item>, n: string, v: Value, m: string)
    requires m != n
    ensures Lookup(SetAttr(items, n, v), m) == Lookup(items, m)
  {
    if |items| != 0 && !(items[0].Attribute? && items[0].name == n) {
      SetAttrOthers(items[1..], n, v, m);
    }
  }

  /** An attribute the body already holds is replaced in place: the body keeps its length. */
  lemma {:induction false} SetAttrInPlace(items: seq<Item>, n: string, v: Value)
    requires n in Names(items)
    ensures |SetAttr(items, n, v)| == |items|
  {
    if !(items[0].Attribute? && items[0].name == n) {
      assert items == [items[0]] + items[1..];
      NamesConcat([items[0]], items[1..]);
      SetAttrInPlace(items[1..], n, v);
    }
  }

  /** Setting the same attribute twice leaves the value of the second call. */
  lemma {:induction false} SetAttrTwice(items: seq<Item>, n: string, v: Value, w: Value)
    ensures SetAttr(SetAttr(items, n, v), n, w) == SetAttr(items, n, w)
  {
    if items != [] && !(items[0].Attribute? && items[0].name == n) {
      SetAttrTwice(items[1..], n, v, w);
    }
  }

  /**
   What one body call does: nothing, AppendBlock or SetAttributeValue.
   A loop iteration of the generator performs at most one of them on a body.
   */
  datatype Effect = NoEffect | AppendBlockEffect(block: Block) | SetAttributeEffect(name: string, value: Value)

  /** The items an effect adds to a body that does not yet hold the attribute it sets. */
  function Emitted(eff: Effect): (r: seq<Item>)
    ensures eff.NoEffect? <==> r == []
    ensures Names(r) == if eff.SetAttributeEffect? then {eff.name} else {}
  {
    match eff
    case NoEffect => []
    case AppendBlockEffect(b) => [Nested(b)]
    case SetAttributeEffect(n, v) => [Attribute(n, v)]
  }

  function Apply(items: seq<Item>, eff: Effect): (r: seq<Item>)
    ensures !(eff.SetAttributeEffect? && eff.name in Names(items)) ==> r == items + Emitted(eff)
  {
    match eff
    case NoEffect => items
    case AppendBlockEffect(b) => items + [Nested(b)]
    case SetAttributeEffect(n, v) => SetAttr(items, n, v)
  }

  /** A body being built (hclwrite's *Body); blocks are appended by value once their body is complete. */
  class Body {
    var items: seq<Item>

    constructor ()
      ensures items == []
    {
      items := [];
    }

    method SetAttributeValue(name: string, value: Value)
      modifies this
      ensures items == SetAttr(old(items), name, value)
    {
      items := SetAttr(items, name, value);
    }

    method AppendBlock(block: Block)
      modifies this
      ensures items == old(items) + [Nested(block)]
    {
      items := items + [Nested(block)];
    }
  }
}
