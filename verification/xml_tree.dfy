/**
 * An ElementTree element and the few query shapes the extractors use:
 * `./X` (children), `.//X` (proper descendants), `[@A="v"]`, `./` (all children),
 * `find` (the first match) and `Element.iter(tag)` (self and descendants, in pre-order).
 */
module XmlTree {
  import opened Wrappers
  import opened Seqs

  /** An element: its tag, its attribute map, its text (None when it has none) and its children in document order. */
  datatype Node = Node(tag: string, attrib: map<string, string>, text: Option<string>, children: seq<Node>)

  /** `n.attrib[key]`, raising KeyError when the attribute is missing. */
  function Attr(n: Node, key: string): Result<string> {
    if key in n.attrib then Ok(n.attrib[key]) else Err(KeyError(key))
  }

  function HasTag(tag: string): Node -> bool {
    (n: Node) => n.tag == tag
  }

  /** The condition of the predicate `[@key="value"]`; a missing attribute does not match. */
  function HasAttr(key: string, value: string): Node -> bool {
    (n: Node) => key in n.attrib && n.attrib[key] == value
  }

  /** Every element below the elements of `cs`, each followed by its own descendants (document order). */
  function Forest(cs: seq<Node>): seq<Node>
    decreases cs
  {
    if cs == [] then [] else [cs[0]] + Forest(cs[0].children) + Forest(cs[1..])
  }

  /** The proper descendants of `n`, in document order. */
  function Descendants(n: Node): seq<Node> {
    Forest(n.children)
  }

  /** `n.iter(tag)`: `n` itself when it has the tag, then its descendants with the tag, in pre-order. */
  function Iter(n: Node, tag: string): seq<Node> {
    Filter([n] + Descendants(n), HasTag(tag))
  }

  /** One `/X` step from every element of `xs`: their children tagged `tag`, list by list. */
  function ChildStep(xs: seq<Node>, tag: string): seq<Node> {
    if xs == [] then [] else Filter(xs[0].children, HasTag(tag)) + ChildStep(xs[1..], tag)
  }

  /** One `.//X` step from every element of `xs`: their descendants tagged `tag`. */
  function DescendantStep(xs: seq<Node>, tag: string): seq<Node> {
    if xs == [] then [] else Filter(Descendants(xs[0]), HasTag(tag)) + DescendantStep(xs[1..], tag)
  }

  /** A path ending in `/` (ElementPath appends a star to it): all children of every element of `xs`. */
  function AllChildren(xs: seq<Node>): seq<Node> {
    if xs == [] then [] else xs[0].children + AllChildren(xs[1..])
  }

  /** The predicate step `[@key="value"]`. */
  function WithAttr(xs: seq<Node>, key: string, value: string): seq<Node> {
    Filter(xs, HasAttr(key, value))
  }

  function First(xs: seq<Node>): Option<Node> {
    if xs == [] then None else Some(xs[0])
  }

  /** `n.find("./tag")`. */
  function FindChild(n: Node, tag: string): Option<Node> {
    First(ChildStep([n], tag))
  }

  /** `n.find(".//tag")`. */
  function FindDescendant(n: Node, tag: string): Option<Node> {
    First(DescendantStep([n], tag))
  }

  /** `n[0]`, raising IndexError for an element without children. */
  function Child0(n: Node): Result<Node> {
    if n.children == [] then Err(IndexError) else Ok(n.children[0])
  }

  lemma StepOfOne(n: Node, tag: string)
    ensures ChildStep([n], tag) == Filter(n.children, HasTag(tag))
    ensures DescendantStep([n], tag) == Filter(Descendants(n), HasTag(tag))
    ensures AllChildren([n]) == n.children
  {
    assert [n][1..] == [];
  }
}
