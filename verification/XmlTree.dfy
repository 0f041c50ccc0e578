/** The read-only labelled tree that the renderer walks, seen through the
    same queries as the XML tree component it reads: a node has a label (the
    tag name of an element, or the text itself for a text leaf), whether it
    is a tag, its attributes and its ordered children. */
module XmlTree {

  datatype Node = Node(name: string, isTag: bool, attrs: map<string, string>, children: seq<Node>)

  /** An element whose text can be read: it is a tag with a first child. */
  predicate HasText(n: Node) {
    n.isTag && |n.children| > 0
  }

  /** The text of an element: the label of its first child. Reading it from
      a node without children is a fault in the component; the model gives
      the empty string there, and every caller requires `HasText`. */
  function TextOf(n: Node): (t: string) {
    if |n.children| > 0 then n.children[0].name else ""
  }

  /** The value of attribute `key`, or the empty string when it is absent;
      every caller requires it to be present. */
  function Attr(n: Node, key: string): (v: string) {
    if key in n.attrs then n.attrs[key] else ""
  }

  /** Some child carries the label `tag`. */
  predicate Has(children: seq<Node>, tag: string) {
    exists k | 0 <= k < |children| :: children[k].name == tag
  }

  /** `i` is the index of the first child labelled `tag`. */
  predicate IsFirst(children: seq<Node>, tag: string, i: int) {
    0 <= i < |children| && children[i].name == tag &&
    forall k | 0 <= k < i :: children[k].name != tag
  }
}
