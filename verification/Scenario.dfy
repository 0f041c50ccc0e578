/** A channel with two items, one with every field and one with a title
    only, rendered end to end. */
module Scenario {
  import opened XmlTree
  import opened RSSAggregater

  /** A text leaf. */
  function Text(s: string): (n: Node) {
    Node(s, false, map[], [])
  }

  /** A tag holding one text leaf. */
  function Leaf(tag: string, text: string): (n: Node) {
    Node(tag, true, map[], [Text(text)])
  }

  /** The anchor the item cells print: the `href =` spelling of the item
      rows. */
  function Anchor(url: string, text: string): (a: string) {
    "<a href =" + url + ">" + text + "</a>"
  }

  /** An item with every field. */
  function FullItem(): (n: Node) {
    Node("item", true, map[], [
      Leaf("pubDate", "Mon"),
      Node("source", true, map["url" := "http://s"], [Text("S")]),
      Leaf("title", "T1"),
      Leaf("link", "http://l1")])
  }

  /** An item with a title only. */
  function TitleOnlyItem(): (n: Node) {
    Node("item", true, map[], [Leaf("title", "T2")])
  }

  /** A channel with its title, link and description and two items. */
  function SampleChannel(): (n: Node) {
    Node("channel", true, map[], [
      Leaf("title", "News"),
      Leaf("link", "http://n"),
      Leaf("description", "Daily"),
      FullItem(),
      TitleOnlyItem()])
  }

  /** An item with an empty link and no title: the link is never read. */
  function LinkOnlyItem(): (n: Node) {
    Node("item", true, map[], [Node("link", true, map[], [])])
  }

  /** An item whose only child is an empty link can be rendered, and its
      row holds the three fallbacks. */
  lemma LinkOnlyRow()
    ensures RowReady(LinkOnlyItem())
    ensures ItemRow(LinkOnlyItem()) ==
      RowLines("No date available", "No source available", "No description available")
  {
    var c := LinkOnlyItem().children;
    assert ChildIndex(c, "pubDate") == -1 && ChildIndex(c, "source") == -1;
    assert ChildIndex(c, "title") == -1;
  }

  /** Where the full item's fields sit among its children. */
  lemma FullItemIndices()
    ensures ChildIndex(FullItem().children, "pubDate") == 0
    ensures ChildIndex(FullItem().children, "source") == 1
    ensures ChildIndex(FullItem().children, "title") == 2
    ensures ChildIndex(FullItem().children, "link") == 3
  {
    var c := FullItem().children;
    assert ChildIndex(c[1..], "source") == 0;
    assert ChildIndex(c[2..], "title") == 0;
    assert ChildIndex(c[1..], "title") == 1;
    assert ChildIndex(c[3..], "link") == 0;
    assert ChildIndex(c[2..], "link") == 1;
    assert ChildIndex(c[1..], "link") == 2;
  }

  /** The full item's row: its date, an anchor to its source's url and an
      anchor from its title to its link. */
  lemma FullItemRow()
    ensures ItemRow(FullItem()) ==
      RowLines("Mon", Anchor("http://s", "S"), Anchor("http://l1", "T1"))
  {
    FullItemIndices();
    var c := FullItem().children;
    assert TextOf(c[1]) == "S" && Attr(c[1], "url") == "http://s";
    assert TextOf(c[2]) == "T1" && TextOf(c[3]) == "http://l1";
    assert SourceText(FullItem()) == Anchor("http://s", "S");
    assert TitleText(FullItem()) == Anchor("http://l1", "T1");
  }

  /** The title-only item's row: both fallbacks and the plain title. */
  lemma TitleOnlyRow()
    ensures ItemRow(TitleOnlyItem()) ==
      RowLines("No date available", "No source available", "T2")
  {
    var c := TitleOnlyItem().children;
    assert ChildIndex(c[1..], "pubDate") == -1;
    assert ChildIndex(c[1..], "source") == -1;
    assert ChildIndex(c[1..], "link") == -1;
  }

  /** Both items have what their rows need. */
  lemma SampleItemsReady()
    ensures RowReady(FullItem()) && RowReady(TitleOnlyItem())
  {
    FullItemIndices();
    var c := TitleOnlyItem().children;
    assert ChildIndex(c[1..], "pubDate") == -1;
    assert ChildIndex(c[1..], "source") == -1;
    assert ChildIndex(c[1..], "link") == -1;
  }

  /** The sample channel has the title, link and description the header
      needs. */
  lemma SampleHeaderFields()
    ensures HeaderFields(SampleChannel())
  {
    var c := SampleChannel().children;
    assert ChildIndex(c, "title") == 0;
    assert ChildIndex(c[2..], "description") == 0;
    assert ChildIndex(c[1..], "description") == 1;
    assert ChildIndex(c, "description") == 2;
    assert ChildIndex(c[1..], "link") == 0;
    assert ChildIndex(c, "link") == 1;
    assert TextOf(c[0]) == "News" && TextOf(c[1]) == "http://n" && TextOf(c[2]) == "Daily";
  }

  /** The items of the sample channel are its last two children. */
  lemma SampleItems()
    ensures Items(SampleChannel().children) == [FullItem(), TitleOnlyItem()]
  {
    var c := SampleChannel().children;
    assert c[..1][..0] == [];
    assert Items(c[..1]) == [];
    assert c[..2][..1] == c[..1];
    assert Items(c[..2]) == [];
    assert c[..3][..2] == c[..2];
    assert Items(c[..3]) == [];
    assert c[..4][..3] == c[..3];
    assert Items(c[..4]) == [FullItem()];
    assert c[..4] == c[..|c| - 1];
  }

  /** Two items make two rows, in order. */
  lemma RowsOfTwo(children: seq<Node>, first: Node, second: Node)
    requires Items(children) == [first, second]
    ensures Rows(children) == ItemRow(first) + ItemRow(second)
  {
    ConcatTwo(first, second, ItemRow);
  }

  /** Children whose two items are ready are renderable. */
  lemma RenderableTwo(children: seq<Node>, first: Node, second: Node)
    requires Items(children) == [first, second]
    requires RowReady(first) && RowReady(second)
    ensures ItemsRenderable(children)
  {
    RenderableFromItems(children);
  }

  /** Both items of the sample channel can be rendered as rows. */
  lemma SampleItemsRenderable()
    ensures ItemsRenderable(SampleChannel().children)
  {
    SampleItemsReady();
    SampleItems();
    RenderableTwo(SampleChannel().children, FullItem(), TitleOnlyItem());
  }

  /** The sample channel can be rendered, and its table body is the row of
      the full item followed by the row of the title-only item. */
  lemma TwoItemRows()
    ensures ChannelRenderable(SampleChannel())
    ensures Rows(SampleChannel().children) ==
      RowLines("Mon", Anchor("http://s", "S"), Anchor("http://l1", "T1")) +
      RowLines("No date available", "No source available", "T2")
  {
    FullItemRow();
    TitleOnlyRow();
    SampleHeaderFields();
    SampleItemsRenderable();
    SampleItems();
    RowsOfTwo(SampleChannel().children, FullItem(), TitleOnlyItem());
  }
}
