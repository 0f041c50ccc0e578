/** Renders one RSS 2.0 channel, already parsed into a labelled tree, as an
    HTML page: a header built from the channel's title, link and
    description, one table row per item, and a footer. Every renderer
    appends lines to a writer and changes nothing else.

    The functions below say what each renderer prints; they are total, and
    the methods, which follow the program statement by statement, require
    what the program needs of the tree to run without fault. */
module RSSAggregater {
  import opened XmlTree
  import opened SimpleWriter

  // ---------------------------------------------------------------------
  // Finding the first child with a given label
  // ---------------------------------------------------------------------

  /** The index of the first child labelled `tag`, or -1 when there is none. */
  function ChildIndex(children: seq<Node>, tag: string): (r: int)
    ensures -1 <= r < |children|
    ensures r == -1 <==> !Has(children, tag)
    ensures r != -1 ==> IsFirst(children, tag, r)
    decreases |children|
  {
    if |children| == 0 then -1
    else if children[0].name == tag then 0
    else
      var j := ChildIndex(children[1..], tag);
      if j == -1 then -1 else j + 1
  }

  /** The linear search over the children of a tag. The first child is read
      before the bound is compared, so the tag needs at least one child. */
  method GetChildElement(xml: Node, tag: string) returns (r: int)
    requires xml.isTag
    requires |xml.children| > 0
    ensures -1 <= r < |xml.children|
    ensures r == -1 <==> !Has(xml.children, tag)
    ensures r != -1 ==> IsFirst(xml.children, tag, r)
    ensures r == ChildIndex(xml.children, tag)
  {
    var i := 0;
    var numOfChildren := |xml.children|;
    while xml.children[i].name != tag
      invariant 0 <= i < numOfChildren
      invariant forall k | 0 <= k < i :: xml.children[k].name != tag
      decreases numOfChildren - i
    {
      i := i + 1;
      if i == numOfChildren {
        return -1;
      }
    }
    return i;
  }

  /** A tag without children, such as an empty item, has no child labelled
      `tag`, yet the search reads its first child before comparing the
      index with the number of children. */
  lemma EmptyTagLookup(tag: string)
    ensures var empty := Node("item", true, map[], []);
      |empty.children| == 0 && !Has(empty.children, tag) && ChildIndex(empty.children, tag) == -1
  {
  }

  /** Whenever a child labelled `tag` exists, the first one has a text. */
  predicate Readable(children: seq<Node>, tag: string) {
    var i := ChildIndex(children, tag);
    i == -1 || HasText(children[i])
  }

  /** The text of the first child labelled `tag` (empty when there is none). */
  function FirstText(n: Node, tag: string): (r: string)
    ensures forall i | IsFirst(n.children, tag, i) :: r == TextOf(n.children[i])
  {
    var i := ChildIndex(n.children, tag);
    if i == -1 then "" else TextOf(n.children[i])
  }

  // ---------------------------------------------------------------------
  // Header
  // ---------------------------------------------------------------------

  /** What the header needs of the channel: it is a `channel` tag whose
      title, link and description children exist and have a text. */
  predicate HeaderFields(channel: Node) {
    channel.isTag && channel.name == "channel" &&
    Has(channel.children, "title") && Readable(channel.children, "title") &&
    Has(channel.children, "link") && Readable(channel.children, "link") &&
    Has(channel.children, "description") && Readable(channel.children, "description")
  }

  /** The sixteen opening lines of the page, around a title, link and
      description text. */
  function HeaderLines(title: string, link: string, description: string): (r: seq<string>) {
    ["<html>",
     "<head>",
     "<title>" + title + "</title>",
     "</head>",
     "<body>",
     "   <h1>",
     "       <a href=" + link + ">" + title + "</a>",
     "   </h1>",
     "   <p>" + description + "</p>",
     "<table border=\"1\">",
     " <tbody>",
     "  <tr>",
     "      <th>Date</th>",
     "      <th>Source</th>",
     "      <th>News</th>",
     " </tr>"]
  }

  /** The header of `channel`: sixteen lines holding the text of its first
      title child in the page title and as the text of the heading's anchor,
      the text of its first link child as that anchor's target, the text of
      its first description child in a paragraph, and the table's column
      headers Date, Source and News in that order. */
  function Header(channel: Node): (r: seq<string>)
    ensures |r| == 16
    ensures r[0] == "<html>" && r[1] == "<head>" && r[3] == "</head>" && r[4] == "<body>"
    ensures r[5] == "   <h1>" && r[7] == "   </h1>"
    ensures r[9] == "<table border=\"1\">" && r[10] == " <tbody>" && r[11] == "  <tr>"
    ensures r[12] == "      <th>Date</th>" && r[13] == "      <th>Source</th>" && r[14] == "      <th>News</th>"
    ensures r[15] == " </tr>"
    ensures forall t | IsFirst(channel.children, "title", t) ::
      r[2] == "<title>" + TextOf(channel.children[t]) + "</title>"
    ensures forall t, l | IsFirst(channel.children, "title", t) && IsFirst(channel.children, "link", l) ::
      r[6] == "       <a href=" + TextOf(channel.children[l]) + ">" + TextOf(channel.children[t]) + "</a>"
    ensures forall d | IsFirst(channel.children, "description", d) ::
      r[8] == "   <p>" + TextOf(channel.children[d]) + "</p>"
  {
    var title, link := FirstText(channel, "title"), FirstText(channel, "link");
    var description := FirstText(channel, "description");
    HeaderLinesAt(title, link, description);
    HeaderLines(title, link, description)
  }

  /** Where each line sits among the header lines. */
  lemma HeaderLinesAt(title: string, link: string, description: string)
    ensures var r := HeaderLines(title, link, description);
      |r| == 16 &&
      r[0] == "<html>" && r[1] == "<head>" && r[2] == "<title>" + title + "</title>" &&
      r[3] == "</head>" && r[4] == "<body>" && r[5] == "   <h1>" &&
      r[6] == "       <a href=" + link + ">" + title + "</a>" && r[7] == "   </h1>" &&
      r[8] == "   <p>" + description + "</p>" && r[9] == "<table border=\"1\">" &&
      r[10] == " <tbody>" && r[11] == "  <tr>" && r[12] == "      <th>Date</th>" &&
      r[13] == "      <th>Source</th>" && r[14] == "      <th>News</th>" && r[15] == " </tr>"
  {
  }

  method OutputHeader(channel: Node, out: Writer)
    requires HeaderFields(channel)
    modifies out
    ensures out.content == old(out.content) + Header(channel)
  {
    var title := GetChildElement(channel, "title");
    var link := GetChildElement(channel, "link");
    var d := GetChildElement(channel, "description");
    var titleText := channel.children[title].children[0].name;
    var linkText := channel.children[link].children[0].name;
    var descriptionText := channel.children[d].children[0].name;
    ghost var before := out.content;

    out.Println("<html>");
    out.Println("<head>");
    out.Println("<title>" + titleText + "</title>");
    out.Println("</head>");
    out.Println("<body>");
    out.Println("   <h1>");
    out.Println("       <a href=" + linkText + ">" + titleText + "</a>");
    out.Println("   </h1>");
    out.Println("   <p>" + descriptionText + "</p>");
    out.Println("<table border=\"1\">");
    out.Println(" <tbody>");
    out.Println("  <tr>");
    out.Println("      <th>Date</th>");
    out.Println("      <th>Source</th>");
    out.Println("      <th>News</th>");
    out.Println(" </tr>");
    HeaderLinesAppended(before, titleText, linkText, descriptionText);
  }

  /** Printing the header lines one at a time appends `HeaderLines`. */
  lemma HeaderLinesAppended(before: seq<string>, title: string, link: string, description: string)
    ensures before + ["<html>"] + ["<head>"] + ["<title>" + title + "</title>"] + ["</head>"]
      + ["<body>"] + ["   <h1>"] + ["       <a href=" + link + ">" + title + "</a>"]
      + ["   </h1>"] + ["   <p>" + description + "</p>"] + ["<table border=\"1\">"]
      + [" <tbody>"] + ["  <tr>"] + ["      <th>Date</th>"] + ["      <th>Source</th>"]
      + ["      <th>News</th>"] + [" </tr>"]
      == before + HeaderLines(title, link, description)
  {
  }

  // ---------------------------------------------------------------------
  // Footer
  // ---------------------------------------------------------------------

  /** The closing lines of the page. */
  function FooterLines(): (r: seq<string>)
    ensures |r| == 4
  {
    ["  </tbody>", " </table>", "</body>", "</html>"]
  }

  method OutputFooter(out: Writer)
    modifies out
    ensures out.content == old(out.content) + FooterLines()
  {
    out.Println("  </tbody>");
    out.Println(" </table>");
    out.Println("</body>");
    out.Println("</html>");
  }

  // ---------------------------------------------------------------------
  // One item row
  // ---------------------------------------------------------------------

  /** Whenever a source child exists, the first one has a text and a url. */
  predicate SourceReadable(children: seq<Node>) {
    var i := ChildIndex(children, "source");
    i == -1 || (HasText(children[i]) && "url" in children[i].attrs)
  }

  /** What a row needs of an item: it is an `item` tag, and each of its first
      pubDate, source and title children, when present, has a text; the
      first source also carries a `url` attribute; the first link child,
      which is read only when there is a title, then has a text too. */
  predicate ItemFields(item: Node) {
    item.isTag && item.name == "item" &&
    Readable(item.children, "pubDate") &&
    SourceReadable(item.children) &&
    Readable(item.children, "title") &&
    (ChildIndex(item.children, "title") == -1 || Readable(item.children, "link"))
  }

  /** What a row needs of an item, as the renderer reads it: its fields, and
      a first child for the lookups to start from. */
  predicate RowReady(item: Node) {
    ItemFields(item) && |item.children| > 0
  }

  /** The date cell: the first pubDate's text, or a fallback. */
  function DateText(item: Node): (r: string)
    ensures !Has(item.children, "pubDate") ==> r == "No date available"
    ensures forall i | IsFirst(item.children, "pubDate", i) :: r == TextOf(item.children[i])
  {
    var date := ChildIndex(item.children, "pubDate");
    if date == -1 then "No date available"
    else TextOf(item.children[date])
  }

  /** The source cell: an anchor to the first source's url, or a fallback. */
  function SourceText(item: Node): (r: string)
    ensures !Has(item.children, "source") ==> r == "No source available"
    ensures forall i | IsFirst(item.children, "source", i) ::
      r == "<a href =" + Attr(item.children[i], "url") + ">" + TextOf(item.children[i]) + "</a>"
  {
    var source := ChildIndex(item.children, "source");
    if source == -1 then "No source available"
    else
      var sourceTag := item.children[source];
      "<a href =" + Attr(sourceTag, "url") + ">" + TextOf(sourceTag) + "</a>"
  }

  /** The news cell: a fallback without a title whether or not there is a
      link, the plain title without a link, and the title inside an anchor
      to the link when both are there. */
  function TitleText(item: Node): (r: string)
    ensures !Has(item.children, "title") ==> r == "No description available"
    ensures forall i | IsFirst(item.children, "title", i) ::
      !Has(item.children, "link") ==> r == TextOf(item.children[i])
    ensures forall i, j | IsFirst(item.children, "title", i) && IsFirst(item.children, "link", j) ::
      r == "<a href =" + TextOf(item.children[j]) + ">" + TextOf(item.children[i]) + "</a>"
  {
    var title := ChildIndex(item.children, "title");
    var link := ChildIndex(item.children, "link");
    if title == -1 then "No description available"
    else if link == -1 then TextOf(item.children[title])
    else "<a href =" + TextOf(item.children[link]) + ">" + TextOf(item.children[title]) + "</a>"
  }

  /** The five lines of a table row around a date, source and news cell. */
  function RowLines(date: string, source: string, title: string): (r: seq<string>) {
    ["<tr>",
     "   <td>" + date + "</td>",
     "   <td>" + source + "</td>",
     "   <td>" + title + "</td>",
     "</tr>"]
  }

  /** Printing the row lines one at a time appends `RowLines`. */
  lemma RowLinesAppended(before: seq<string>, date: string, source: string, title: string)
    ensures before + ["<tr>"] + ["   <td>" + date + "</td>"] + ["   <td>" + source + "</td>"]
      + ["   <td>" + title + "</td>"] + ["</tr>"]
      == before + RowLines(date, source, title)
  {
  }

  /** The row of an item: five lines, the row tags around the date, source
      and news cells in that order, whichever fallbacks apply. */
  function ItemRow(item: Node): (r: seq<string>)
    ensures |r| == 5 && r[0] == "<tr>" && r[4] == "</tr>"
    ensures r[1] == "   <td>" + DateText(item) + "</td>"
    ensures r[2] == "   <td>" + SourceText(item) + "</td>"
    ensures r[3] == "   <td>" + TitleText(item) + "</td>"
  {
    var date, source, title := DateText(item), SourceText(item), TitleText(item);
    RowLinesAt(date, source, title);
    RowLines(date, source, title)
  }

  /** Where each line sits among the row lines. */
  lemma RowLinesAt(date: string, source: string, title: string)
    ensures var r := RowLines(date, source, title);
      |r| == 5 && r[0] == "<tr>" && r[1] == "   <td>" + date + "</td>" &&
      r[2] == "   <td>" + source + "</td>" && r[3] == "   <td>" + title + "</td>" && r[4] == "</tr>"
  {
  }

  method ProcessItem(item: Node, out: Writer)
    requires RowReady(item)
    modifies out
    ensures out.content == old(out.content) + ItemRow(item)
  {
    var date := GetChildElement(item, "pubDate");
    var source := GetChildElement(item, "source");
    var title := GetChildElement(item, "title");
    var link := GetChildElement(item, "link");
    var valueOfDate: string;
    var valueOfSource: string;
    var valueOfTitle: string;
    if date == -1 {
      valueOfDate := "No date available";
    } else {
      valueOfDate := item.children[date].children[0].name;
    }
    if source == -1 {
      valueOfSource := "No source available";
    } else {
      var sourceTag := item.children[source];
      valueOfSource := "<a href =" + sourceTag.attrs["url"] + ">"
                       + item.children[source].children[0].name + "</a>";
    }
    if title == -1 {
      valueOfTitle := "No description available";
    } else {
      if link == -1 {
        valueOfTitle := item.children[title].children[0].name;
      } else {
        var linkTag := item.children[link];
        valueOfTitle := "<a href =" + linkTag.children[0].name + ">"
                        + item.children[title].children[0].name + "</a>";
      }
    }
    ghost var before := out.content;
    out.Println("<tr>");
    out.Println("   <td>" + valueOfDate + "</td>");
    out.Println("   <td>" + valueOfSource + "</td>");
    out.Println("   <td>" + valueOfTitle + "</td>");
    out.Println("</tr>");
    RowLinesAppended(before, valueOfDate, valueOfSource, valueOfTitle);
  }

  // ---------------------------------------------------------------------
  // The whole page
  // ---------------------------------------------------------------------

  /** The children labelled `item`, in document order. */
  function Items(children: seq<Node>): (r: seq<Node>)
    ensures |r| <= |children|
    ensures forall j | 0 <= j < |r| :: r[j].name == "item"
    decreases |children|
  {
    if |children| == 0 then []
    else
      var last := children[|children| - 1];
      Items(children[..|children| - 1]) + (if last.name == "item" then [last] else [])
  }

  /** A node is among the items exactly when it is a child labelled `item`. */
  lemma {:induction false} ItemsMembers(children: seq<Node>, n: Node)
    ensures n in Items(children) <==> n in children && n.name == "item"
    decreases |children|
  {
    if |children| > 0 {
      var prefix := children[..|children| - 1];
      ItemsMembers(prefix, n);
      assert children == prefix + [children[|children| - 1]];
    }
  }

  /** There are as many items as positions holding a child labelled `item`. */
  lemma {:induction false} ItemsCount(children: seq<Node>)
    ensures |Items(children)| == |set k | 0 <= k < |children| && children[k].name == "item"|
    decreases |children|
  {
    var all := set k | 0 <= k < |children| && children[k].name == "item";
    if |children| == 0 {
      assert all == {};
    } else {
      var n := |children| - 1;
      var prefix := children[..n];
      ItemsCount(prefix);
      var front := set k | 0 <= k < n && prefix[k].name == "item";
      assert n !in front;
      if children[n].name == "item" {
        assert |Items(children)| == |Items(prefix)| + 1;
        assert all == front + {n};
      } else {
        assert |Items(children)| == |Items(prefix)|;
        assert all == front;
      }
    }
  }

  /** The lines of `items`, each rendered by `row`, one after another. */
  function Concat(items: seq<Node>, row: Node -> seq<string>): (r: seq<string>)
    decreases |items|
  {
    if |items| == 0 then []
    else Concat(items[..|items| - 1], row) + row(items[|items| - 1])
  }

  /** Five lines per item make five lines per item in all. */
  lemma {:induction false} ConcatLength(items: seq<Node>, row: Node -> seq<string>)
    requires forall n :: |row(n)| == 5
    ensures |Concat(items, row)| == 5 * |items|
    decreases |items|
  {
    if |items| > 0 {
      ConcatLength(items[..|items| - 1], row);
    }
  }

  /** The table rows for `children`: the row of each child labelled `item`,
      one after another; other children contribute nothing. */
  function Rows(children: seq<Node>): (r: seq<string>)
    ensures |r| == 5 * |Items(children)|
  {
    ConcatLength(Items(children), ItemRow);
    Concat(Items(children), ItemRow)
  }

  /** The page rendered for `channel`. */
  function Document(channel: Node): (r: seq<string>)
    ensures |r| == 16 + 5 * |Items(channel.children)| + 4
  {
    Header(channel) + Rows(channel.children) + FooterLines()
  }

  /** A slice of `a + b` that lies within `a` is a slice of `a`. */
  lemma SliceLeft<T>(a: seq<T>, b: seq<T>, i: int, j: int)
    requires 0 <= i <= j <= |a|
    ensures (a + b)[i..j] == a[i..j]
  {
  }

  /** Three sequences laid end to end start with the first. */
  lemma Front<T>(a: seq<T>, b: seq<T>, c: seq<T>)
    ensures (a + b + c)[..|a|] == a
  {
  }

  /** A slice of `a + b` that lies within `b` is a slice of `b`. */
  lemma SliceRight<T>(a: seq<T>, b: seq<T>, i: int, j: int)
    requires 0 <= i <= j <= |b|
    ensures (a + b)[|a| + i .. |a| + j] == b[i..j]
  {
  }

  /** With five lines per item, item `j` sits at lines `5 * j` to
      `5 * j + 5`. */
  lemma {:induction false} ConcatChunk(items: seq<Node>, row: Node -> seq<string>, j: int)
    requires forall n :: |row(n)| == 5
    requires 0 <= j < |items|
    ensures |Concat(items, row)| == 5 * |items|
    ensures Concat(items, row)[5 * j .. 5 * j + 5] == row(items[j])
    decreases |items|
  {
    var init := items[..|items| - 1];
    ConcatLength(init, row);
    ConcatLength(items, row);
    if j < |init| {
      ConcatChunk(init, row, j);
      SliceLeft(Concat(init, row), row(items[|items| - 1]), 5 * j, 5 * j + 5);
    } else {
      SliceRight(Concat(init, row), row(items[|items| - 1]), 0, 5);
    }
  }

  /** Two items give their lines in order. */
  lemma ConcatTwo(first: Node, second: Node, row: Node -> seq<string>)
    ensures Concat([first, second], row) == row(first) + row(second)
  {
    assert [first, second][..1] == [first] && [first][..0] == [];
    assert Concat([first], row) == row(first);
  }

  /** One more item appends its lines. */
  lemma ConcatSnoc(items: seq<Node>, item: Node, row: Node -> seq<string>)
    ensures Concat(items + [item], row) == Concat(items, row) + row(item)
  {
    assert (items + [item])[..|items|] == items;
  }

  /** The rows are exactly one five-line row per child labelled `item`, in
      document order. */
  lemma RowsPerItem(children: seq<Node>)
    ensures forall j | 0 <= j < |Items(children)| ::
      Rows(children)[5 * j .. 5 * j + 5] == ItemRow(Items(children)[j])
  {
    forall j | 0 <= j < |Items(children)|
      ensures Rows(children)[5 * j .. 5 * j + 5] == ItemRow(Items(children)[j])
    {
      ConcatChunk(Items(children), ItemRow, j);
    }
  }

  /** Header, item lines and footer laid end to end: after sixteen header
      lines, item `j` sits at five lines from line `16 + 5 * j`. */
  lemma {:induction false} PageChunk(header: seq<string>, items: seq<Node>, row: Node -> seq<string>,
                                     footer: seq<string>, j: int)
    requires |header| == 16
    requires forall n :: |row(n)| == 5
    requires 0 <= j < |items|
    ensures |header + Concat(items, row) + footer| == 16 + 5 * |items| + |footer|
    ensures (header + Concat(items, row) + footer)[16 + 5 * j .. 16 + 5 * j + 5] == row(items[j])
  {
    var rows := Concat(items, row);
    ConcatChunk(items, row, j);
    SliceLeft(header + rows, footer, 16 + 5 * j, 16 + 5 * j + 5);
    SliceRight(header, rows, 5 * j, 5 * j + 5);
  }

  /** The page opens with the header. */
  lemma PageStartsWithHeader(channel: Node)
    ensures Document(channel)[..16] == Header(channel)
  {
    Front(Header(channel), Rows(channel.children), FooterLines());
  }

  /** The page closes with the footer. */
  lemma PageEndsWithFooter(channel: Node)
    ensures Document(channel)[|Document(channel)| - 4..] ==
      FooterLines()
  {
    var front := Header(channel) + Rows(channel.children);
    SliceRight(front, FooterLines(), 0, 4);
  }

  /** Between header and footer, the page holds one five-line row per child
      labelled `item`, in document order. */
  lemma PageRows(channel: Node)
    ensures forall j | 0 <= j < |Items(channel.children)| ::
      Document(channel)[16 + 5 * j .. 16 + 5 * j + 5] == ItemRow(Items(channel.children)[j])
  {
    forall j | 0 <= j < |Items(channel.children)|
      ensures Document(channel)[16 + 5 * j .. 16 + 5 * j + 5] == ItemRow(Items(channel.children)[j])
    {
      PageChunk(Header(channel), Items(channel.children), ItemRow, FooterLines(), j);
    }
  }

  /** The page is the header, then exactly one five-line row per child
      labelled `item`, in document order, then the footer. */
  lemma PageLayout(channel: Node)
    ensures Document(channel)[..16] == Header(channel)
    ensures forall j | 0 <= j < |Items(channel.children)| ::
      Document(channel)[16 + 5 * j .. 16 + 5 * j + 5] == ItemRow(Items(channel.children)[j])
    ensures Document(channel)[|Document(channel)| - 4..] ==
      FooterLines()
  {
    PageStartsWithHeader(channel);
    PageRows(channel);
    PageEndsWithFooter(channel);
  }

  /** Every child labelled `item` can be rendered as a row. */
  predicate ItemsRenderable(children: seq<Node>) {
    forall k | 0 <= k < |children| && children[k].name == "item" :: RowReady(children[k])
  }

  /** Every child that gets a row can be rendered as a row. */
  predicate ItemsReady(children: seq<Node>) {
    forall j | 0 <= j < |Items(children)| :: RowReady(Items(children)[j])
  }

  /** Renderable children have renderable items. */
  lemma {:induction false} ItemsOfRenderable(children: seq<Node>)
    ensures ItemsRenderable(children) ==> ItemsReady(children)
    decreases |children|
  {
    if |children| > 0 && ItemsRenderable(children) {
      var n := |children| - 1;
      var prefix, last := children[..n], children[n];
      forall k | 0 <= k < n && prefix[k].name == "item"
        ensures RowReady(prefix[k])
      {
        assert prefix[k] == children[k];
      }
      ItemsOfRenderable(prefix);
      var items, all := Items(prefix), Items(children);
      assert all == items + (if last.name == "item" then [last] else []);
      forall j | 0 <= j < |all|
        ensures RowReady(all[j])
      {
        if j < |items| {
          assert all[j] == items[j];
        } else {
          assert all[j] == last;
        }
      }
    }
  }

  /** Children whose items are all renderable are renderable. */
  lemma {:induction false} RenderableFromItems(children: seq<Node>)
    ensures ItemsReady(children) ==>
      ItemsRenderable(children)
    decreases |children|
  {
    if |children| > 0 && ItemsReady(children) {
      var n := |children| - 1;
      var prefix, last := children[..n], children[n];
      var items, all := Items(prefix), Items(children);
      assert all == items + (if last.name == "item" then [last] else []);
      forall j | 0 <= j < |items|
        ensures RowReady(items[j])
      {
        assert items[j] == all[j];
      }
      RenderableFromItems(prefix);
      forall k | 0 <= k < |children| && children[k].name == "item"
        ensures RowReady(children[k])
      {
        if k < n {
          assert children[k] == prefix[k];
        } else {
          assert children[k] == all[|items|];
        }
      }
    }
  }

  /** The children are renderable exactly when each of their items is. */
  lemma RenderableWhenItemsAre(children: seq<Node>)
    ensures ItemsRenderable(children) <==> ItemsReady(children)
  {
    ItemsOfRenderable(children);
    RenderableFromItems(children);
  }

  /** A renderable child labelled `item` meets what its row needs. */
  lemma RenderableItem(children: seq<Node>, i: int)
    requires ItemsRenderable(children)
    requires 0 <= i < |children| && children[i].name == "item"
    ensures RowReady(children[i])
  {
  }

  /** What the page needs of the channel. */
  predicate ChannelRenderable(channel: Node) {
    HeaderFields(channel) && ItemsRenderable(channel.children)
  }

  /** Rendering one more child appends its lines if it is an item, and
      nothing otherwise. */
  lemma ItemsSnoc(children: seq<Node>, i: int, row: Node -> seq<string>)
    requires 0 <= i < |children|
    ensures Concat(Items(children[..i + 1]), row) ==
      Concat(Items(children[..i]), row) + (if children[i].name == "item" then row(children[i]) else [])
  {
    assert children[..i + 1][..i] == children[..i];
    if children[i].name == "item" {
      assert Items(children[..i + 1]) == Items(children[..i]) + [children[i]];
      ConcatSnoc(Items(children[..i]), children[i], row);
    } else {
      assert Items(children[..i + 1]) == Items(children[..i]);
    }
  }

  /** A child labelled `item` adds its row to the rows; any other child
      adds nothing. */
  lemma RowsSnoc(children: seq<Node>, i: int)
    requires 0 <= i < |children|
    ensures children[i].name == "item" ==> Rows(children[..i + 1]) == Rows(children[..i]) + ItemRow(children[i])
    ensures children[i].name != "item" ==> Rows(children[..i + 1]) == Rows(children[..i])
  {
    ItemsSnoc(children, i, ItemRow);
  }

  /** One step of the render loop: the lines written so far, followed by the
      row of child `i` when it is labelled `item`, are the lines of the
      first `i + 1` children. */
  lemma LoopStep(before: seq<string>, children: seq<Node>, i: int)
    requires 0 <= i < |children|
    ensures children[i].name == "item" ==>
      before + Rows(children[..i]) + ItemRow(children[i]) == before + Rows(children[..i + 1])
    ensures children[i].name != "item" ==>
      before + Rows(children[..i]) == before + Rows(children[..i + 1])
  {
    RowsSnoc(children, i);
    AppendAssoc(before, Rows(children[..i]), ItemRow(children[i]));
  }

  lemma AppendAssoc<T>(a: seq<T>, b: seq<T>, c: seq<T>)
    ensures a + b + c == a + (b + c)
  {
  }

  /** Header, rows and footer appended one after another make the page. */
  lemma DocumentAppended(before: seq<string>, channel: Node)
    ensures before + Header(channel) + Rows(channel.children) + FooterLines() == before + Document(channel)
  {
  }

  /** The item loop of the program: the row of each child of `channel`
      labelled `item`, in document order; other children print nothing. */
  method OutputItems(channel: Node, out: Writer)
    requires ItemsRenderable(channel.children)
    modifies out
    ensures out.content == old(out.content) + Rows(channel.children)
  {
    var numOfItem := |channel.children|;
    for i := 0 to numOfItem
      invariant out.content == old(out.content) + Rows(channel.children[..i])
    {
      LoopStep(old(out.content), channel.children, i);
      var child := channel.children[i];
      if child.name == "item" {
        RenderableItem(channel.children, i);
        ProcessItem(channel.children[i], out);
      }
    }
    assert channel.children[..numOfItem] == channel.children;
  }

  /** The render sequence of the program: the channel is the first child of
      the document root; the header, then a row for each child labelled
      `item`, then the footer. */
  method Render(xml: Node, out: Writer)
    requires |xml.children| > 0
    requires ChannelRenderable(xml.children[0])
    modifies out
    ensures out.content == old(out.content) + Document(xml.children[0])
  {
    var channel := xml.children[0];
    OutputHeader(channel, out);
    OutputItems(channel, out);
    OutputFooter(out);
    DocumentAppended(old(out.content), channel);
  }
}
