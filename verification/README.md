# RSS aggregator page renderer

A model of the rendering core of `RSSAggregater`. The program reads one RSS 2.0
feed, already parsed into a labelled XML tree, and writes an HTML page to a
writer. The page has three parts:

- a header built from the channel's title, link and description;
- one table row for every `item` child of the channel, in document order,
  holding the date, source and news cells with their fallbacks;
- a footer.

Files:

- `XmlTree.dfy` holds the tree: `Node` has a label, whether it is a tag, its
  attributes and its ordered children. The text of an element is the label of
  its first child.
- `SimpleWriter.dfy` holds the output stream. `Writer` is a class whose
  `content` is the sequence of lines printed so far; `Println` appends one line.
- `RssAggregater.dfy` holds the renderer. Each operation is modelled twice:
  - as a method that follows the program statement by statement and appends to
    the writer;
  - as a total function that says which lines the method appends.

  The methods' postconditions tie the two together. The lemmas state what the
  page looks like. The item loop of `main` is the method `OutputItems`.
  `Render` calls it between the header and the footer.
- `Scenario.dfy` works through a small channel with one full item and one
  item that has only a title.

The program's guards are kept as they are written:

- The header reads the child at the index the lookup returns, with no check.
  A channel without a title, link or description therefore faults. So
  `OutputHeader` and `Render` require those elements (`HeaderFields`); the
  model does not turn their absence into an error value.
- Reading an element's text needs a first child. Reading a source's URL needs
  a `url` attribute. The methods require both only where the program reads
  them (`ItemFields`, `RowReady`). In particular, an item's link is read only
  when the item has a title. So an item with no title may have a link
  without text: `<item><link/></item>` renders the three fallback cells.
- Where the program would fault, the total functions give the empty string
  instead. Under the methods' preconditions that case never arises.
- The lookup's documentation promises -1 whenever no child matches. The code
  reads the first child before comparing the index with the number of
  children, so it faults on a tag that has no children. The model follows the
  code; see "## Findings".
- The header's anchor is written `<a href=`, while the item anchors are
  written `<a href =`. Leading spaces are kept exactly as printed.

## Model

| member | source | states |
|---|---|---|
| RSSAggregater.ChildIndex | RSSAggregater/src/RSSAggregater.java:112-143 | The result lies in -1 up to the number of children. It is -1 exactly when no child carries the tag. Otherwise it is the index of the first child with that tag. |
| RSSAggregater.GetChildElement | RSSAggregater/src/RSSAggregater.java:129-143 | The linear search returns the first matching index, or -1 when no child matches. Its result always equals `ChildIndex`. It requires a tag with at least one child, because the loop reads child 0 before its bound check. |
| RSSAggregater.EmptyTagLookup | RSSAggregater/src/RSSAggregater.java:134-141 | An empty `item` tag has no children and no child with the tag. The documented answer, `ChildIndex`, is -1 for it. |
| RSSAggregater.FirstText | RSSAggregater/src/RSSAggregater.java:70-78 | It is the text (first child's label) of the first child carrying the tag. |
| RSSAggregater.Header | RSSAggregater/src/RSSAggregater.java:58-85 | The header has exactly 16 lines, with every constant line in place. The first title child's text is in the page title (line 2) and is the text of the heading anchor (line 6). The first link child's text is that anchor's target. The first description child's text is in the paragraph (line 8). The column headers are Date, Source and News in that order (lines 12-14). |
| RSSAggregater.OutputHeader | RSSAggregater/src/RSSAggregater.java:48-87 | For a `channel` tag with readable title, link and description, the writer's content becomes the old content followed by `Header(channel)`. Nothing else changes. |
| RSSAggregater.FooterLines | RSSAggregater/src/RSSAggregater.java:106-109 | The footer has four lines: `  </tbody>`, ` </table>`, `</body>`, `</html>`. |
| RSSAggregater.OutputFooter | RSSAggregater/src/RSSAggregater.java:102-110 | The writer's content becomes the old content followed by exactly the four footer lines. |
| RSSAggregater.DateText | RSSAggregater/src/RSSAggregater.java:176-180 | Without a pubDate child the cell is "No date available". Otherwise it is the first pubDate's text. |
| RSSAggregater.SourceText | RSSAggregater/src/RSSAggregater.java:181-187 | Without a source child the cell is "No source available". Otherwise it is an anchor `<a href =` to the first source's `url` attribute, around that source's text. |
| RSSAggregater.TitleText | RSSAggregater/src/RSSAggregater.java:188-199 | Without a title the cell is "No description available", whether or not a link exists. With a title but no link it is the title's text. With both it is an anchor `<a href =` to the first link's text, around the first title's text. |
| RSSAggregater.ItemRow | RSSAggregater/src/RSSAggregater.java:200-204 | The row has five lines: `<tr>`, then the date, source and news cells in that order, each as `   <td>…</td>`, then `</tr>`. |
| RSSAggregater.ProcessItem | RSSAggregater/src/RSSAggregater.java:162-206 | The item must be an `item` tag whose fields are readable where the code reads them: a first pubDate, source or title needs a text, and the source needs a `url`. A link needs a text only when a title exists. Given that, the writer's content becomes the old content followed by `ItemRow(item)`. |
| RSSAggregater.Items | RSSAggregater/src/RSSAggregater.java:271-276 | The children that get a row are at most all the children, and every one of them is labelled `item`. |
| RSSAggregater.ItemsCount | RSSAggregater/src/RSSAggregater.java:271-276 | There are exactly as many items as positions holding a child labelled `item`. |
| RSSAggregater.ItemsMembers | RSSAggregater/src/RSSAggregater.java:271-276 | A node gets a row exactly when it is a child labelled `item`. This holds in both directions. |
| RSSAggregater.Rows | RSSAggregater/src/RSSAggregater.java:270-276 | The item lines of the page number five per child labelled `item`. |
| RSSAggregater.Document | RSSAggregater/src/RSSAggregater.java:270-277 | The page has 16 + 5·(number of items) + 4 lines. |
| RSSAggregater.RowsPerItem | RSSAggregater/src/RSSAggregater.java:271-276 | The `j`-th five-line block of the rows is the row of the `j`-th child labelled `item`, so the rows follow document order. |
| RSSAggregater.PageStartsWithHeader | RSSAggregater/src/RSSAggregater.java:270 | The page's first 16 lines are the header. |
| RSSAggregater.PageRows | RSSAggregater/src/RSSAggregater.java:271-276 | The item rows come after the header: the `j`-th item's row sits at lines 16+5j up to 16+5j+5. |
| RSSAggregater.PageEndsWithFooter | RSSAggregater/src/RSSAggregater.java:277 | The page's last four lines are the footer lines. |
| RSSAggregater.PageLayout | RSSAggregater/src/RSSAggregater.java:268-277 | The page is the header, then one row per item in document order, then the footer. |
| RSSAggregater.ItemsOfRenderable | RSSAggregater/src/RSSAggregater.java:271-275 | If every child labelled `item` can be rendered, then every element of `Items` can be. |
| RSSAggregater.RenderableFromItems | RSSAggregater/src/RSSAggregater.java:271-275 | The converse: if every element of `Items` can be rendered, then so can every child labelled `item`. |
| RSSAggregater.RenderableWhenItemsAre | RSSAggregater/src/RSSAggregater.java:271-275 | The channel's children are renderable exactly when each of their items is. |
| RSSAggregater.RenderableItem | RSSAggregater/src/RSSAggregater.java:273-275 | A child labelled `item` in renderable children meets `ProcessItem`'s precondition. |
| RSSAggregater.RowsSnoc | RSSAggregater/src/RSSAggregater.java:271-276 | Visiting one more child appends that child's row if it is labelled `item`, and nothing otherwise. |
| RSSAggregater.LoopStep | RSSAggregater/src/RSSAggregater.java:271-276 | One loop step: the lines written for the first `i` children, followed by child `i`'s row when it is an item, are the lines for the first `i + 1` children. |
| RSSAggregater.OutputItems | RSSAggregater/src/RSSAggregater.java:271-276 | When every child labelled `item` can be rendered, the loop appends `Rows(channel.children)`: each item's row in document order and nothing for other children. |
| RSSAggregater.DocumentAppended | RSSAggregater/src/RSSAggregater.java:270-277 | Appending the header, the rows and the footer one after another appends the page. |
| RSSAggregater.Render | RSSAggregater/src/RSSAggregater.java:268-277 | The channel is the root's first child. The writer's content becomes the old content followed by `Document(channel)`: header, item rows, footer. |
| Scenario.LinkOnlyRow | RSSAggregater/src/RSSAggregater.java:188-189 | An item whose only child is an empty link can be rendered. Its row holds the date, source and description fallbacks, because the link is never read without a title. |
| Scenario.FullItemRow | RSSAggregater/src/RSSAggregater.java:176-204 | An item with pubDate, source (with url), title and link renders its date, a source anchor and a title anchor to the link. |
| Scenario.TitleOnlyRow | RSSAggregater/src/RSSAggregater.java:176-204 | An item with only a title renders the date and source fallbacks and the plain title. |
| Scenario.SampleItemsReady | RSSAggregater/src/RSSAggregater.java:162-175 | Both sample items meet `ProcessItem`'s precondition. |
| Scenario.SampleHeaderFields | RSSAggregater/src/RSSAggregater.java:48-66 | The sample channel meets `OutputHeader`'s precondition. |
| Scenario.SampleItems | RSSAggregater/src/RSSAggregater.java:271-276 | Of the sample channel's five children, only the two items, in order, get rows. |
| Scenario.SampleItemsRenderable | RSSAggregater/src/RSSAggregater.java:271-276 | Every item of the sample channel can be rendered. |
| Scenario.TwoItemRows | RSSAggregater/src/RSSAggregater.java:268-277 | The sample channel can be rendered, and its rows are the full item's row followed by the title-only item's row. |

## Left out

- Reading the feed's URL from the console (lines 256-257) is not modelled. That input arrives as the already-parsed tree passed to `Render`.
- Opening and closing the reader and writers (lines 253-255, 281-282) is left out. The writer is modelled only as the sequence of lines it has received.
- Fetching and parsing the feed (`new XMLTree1`, line 258) is left out. The XML tree component is not part of this model, and the tree is taken as given.
- The `processFeed` stub (lines 225-244) is left out. `main` never calls it, and it works on a separately opened file.
- The RSS version check and the commented-out code after the class are not modelled, because they are comments.
- The `null` assertions and the `out.isOpen()` assertions are not modelled. Dafny values are never null, and the writer is always open in the model.
- The `channel` and `item` label assertions become parts of the preconditions: `HeaderFields` and `ItemFields`.
- The implementation of `SimpleWriter`, whose lines become a file, is not part of this model.
- Integer width is not modelled. Child indices are unbounded, so an index overflow cannot occur in the model.

## Findings

| source | as written | input that shows it | evidently intended | confidence | as-written member | corrected member |
|---|---|---|---|---|---|---|
| RSSAggregater/src/RSSAggregater.java:134-141 | The loop reads `xml.child(i)` before comparing `i` with the number of children. | An element tag with no children, such as an empty `<item/>`: `child(0)` does not exist. | Return -1 when no child carries the tag, as the method's comment promises. | not executed; medium | RSSAggregater.GetChildElement (requires a child), with RSSAggregater.EmptyTagLookup | RSSAggregater.ChildIndex |
