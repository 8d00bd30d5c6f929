# Notion blog content pipeline, in Dafny

This project models the content pipeline of a personal blog front end whose
posts live in a Notion database. The pipeline has three parts, each proved
against a specification:

- **Block renderer** (`NotionBlocks`, `ListGrouping`): turns an ordered
  sequence of Notion blocks into a markup tree. The tree is the datatype
  `Node`. It keeps the element kinds and their children, together with the
  attributes the renderer sets: a paragraph's `lang`, a link's `href`, an
  image's `src` and `alt`, and the caption text.
  - `RichText` styles one span. A non-empty link wins over every flag.
    Otherwise the wrappers are applied bold-first, code-last.
  - `detectLanguage` tags a paragraph `ja` or `en`.
  - `renderBlock` dispatches on the block type.
  - `renderBlocks` makes one pass that groups maximal runs of same-kind list
    items into one `<ul>` or `<ol>`. Its specification is run based:
    - `Groups` cuts the blocks into maximal runs.
    - `IsRunDecomposition` characterises such a cut on its own terms.
    - `DecompositionUnique` proves that the cut is unique.
    - The method `RenderBlocks` keeps the source's buffer, pending list and
      current kind. It is proved to produce `Render(blocks)`.
- **Property normalisation and query post-processing** (`Notion`):
  - `getPropertyValue` is total and falls back to a default.
  - Also modelled: the filter/project step of `getPages` and the
    first-result rule of `getPage`, with their error outcomes.
- **List view loader** (`Home`): one row per page. The slug becomes the link
  target and every `-` in the date becomes `.`. A failure becomes a
  status-500 response.

Details of the source that the model keeps:
- Every handled non-list block is wrapped in a `<div>`; list containers are
  not.
- The page title is read from the property named `Page`.
- A figure caption is shown when the caption list is non-empty, whether or
  not its text is empty. It shows the spans' plain text joined together.
- A link target that is the empty string is falsy, so such a span is styled
  like an unlinked one.
- An unsupported block produces no output but still closes a pending list.
- Only `getPages` wraps a rejected query as "Failed to fetch contents from
  Notion". In `getPage`, the client's own error propagates, both from the
  query and from the child-block listing.

## Model

| member | source | states |
|---|---|---|
| `NotionBlocks.Block.ListKindOf` | app/libs/components/ui/NotionBlocks.tsx:131-136 | a block is a bulleted list item exactly when its kind is Bulleted, a numbered one exactly when Numbered |
| `NotionBlocks.RichText` | app/libs/components/ui/NotionBlocks.tsx:234-272 | the step-by-step rebinding of the span's content produces the specified rendering `RenderRichText` |
| `NotionBlocks.LinkIgnoresAnnotations` | app/libs/components/ui/NotionBlocks.tsx:239-249 | a span with a non-empty href renders as a link around its plain text, and changing its flags changes nothing |
| `NotionBlocks.StylesInOrder` | app/libs/components/ui/NotionBlocks.tsx:251-271 | wrapping in the requested styles is the same as applying the five flags one after another, bold first and code last, each wrapping only when its flag is set |
| `NotionBlocks.StylesSorted` | app/libs/components/ui/NotionBlocks.tsx:251-271 | the requested styles are strictly ordered by nesting rank, so no wrapper appears twice |
| `NotionBlocks.StyleNesting` | app/libs/components/ui/NotionBlocks.tsx:251-271 | without a link, the wrappers around the bare text are exactly the set flags, strictly ordered bold < italic < strikethrough < underline < code from the inside out |
| `NotionBlocks.PlainSpanIsBareText` | app/libs/components/ui/NotionBlocks.tsx:237-271 | a span with no link and no flags renders as its bare text |
| `NotionBlocks.RichTextKeepsText` | app/libs/components/ui/NotionBlocks.tsx:237-271 | the visible text of a rendered span is always its plain text |
| `NotionBlocks.ContainsJapanese` | app/libs/components/ui/NotionBlocks.tsx:277 | the scan is true exactly when some character lies in one of the four Japanese code-point ranges |
| `NotionBlocks.DetectLanguage` | app/libs/components/ui/NotionBlocks.tsx:274-278 | the result is "ja" or "en", and "ja" exactly when the joined plain text holds a Japanese code point |
| `NotionBlocks.AsciiIsEnglish` | app/libs/components/ui/NotionBlocks.tsx:277 | text made only of ASCII characters is classified "en" |
| `NotionBlocks.DetectLanguageSplit` | app/libs/components/ui/NotionBlocks.tsx:276-277 | the spans are "ja" exactly when either part of them is, whatever surrounds the Japanese character |
| `NotionBlocks.RenderBlock` | app/libs/components/ui/NotionBlocks.tsx:13-123 | only unsupported types give no node; each supported type has its own element, exactly: heading_1, heading_2 and heading_3 give `h1`, `h2` and `h3`, list items `li`, code `pre`, image `figure` and quote `blockquote`; list items give one child per span; images use the URL of their source variant, take as alt text the joined caption text (or ""), and carry a caption exactly when the caption list exists and is non-empty, its text being the joined plain text of the caption spans |
| `NotionBlocks.CodeIgnoresStyling` | app/libs/components/ui/NotionBlocks.tsx:69-79 | a code block shows the joined plain text, so spans that differ only in links and flags render the same |
| `NotionBlocks.ParagraphLanguage` | app/libs/components/ui/NotionBlocks.tsx:15-22 | exactly the paragraph renders as `p`, and its language tag is computed from its own spans |
| `NotionBlocks.TextBlockChildren` | app/libs/components/ui/NotionBlocks.tsx:15-67 | text-bearing blocks render one child per span, each the span's `RichText` rendering, in order; a block with no spans renders with no children |
| `NotionBlocks.ImageSource` | app/libs/components/ui/NotionBlocks.tsx:81-90 | an image's `src` is its external URL for an external image and its file URL for an uploaded one |
| `ListGrouping.RunLength` | app/libs/components/ui/NotionBlocks.tsx:135-162 | the leading run of same-kind list items is as long as possible: all of it has kind k and the next block does not |
| `ListGrouping.Groups` | app/libs/components/ui/NotionBlocks.tsx:130-184 | every group of the cut is well formed: runs are non-empty and homogeneous, single blocks are not list items |
| `ListGrouping.GroupsDecompose` | app/libs/components/ui/NotionBlocks.tsx:130-218 | the cut covers the input in order, and no two neighbouring runs share a kind |
| `ListGrouping.DecompositionUnique` | app/libs/components/ui/NotionBlocks.tsx:135-162 | any cut into maximal homogeneous runs equals `Groups`, so the grouping is determined by the input alone |
| `ListGrouping.GroupsSnoc` | app/libs/components/ui/NotionBlocks.tsx:130-217 | one more block either extends the trailing run of its kind or opens a new group |
| `ListGrouping.ListContainer` | app/libs/components/ui/NotionBlocks.tsx:139-156 | a flushed container is `ul` exactly when the pending kind is bulleted and `ol` otherwise, and it holds the pending items unchanged |
| `ListGrouping.RenderItems` | app/libs/components/ui/NotionBlocks.tsx:162 | the pending list holds one `li` per list item, in order |
| `ListGrouping.ListItemStep` | app/libs/components/ui/NotionBlocks.tsx:135-162 | a list item flushes pending items of another kind into a container of the previous kind, then joins the pending list |
| `ListGrouping.JoinRun` | app/libs/components/ui/NotionBlocks.tsx:160-162 | a list item of the pending kind only joins the pending list; the output buffer is unchanged |
| `ListGrouping.StartRun` | app/libs/components/ui/NotionBlocks.tsx:138-162 | any other list item flushes the pending items, if there are any, into one container, then opens a new pending list holding just its own `li` |
| `ListGrouping.OtherBlockStep` | app/libs/components/ui/NotionBlocks.tsx:185-216 | a non-list block flushes pending items, resets the kind, then appends its own `div` if it renders |
| `ListGrouping.FinalFlush` | app/libs/components/ui/NotionBlocks.tsx:164-184 | when the last block is a list item, the pending list is emitted and the whole input is rendered |
| `ListGrouping.RenderBlocks` | app/libs/components/ui/NotionBlocks.tsx:125-221 | the single pass returns exactly `Render(blocks)`, the rendering of the maximal-run cut |
| `ListGrouping.RenderSplit` | app/libs/components/ui/NotionBlocks.tsx:130-218 | output order follows input order: the rendering of two sequences joined at a seam that is not two same-kind list items is the two renderings concatenated |
| `ListGrouping.SameKindRunIsOneContainer` | app/libs/components/ui/NotionBlocks.tsx:135-162 | consecutive list items of one kind give exactly one container holding all their `li`s in order |
| `ListGrouping.KindChangeSplits` | app/libs/components/ui/NotionBlocks.tsx:138-159 | a change of kind gives two containers, each holding only the items of its own kind |
| `ListGrouping.NonListBlockSeparates` | app/libs/components/ui/NotionBlocks.tsx:185-216 | a non-list block cuts the rendering in three: what precedes it, its own `div` (or nothing), and what follows |
| `ListGrouping.UnsupportedBlockDropped` | app/libs/components/ui/NotionBlocks.tsx:120-121 | an unsupported block produces no node, but the lists on either side of it stay separate |
| `ListGrouping.RenderCounts` | app/libs/components/ui/NotionBlocks.tsx:126-220 | the containers hold one `li` per list-item block in all, every handled non-list block gives one `div`, and every container entry is an `li` |
| `ListGrouping.PlainParagraphRenders` | app/libs/components/ui/NotionBlocks.tsx:15-22 | an unstyled ASCII paragraph renders as one `div` around an "en" paragraph holding its text |
| `ListGrouping.ListsExample` | app/libs/components/ui/NotionBlocks.tsx:135-184 | two bulleted items and then one numbered item give one `ul` with two entries, then one `ol` with one entry |
| `ListGrouping.MixedDocumentExample` | app/libs/components/ui/NotionBlocks.tsx:125-221 | heading, paragraph, two bulleted, one numbered, paragraph become div(h1), div(p), ul with two li, ol with one li, div(p) |
| `Notion.FirstPlainText` | app/libs/notion.ts:43 | optional chaining gives the first element's plain text exactly when the list exists and is non-empty |
| `Notion.OrDefault` | app/libs/notion.ts:43-47 | a missing or empty string falls back to the default; a non-empty one is kept |
| `Notion.TagNames` | app/libs/notion.ts:49 | one name per selected option, in the original order |
| `Notion.GetPropertyValue` | app/libs/notion.ts:34-53 | an absent property or one of another type gives the default; string kinds with a string default give a string, multi-select with a list default gives a list; any non-default string is non-empty |
| `Notion.FirstTextWins` | app/libs/notion.ts:42-45 | title and rich text give the first element's text, or the default when the list is missing, empty, or that text is empty |
| `Notion.DateStartOrDefault` | app/libs/notion.ts:46-47 | a date gives its start, or the default when the date is missing or its start is empty |
| `Notion.MultiSelectIgnoresDefault` | app/libs/notion.ts:48-49 | multi-select gives the tag names in order, `[]` when the list is missing, and never depends on the caller's default |
| `Notion.Title` | app/libs/notion.ts:109 | the title is the first plain text of the title property "Page" when that text exists and is non-empty, and "Untitled" otherwise, including when "Page" is absent or of another type |
| `Notion.Date` | app/libs/notion.ts:111 | the date is the start of the date property "Date" when it carries a date, and "" otherwise, including when "Date" is absent or of another type |
| `Notion.ToPage` | app/libs/notion.ts:104-113 | a summary keeps the page id and takes `Title` and `Date`; the slug is the first plain text of the rich-text property "Slug", or "" when there is none; the tags are the option names of the multi-select property "Tags" in order, or `[]` when it is absent, of another type, or has no list |
| `Notion.ProjectPages` | app/libs/notion.ts:102-114 | exactly one page per result with properties, each with a non-empty title |
| `Notion.ProjectPagesAppend` | app/libs/notion.ts:102-103 | filtering and projecting keep query order: the projection of a concatenation is the concatenation of projections |
| `Notion.ProjectAllFull` | app/libs/notion.ts:102-114 | when all results have properties, page i is the summary of result i |
| `Notion.PartialPagesDropped` | app/libs/notion.ts:103 | a result without properties contributes nothing, wherever it stands |
| `Notion.GetPages` | app/libs/notion.ts:71-115 | a missing or empty database id fails first with "Database ID is not set"; a rejected query fails with "Failed to fetch contents from Notion"; otherwise exactly the projected pages: one titled summary per result that has properties, in query order |
| `Notion.GetPage` | app/libs/notion.ts:117-164 | the database-id check comes first, then the query's client error, "Page not found" for no results, "Invalid page data" when the first result lacks properties, and the listing's client error when the child blocks cannot be listed; success holds exactly when the first result is full and the blocks were listed, and then gives its title and date and the child blocks unchanged |
| `Notion.GetPageUsesFirstResultOnly` | app/libs/notion.ts:145-152 | results after the first never change the outcome of `getPage` |
| `Home.ReplaceDashes` | app/routes/home.tsx:17 | the length is preserved, each `-` becomes `.`, and every other character is unchanged |
| `Home.ReplaceDashesNormalises` | app/routes/home.tsx:17 | no `-` remains, and rewriting again changes nothing |
| `Home.ReplaceDashesAppend` | app/routes/home.tsx:17 | the rewrite works piece by piece: rewriting a concatenation is concatenating the rewrites |
| `Home.ReplaceDashesOnDate` | app/routes/home.tsx:17 | a date `year-month-day` whose parts hold no hyphen becomes `year.month.day` |
| `Home.ToRow` | app/routes/home.tsx:14-18 | href is the slug, title and tags pass through, and the date is rewritten |
| `Home.ToRows` | app/routes/home.tsx:14-19 | exactly one row per page, in the same order |
| `Home.Loader` | app/routes/home.tsx:10-28 | the loader answers a status-500 "Failed to load contents" response exactly when `getPages` fails; otherwise it gives one correctly projected row per page, never partial data |

## Left out

- Network calls and client construction are not modelled: the Notion client, the database query and the child-block listing (app/libs/notion.ts:65-69, 79-98, 125-143, 155-157). Their outcomes are parameters, a `Success` with the results or a `Failure` with the client's error message. The `slug` argument of `getPage` only feeds the query filter, so it does not appear.
- `getEnvironmentVariable` (app/libs/notion.ts:55-63) reads ambient process state. The database id arrives already resolved, as an `Option<string>`. The API key is only used by the client.
- `console.log` and `console.error` output, and the async sequencing of the calls, are not modelled.
- Presentation is not modelled: class names, `data-oid` attributes and React keys. The React keys include the duplicate `list-<index>` key that a kind-change flush and the final flush share when the last block is a list item of a new kind. Also left out are the outer `notion-content` container (NotionBlocks.tsx:223-227) and the JSX body of the list view (home.tsx:30-95).
- `RichText`'s guard against a missing span (NotionBlocks.tsx:235) is not modelled: spans are never null in this model. A partial block object without a type is modelled as `Unsupported`, which is also what the source does with it.
- Text is `seq<char>`. All ranges tested by `detectLanguage` are in the Basic Multilingual Plane, so UTF-16 surrogate pairs and regular-expression semantics play no part.
- The page loader in app/routes/$slug.tsx, which maps any failure to 404, is not part of this model. Neither are the presentational components IconLink, SiteNavigation and CardContainer, nor the route table.
