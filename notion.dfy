/** Content fetch and normalisation (app/libs/notion.ts): the extraction of
    a page property with a fallback default (`getPropertyValue`), and what
    `getPages` and `getPage` do with the answers of the Notion API. The
    database query and the child-block listing are not performed here: their
    outcomes are parameters, a `Failure` carrying the client's error message.
    The database id arrives already resolved from the environment. */
module Notion {
  import opened Wrappers
  import NotionBlocks

  // ---------------------------------------------------------------------
  // Page properties
  // ---------------------------------------------------------------------

  /** An element of a title or rich-text property; only its plain text is read. */
  datatype PlainTextItem = PlainTextItem(plainText: string)

  datatype DateValue = DateValue(start: string)

  datatype SelectOption = SelectOption(name: string)

  /** The four property types the pages are read with. */
  datatype PropertyType = TitleType | RichTextType | DateType | MultiSelectType

  /** A page property as the API returns it. A list or date the API leaves
      out is `None`; every property type not listed is `OtherProperty`. */
  datatype Property =
    | TitleProperty(title: Option<seq<PlainTextItem>>)
    | RichTextProperty(richText: Option<seq<PlainTextItem>>)
    | DateProperty(date: Option<DateValue>)
    | MultiSelectProperty(multiSelect: Option<seq<SelectOption>>)
    | OtherProperty(typeName: string)
  {
    function Type(): Option<PropertyType>
    {
      match this
      case TitleProperty(_) => Some(TitleType)
      case RichTextProperty(_) => Some(RichTextType)
      case DateProperty(_) => Some(DateType)
      case MultiSelectProperty(_) => Some(MultiSelectType)
      case OtherProperty(_) => None
    }
  }

  /** `getPropertyValue` answers a string or a list of strings. */
  datatype PropertyValue = Str(str: string) | Strs(strs: seq<string>)

  /** `items?.[0]?.plain_text`: the first element's text, if there is one. */
  function FirstPlainText(items: Option<seq<PlainTextItem>>): (r: Option<string>)
    ensures r.Some? <==> items.Some? && |items.value| > 0
    ensures r.Some? ==> r.value == items.value[0].plainText
  {
    if items.Some? && |items.value| > 0 then Some(items.value[0].plainText) else None
  }

  /** `s || defaultValue`: a missing or empty string falls back to the default. */
  function OrDefault(s: Option<string>, defaultValue: PropertyValue): (r: PropertyValue)
    ensures r == defaultValue || (s.Some? && s.value != "" && r == Str(s.value))
    ensures s.Some? && s.value != "" ==> r == Str(s.value)
  {
    if s.Some? && s.value != "" then Str(s.value) else defaultValue
  }

  /** The names of the selected tags, in order. */
  function TagNames(options: seq<SelectOption>): (names: seq<string>)
    ensures |names| == |options|
    ensures forall i :: 0 <= i < |options| ==> names[i] == options[i].name
  {
    if options == [] then [] else [options[0].name] + TagNames(options[1..])
  }

  /** `getPropertyValue`: the value of a property read as `kind`, or the
      caller's default when the property is absent, of another type, or
      carries no usable value; it never fails. */
  function GetPropertyValue(property: Option<Property>, kind: PropertyType,
                            defaultValue: PropertyValue := Str("")): (r: PropertyValue)
    ensures property.None? || property.value.Type() != Some(kind) ==> r == defaultValue
    ensures kind != MultiSelectType && defaultValue.Str? ==> r.Str?
    ensures kind == MultiSelectType && defaultValue.Strs? ==> r.Strs?
    ensures r != defaultValue ==> property.Some? && property.value.Type() == Some(kind)
    ensures r != defaultValue && r.Str? ==> r.str != ""
  {
    if property.None? || property.value.Type() != Some(kind) then defaultValue
    else
      var p := property.value;
      match kind
      case TitleType => OrDefault(FirstPlainText(p.title), defaultValue)
      case RichTextType => OrDefault(FirstPlainText(p.richText), defaultValue)
      case DateType => OrDefault(if p.date.Some? then Some(p.date.value.start) else None, defaultValue)
      case MultiSelectType => if p.multiSelect.Some? then Strs(TagNames(p.multiSelect.value)) else Strs([])
  }

  /** A title or rich-text property yields the first element's plain text,
      and the default when the list is missing or empty or that text is empty;
      later elements are never consulted. */
  lemma FirstTextWins(items: Option<seq<PlainTextItem>>, defaultValue: PropertyValue)
    ensures var expected :=
        if items.Some? && |items.value| > 0 && items.value[0].plainText != ""
        then Str(items.value[0].plainText) else defaultValue;
      && GetPropertyValue(Some(TitleProperty(items)), TitleType, defaultValue) == expected
      && GetPropertyValue(Some(RichTextProperty(items)), RichTextType, defaultValue) == expected
  {
  }

  /** A date property yields its start, or the default when the date is
      missing or its start is empty. */
  lemma DateStartOrDefault(date: Option<DateValue>, defaultValue: PropertyValue)
    ensures GetPropertyValue(Some(DateProperty(date)), DateType, defaultValue)
      == if date.Some? && date.value.start != "" then Str(date.value.start) else defaultValue
  {
  }

  /** A multi-select property yields the tag names in order; a missing list
      yields the empty list, never the caller's default. */
  lemma MultiSelectIgnoresDefault(options: Option<seq<SelectOption>>, d1: PropertyValue, d2: PropertyValue)
    ensures GetPropertyValue(Some(MultiSelectProperty(options)), MultiSelectType, d1)
         == GetPropertyValue(Some(MultiSelectProperty(options)), MultiSelectType, d2)
    ensures options.None? ==> GetPropertyValue(Some(MultiSelectProperty(options)), MultiSelectType, d1) == Strs([])
    ensures options.Some? ==> GetPropertyValue(Some(MultiSelectProperty(options)), MultiSelectType, d1).strs
                              == TagNames(options.value)
  {
  }

  // ---------------------------------------------------------------------
  // Query results
  // ---------------------------------------------------------------------

  /** A page summary as `getPages` returns it. */
  datatype Page = Page(id: string, title: string, slug: string, date: string, tags: seq<string>)

  /** A single page's metadata and its child blocks, as `getPage` returns it. */
  datatype PageDetail = PageDetail(title: string, date: string, content: seq<NotionBlocks.Block>)

  /** An element of a query's `results`: a full page object with its
      properties by name, or a partial object without them. */
  datatype QueryItem = FullPage(id: string, properties: map<string, Property>) | PartialPage(id: string)

  /** The errors `getPages` and `getPage` throw. */
  datatype NotionError =
    | DatabaseIdNotSet
    | FetchFailed
    | ClientError(message: string)
    | PageNotFound
    | InvalidPageData

  /** The message of the `Error` each case throws; a client error keeps the client's own. */
  function Message(e: NotionError): string
  {
    match e
    case DatabaseIdNotSet => "Database ID is not set"
    case FetchFailed => "Failed to fetch contents from Notion"
    case ClientError(message) => message
    case PageNotFound => "Page not found"
    case InvalidPageData => "Invalid page data"
  }

  /** `properties.<name>`: the property, or `undefined`. */
  function Lookup(properties: map<string, Property>, name: string): Option<Property>
  {
    if name in properties then Some(properties[name]) else None
  }

  /** The database id is usable: present and not the empty string. */
  predicate Configured(databaseId: Option<string>)
  {
    databaseId.Some? && databaseId.value != ""
  }

  /** The title: the first plain text of the title property "Page" when
      that text exists and is non-empty, "Untitled" otherwise (also when
      "Page" is absent or of another type). */
  function Title(properties: map<string, Property>): (title: string)
    ensures title != ""
    ensures Lookup(properties, "Page").None? ==> title == "Untitled"
    ensures var page := Lookup(properties, "Page");
      title == if page.Some? && page.value.TitleProperty?
                  && FirstPlainText(page.value.title).Some? && FirstPlainText(page.value.title).value != ""
               then FirstPlainText(page.value.title).value else "Untitled"
  {
    GetPropertyValue(Lookup(properties, "Page"), TitleType, Str("Untitled")).str
  }

  /** The date: the start of the date property "Date" when it has a date,
      "" otherwise (also when "Date" is absent or of another type). */
  function Date(properties: map<string, Property>): (date: string)
    ensures Lookup(properties, "Date").None? ==> date == ""
    ensures var d := Lookup(properties, "Date");
      date == if d.Some? && d.value.DateProperty? && d.value.date.Some? then d.value.date.value.start else ""
  {
    GetPropertyValue(Lookup(properties, "Date"), DateType).str
  }

  /** The summary of one full page: title from "Page" (default "Untitled"),
      slug from "Slug" and date from "Date" (default ""), tags from "Tags"
      (default the empty list). */
  function ToPage(id: string, properties: map<string, Property>): (p: Page)
    ensures p.id == id && p.title != ""
    ensures p.title == Title(properties) && p.date == Date(properties)
    ensures Lookup(properties, "Slug").None? ==> p.slug == ""
    ensures Lookup(properties, "Tags").None? ==> p.tags == []
    ensures var slug := Lookup(properties, "Slug");
      p.slug == if slug.Some? && slug.value.RichTextProperty? && FirstPlainText(slug.value.richText).Some?
                then FirstPlainText(slug.value.richText).value else ""
    ensures var tags := Lookup(properties, "Tags");
      p.tags == if tags.Some? && tags.value.MultiSelectProperty? && tags.value.multiSelect.Some?
                then TagNames(tags.value.multiSelect.value) else []
  {
    Page(id,
         Title(properties),
         GetPropertyValue(Lookup(properties, "Slug"), RichTextType).str,
         Date(properties),
         GetPropertyValue(Lookup(properties, "Tags"), MultiSelectType, Strs([])).strs)
  }

  /** Number of full page objects. */
  function CountFull(results: seq<QueryItem>): nat
  {
    if results == [] then 0 else (if results[0].FullPage? then 1 else 0) + CountFull(results[1..])
  }

  /** The `filter`/`map` of `getPages`: keep the results that have
      properties, in query order, and summarise each. */
  function ProjectPages(results: seq<QueryItem>): (pages: seq<Page>)
    ensures |pages| == CountFull(results)
    ensures forall i :: 0 <= i < |pages| ==> pages[i].title != ""
  {
    if results == [] then []
    else
      var head := match results[0]
        case FullPage(id, properties) => [ToPage(id, properties)]
        case PartialPage(_) => [];
      head + ProjectPages(results[1..])
  }

  /** Projection respects query order: projecting a concatenation is
      concatenating the projections. */
  lemma {:induction false} ProjectPagesAppend(a: seq<QueryItem>, b: seq<QueryItem>)
    ensures ProjectPages(a + b) == ProjectPages(a) + ProjectPages(b)
    decreases |a|
  {
    if a == [] {
      assert a + b == b;
    } else {
      assert (a + b)[0] == a[0];
      assert (a + b)[1..] == a[1..] + b;
      ProjectPagesAppend(a[1..], b);
    }
  }

  /** When every result has properties, there is one page per result, in
      the same position, carrying that result's id. */
  lemma {:induction false} ProjectAllFull(results: seq<QueryItem>)
    requires forall i :: 0 <= i < |results| ==> results[i].FullPage?
    ensures |ProjectPages(results)| == |results|
    ensures forall i :: 0 <= i < |results| ==>
      ProjectPages(results)[i] == ToPage(results[i].id, results[i].properties)
    decreases |results|
  {
    if results != [] {
      ProjectAllFull(results[1..]);
      var pages := ProjectPages(results);
      assert pages == [ToPage(results[0].id, results[0].properties)] + ProjectPages(results[1..]);
    }
  }

  /** Partial objects contribute nothing, wherever they stand. */
  lemma PartialPagesDropped(a: seq<QueryItem>, id: string, b: seq<QueryItem>)
    ensures ProjectPages(a + [PartialPage(id)] + b) == ProjectPages(a) + ProjectPages(b)
  {
    calc {
      ProjectPages(a + [PartialPage(id)] + b);
      { ProjectPagesAppend(a + [PartialPage(id)], b); }
      ProjectPages(a + [PartialPage(id)]) + ProjectPages(b);
      { ProjectPagesAppend(a, [PartialPage(id)]); }
      ProjectPages(a) + ProjectPages([PartialPage(id)]) + ProjectPages(b);
      { assert ProjectPages([PartialPage(id)]) == [] + ProjectPages([]); }
      ProjectPages(a) + ProjectPages(b);
    }
  }

  /** `getPages` after its query: no usable database id fails before the
      query; a rejected query fails with "Failed to fetch contents from
      Notion"; otherwise the projected pages. */
  function GetPages(databaseId: Option<string>, response: Result<seq<QueryItem>, string>): (r: Result<seq<Page>, NotionError>)
    ensures !Configured(databaseId) ==> r == Failure(DatabaseIdNotSet)
    ensures Configured(databaseId) && response.Failure? ==> r == Failure(FetchFailed)
    ensures Configured(databaseId) && response.Success? ==> r == Success(ProjectPages(response.value))
    ensures Configured(databaseId) && response.Success? ==>
      r.Success? && |r.value| == CountFull(response.value)
    ensures !Configured(databaseId) ==> r.Failure? && Message(r.error) == "Database ID is not set"
    ensures Configured(databaseId) && response.Failure? ==>
      r.Failure? && Message(r.error) == "Failed to fetch contents from Notion"
    ensures r.Success? ==> forall i :: 0 <= i < |r.value| ==> r.value[i].title != ""
  {
    if !Configured(databaseId) then Failure(DatabaseIdNotSet)
    else match response
      case Failure(_) => Failure(FetchFailed)
      case Success(results) => Success(ProjectPages(results))
  }

  /** `getPage` after its queries: no usable database id fails first; a
      rejected query passes the client's error on; no result is "Page not
      found"; only the first result is used, and "Invalid page data" if it
      lacks properties; then the title (default "Untitled"), the date
      (default "") and the child blocks, unchanged. */
  function GetPage(databaseId: Option<string>, response: Result<seq<QueryItem>, string>,
                   children: Result<seq<NotionBlocks.Block>, string>): (r: Result<PageDetail, NotionError>)
    ensures !Configured(databaseId) ==> r == Failure(DatabaseIdNotSet)
    ensures Configured(databaseId) && response.Failure? ==> r == Failure(ClientError(response.error))
    ensures Configured(databaseId) && response == Success([]) ==> r == Failure(PageNotFound)
    ensures Configured(databaseId) && response.Success? && |response.value| > 0 && response.value[0].PartialPage? ==>
      r == Failure(InvalidPageData)
    ensures && Configured(databaseId) && response.Success? && |response.value| > 0
            && response.value[0].FullPage? && children.Failure?
            ==> r == Failure(ClientError(children.error))
    ensures r.Success? <==>
      Configured(databaseId) && response.Success? && |response.value| > 0 && response.value[0].FullPage? && children.Success?
    ensures !Configured(databaseId) ==> r.Failure? && Message(r.error) == "Database ID is not set"
    ensures Configured(databaseId) && response.Failure? ==> r.Failure? && Message(r.error) == response.error
    ensures Configured(databaseId) && response == Success([]) ==> r.Failure? && Message(r.error) == "Page not found"
    ensures Configured(databaseId) && response.Success? && |response.value| > 0 && response.value[0].PartialPage? ==>
      r.Failure? && Message(r.error) == "Invalid page data"
    ensures && Configured(databaseId) && response.Success? && |response.value| > 0
            && response.value[0].FullPage? && children.Failure?
            ==> r.Failure? && Message(r.error) == children.error
    ensures r.Success? ==>
      && r.value.title == Title(response.value[0].properties)
      && r.value.date == Date(response.value[0].properties)
      && r.value.content == children.value
  {
    if !Configured(databaseId) then Failure(DatabaseIdNotSet)
    else match response
      case Failure(message) => Failure(ClientError(message))
      case Success(results) =>
        if results == [] then Failure(PageNotFound)
        else match results[0]
          case PartialPage(_) => Failure(InvalidPageData)
          case FullPage(_, properties) =>
            match children
            case Failure(message) => Failure(ClientError(message))
            case Success(blocks) => Success(PageDetail(Title(properties), Date(properties), blocks))
  }

  /** The first result decides: what follows it in the query answer never
      changes the outcome, even when the first lacks properties and a later
      one has them. */
  lemma GetPageUsesFirstResultOnly(databaseId: Option<string>, first: QueryItem,
                                   rest1: seq<QueryItem>, rest2: seq<QueryItem>,
                                   children: Result<seq<NotionBlocks.Block>, string>)
    ensures GetPage(databaseId, Success([first] + rest1), children)
         == GetPage(databaseId, Success([first] + rest2), children)
  {
  }
}
