/** The list view's loader (app/routes/home.tsx): one row per published
    page, with the slug as link target and the date rewritten with dots, or
    a status-500 response when fetching the pages failed. */
module Home {
  import opened Wrappers
  import Notion

  /** A row of the list view. */
  datatype Row = Row(title: string, href: string, date: string, tags: seq<string>)

  /** What the loader hands to the view, or the response it throws. */
  datatype LoaderResult = LoaderData(data: seq<Row>) | ErrorResponse(status: int, body: string)

  /** `date.replace(/-/g, ".")`: every hyphen becomes a dot. */
  function ReplaceDashes(s: string): (r: string)
    ensures |r| == |s|
    ensures forall i :: 0 <= i < |s| ==> r[i] == if s[i] == '-' then '.' else s[i]
  {
    if s == [] then [] else [if s[0] == '-' then '.' else s[0]] + ReplaceDashes(s[1..])
  }

  /** No hyphen survives, and a second rewrite changes nothing. */
  lemma ReplaceDashesNormalises(s: string)
    ensures '-' !in ReplaceDashes(s)
    ensures ReplaceDashes(ReplaceDashes(s)) == ReplaceDashes(s)
  {
    var r := ReplaceDashes(s);
    assert forall i :: 0 <= i < |r| ==> r[i] != '-';
  }

  /** Text without hyphens is left as it is. */
  lemma ReplaceDashesKeeps(s: string)
    requires '-' !in s
    ensures ReplaceDashes(s) == s
  {
    assert forall i :: 0 <= i < |s| ==> s[i] != '-';
  }

  /** The rewrite works piece by piece. */
  lemma {:induction false} ReplaceDashesAppend(a: string, b: string)
    ensures ReplaceDashes(a + b) == ReplaceDashes(a) + ReplaceDashes(b)
    decreases |a|
  {
    if a == [] {
      assert a + b == b;
    } else {
      assert (a + b)[0] == a[0];
      assert (a + b)[1..] == a[1..] + b;
      ReplaceDashesAppend(a[1..], b);
    }
  }

  /** A date `year-month-day` whose parts hold no hyphen becomes
      `year.month.day`. */
  lemma ReplaceDashesOnDate(year: string, month: string, day: string)
    requires '-' !in year && '-' !in month && '-' !in day
    ensures ReplaceDashes(year + "-" + month + "-" + day) == year + "." + month + "." + day
  {
    var dash := "-";
    assert ReplaceDashes(dash) == ".";
    calc {
      ReplaceDashes(year + dash + month + dash + day);
      { ReplaceDashesAppend(year + dash + month + dash, day); }
      ReplaceDashes(year + dash + month + dash) + ReplaceDashes(day);
      { ReplaceDashesAppend(year + dash + month, dash); }
      ReplaceDashes(year + dash + month) + "." + ReplaceDashes(day);
      { ReplaceDashesAppend(year + dash, month); ReplaceDashesAppend(year, dash); }
      ReplaceDashes(year) + "." + ReplaceDashes(month) + "." + ReplaceDashes(day);
      { ReplaceDashesKeeps(year); ReplaceDashesKeeps(month); ReplaceDashesKeeps(day); }
      year + "." + month + "." + day;
    }
  }

  /** The projection of one page: `href` is the slug; title and tags pass through. */
  function ToRow(page: Notion.Page): (row: Row)
    ensures row.title == page.title && row.href == page.slug && row.tags == page.tags
    ensures row.date == ReplaceDashes(page.date)
  {
    Row(page.title, page.slug, ReplaceDashes(page.date), page.tags)
  }

  /** The `map` of the loader: one row per page, in the same order. */
  function ToRows(pages: seq<Notion.Page>): (rows: seq<Row>)
    ensures |rows| == |pages|
    ensures forall i :: 0 <= i < |pages| ==> rows[i] == ToRow(pages[i])
  {
    if pages == [] then [] else [ToRow(pages[0])] + ToRows(pages[1..])
  }

  /** The loader: the pages of `getPages` as rows; any failure of
      `getPages` becomes a status-500 response and no data at all. */
  function Loader(databaseId: Option<string>, response: Result<seq<Notion.QueryItem>, string>): (r: LoaderResult)
    ensures r.ErrorResponse? <==> Notion.GetPages(databaseId, response).Failure?
    ensures r.ErrorResponse? ==> r.status == 500 && r.body == "Failed to load contents"
    ensures r.LoaderData? ==>
      var pages := Notion.GetPages(databaseId, response).value;
      && |r.data| == |pages|
      && forall i :: 0 <= i < |pages| ==>
           r.data[i].title == pages[i].title && r.data[i].href == pages[i].slug
           && r.data[i].tags == pages[i].tags && r.data[i].date == ReplaceDashes(pages[i].date)
  {
    match Notion.GetPages(databaseId, response)
    case Success(contents) => LoaderData(ToRows(contents))
    case Failure(_) => ErrorResponse(500, "Failed to load contents")
  }
}
