/**
  The print/PDF pages of a radar chart (src/graphing/pdfPage.js).

  The page template is abstracted to the regions this code writes: the cover
  fields, the "generated from" link, the quadrant tables (by their order class)
  and the themes and about content regions. Each DOM write of the source becomes
  an assignment to one of these regions; the clock and the document location
  become parameters and the fetched, decoded CSV file becomes a `Response`.
 */
module PdfPage {
  import opened Options
  import opened Decimal

  // ---------------------------------------------------------------------------
  // Cover date

  /** English month names in calendar order, indexed as `Date.getMonth()` does. */
  const MonthNames: seq<string> := [
    "January", "February", "March", "April", "May", "June",
    "July", "August", "September", "October", "November", "December"
  ]

  /** The range of `Date.getMonth()`. */
  type MonthIndex = m: int | 0 <= m < 12

  /** The two readings of the current date the cover uses. */
  datatype Date = Date(month: MonthIndex, fullYear: int)

  /** `getMonthYear`: "<month name> <year>". */
  function MonthYear(now: Date): (s: string)
    ensures |s| > |MonthNames[now.month]|
    ensures s[..|MonthNames[now.month]|] == MonthNames[now.month]
  {
    MonthNames[now.month] + " " + IntToString(now.fullYear)
  }

  // ---------------------------------------------------------------------------
  // Document content

  /** A DOM element with a tag, a class attribute and a text content. */
  datatype Element = Element(tag: string, cls: string, text: string)

  /** One content block: a div holding a heading (h3) and a paragraph (p). */
  datatype Block = Block(cls: string, heading: Element, body: Element)

  /** One decoded CSV row: column name to cell value. */
  type Record = map<string, string>

  /** The two content pages that are filled from CSV files. */
  datatype Page = Themes | About

  /**
    What the loader obtains: a non-ok HTTP status, a fetch or read that throws
    (caught by the loader), or the records decoded from the response body.
   */
  datatype Response = NotOk | Rejected | Ok(records: seq<Record>)

  /** A column read inside a template literal: a missing column reads "undefined". */
  function TemplateField(r: Record, column: string): (v: string)
    ensures column in r ==> v == r[column]
    ensures column !in r ==> v == "undefined"
  {
    if column in r then r[column] else "undefined"
  }

  /** A column passed to d3's `.text()`: a missing column clears the text. */
  function TextField(r: Record, column: string): (v: string)
    ensures column in r ==> v == r[column]
    ensures column !in r ==> v == ""
  {
    if column in r then r[column] else ""
  }

  /** The block `loadThemesContent` appends for the record at 0-based `index`. */
  function ThemeBlock(index: nat, r: Record): (b: Block)
    ensures b.cls == "pdf-theme-item"
    ensures b.heading.tag == "h3" && b.heading.cls == "pdf-theme-title"
    ensures b.heading.text == NatToString(index + 1) + ". " + TemplateField(r, "title")
    ensures b.body.tag == "p" && b.body.cls == "pdf-theme-description"
    ensures b.body.text == TextField(r, "description")
  {
    Block("pdf-theme-item",
          Element("h3", "pdf-theme-title", NatToString(index + 1) + ". " + TemplateField(r, "title")),
          Element("p", "pdf-theme-description", TextField(r, "description")))
  }

  /** The block `loadAboutContent` appends for a record; its position plays no part. */
  function AboutBlock(r: Record): (b: Block)
    ensures b.cls == "pdf-about-section"
    ensures b.heading.tag == "h3" && b.heading.cls == "pdf-about-section-title"
    ensures b.heading.text == TextField(r, "section")
    ensures b.body.tag == "p" && b.body.cls == "pdf-about-section-content"
    ensures b.body.text == TextField(r, "content")
  {
    Block("pdf-about-section",
          Element("h3", "pdf-about-section-title", TextField(r, "section")),
          Element("p", "pdf-about-section-content", TextField(r, "content")))
  }

  /** The block a page's binder appends for the record at 0-based `index`. */
  function BlockFor(page: Page, index: nat, r: Record): (b: Block)
    ensures page == Themes ==> b == ThemeBlock(index, r)
    ensures page == About ==> b == AboutBlock(r)
  {
    match page
    case Themes => ThemeBlock(index, r)
    case About => AboutBlock(r)
  }

  /**
    The content of a region after binding `records`, built as the `forEach`
    builds it: the blocks for all but the last record, then the last one's.
    The result has one block per record, in record order.
   */
  function Bind(page: Page, records: seq<Record>): (blocks: seq<Block>)
    ensures |blocks| == |records|
    ensures forall k :: 0 <= k < |records| ==> blocks[k] == BlockFor(page, k, records[k])
    decreases |records|
  {
    if records == [] then []
    else
      var n := |records| - 1;
      Bind(page, records[..n]) + [BlockFor(page, n, records[n])]
  }

  /** A region after a load: rebuilt from the records on success, untouched otherwise. */
  function Filled(region: seq<Block>, page: Page, resp: Response): (blocks: seq<Block>)
    ensures resp.Ok? ==> blocks == Bind(page, resp.records)
    ensures !resp.Ok? ==> blocks == region
  {
    if resp.Ok? then Bind(page, resp.records) else region
  }

  // ---------------------------------------------------------------------------
  // Quadrant tables

  /** The name node `addQuadrantNameInPdfView` inserts. */
  function NameNode(name: string): (e: Element)
    ensures e.tag == "div" && e.cls == "quadrant-table__name" && e.text == name
  {
    Element("div", "quadrant-table__name", name)
  }

  /**
    Quadrant tables after inserting a name node as the first child of the table
    whose order class is `order`; with no such table the selection is empty and
    nothing changes.
   */
  function InsertQuadrantName(tables: map<string, seq<Element>>, order: string, name: string)
    : (r: map<string, seq<Element>>)
    ensures r.Keys == tables.Keys
    ensures order in tables ==> r[order] == [NameNode(name)] + tables[order]
    ensures forall o :: o in tables && o != order ==> r[o] == tables[o]
  {
    if order in tables then tables[order := [NameNode(name)] + tables[order]] else tables
  }

  // ---------------------------------------------------------------------------
  // Whole-document state and the operations on it

  const ProductTitle := "Technology Radar"

  /** `title || ''`: the subtitle written to the cover. */
  function Subtitle(title: Option<string>): (s: string)
    ensures title.Some? && title.value != "" ==> s == title.value
    ensures title.None? || title.value == "" ==> s == ""
  {
    match title
    case None => ""
    case Some(t) => t
  }

  /** Every region of the print document this code writes. */
  datatype DocState = DocState(
    coverTitle: string,
    coverSubtitle: string,
    coverDate: string,
    footerDate: string,
    radarLink: string,
    quadrantTables: map<string, seq<Element>>,
    themes: seq<Block>,
    about: seq<Block>)

  /** The document after `addPdfCoverTitle(title)` at time `now`. */
  function ComposeCover(s: DocState, title: Option<string>, now: Date): (t: DocState)
    ensures t.coverTitle == ProductTitle
    ensures t.coverSubtitle == Subtitle(title)
    ensures t.coverDate == t.footerDate == MonthYear(now)
    ensures t.radarLink == s.radarLink && t.quadrantTables == s.quadrantTables
    ensures t.themes == s.themes && t.about == s.about
  {
    var dateStr := MonthYear(now);
    s.(coverTitle := ProductTitle, coverSubtitle := Subtitle(title),
       coverDate := dateStr, footerDate := dateStr)
  }

  /** The document after `loadThemesContent` obtained `resp`. */
  function ThemesLoaded(s: DocState, resp: Response): (t: DocState)
    ensures t.themes == Filled(s.themes, Themes, resp)
    ensures t.(themes := s.themes) == s
  {
    s.(themes := Filled(s.themes, Themes, resp))
  }

  /** The document after `loadAboutContent` obtained `resp`. */
  function AboutLoaded(s: DocState, resp: Response): (t: DocState)
    ensures t.about == Filled(s.about, About, resp)
    ensures t.(about := s.about) == s
  {
    s.(about := Filled(s.about, About, resp))
  }

  /** Appending the block for the next record extends the bound prefix by one. */
  lemma BindSnoc(page: Page, records: seq<Record>, i: nat)
    requires i < |records|
    ensures Bind(page, records[..i + 1]) == Bind(page, records[..i]) + [BlockFor(page, i, records[i])]
  {
  }

  // ---------------------------------------------------------------------------
  // The document object

  class PdfDocument {
    var coverTitle: string
    var coverSubtitle: string
    var coverDate: string
    var footerDate: string
    var radarLink: string
    var quadrantTables: map<string, seq<Element>>
    var themes: seq<Block>
    var about: seq<Block>

    function State(): DocState
      reads this
    {
      DocState(coverTitle, coverSubtitle, coverDate, footerDate, radarLink,
               quadrantTables, themes, about)
    }

    /** A document holding the template's initial content. */
    constructor (template: DocState)
      ensures State() == template
    {
      coverTitle := template.coverTitle;
      coverSubtitle := template.coverSubtitle;
      coverDate := template.coverDate;
      footerDate := template.footerDate;
      radarLink := template.radarLink;
      quadrantTables := template.quadrantTables;
      themes := template.themes;
      about := template.about;
    }

    /** `addPdfCoverTitle`: the date string is computed once and written to both date fields. */
    method AddPdfCoverTitle(title: Option<string>, now: Date)
      modifies this
      ensures State() == ComposeCover(old(State()), title, now)
    {
      var dateStr := MonthYear(now);
      coverTitle := ProductTitle;
      coverSubtitle := Subtitle(title);
      coverDate := dateStr;
      footerDate := dateStr;
    }

    /** `addRadarLinkInPdfView`: the self-link points at the document's location. */
    method AddRadarLinkInPdfView(location: string)
      modifies this
      ensures radarLink == location
      ensures State() == old(State()).(radarLink := location)
    {
      radarLink := location;
    }

    /** `addQuadrantNameInPdfView`. */
    method AddQuadrantNameInPdfView(order: string, quadrantName: string)
      modifies this
      ensures State() == old(State()).(quadrantTables := InsertQuadrantName(old(quadrantTables), order, quadrantName))
    {
      if order in quadrantTables {
        quadrantTables := quadrantTables[order := [NameNode(quadrantName)] + quadrantTables[order]];
      }
    }

    /** `loadThemesContent`: clear the themes region, then append one numbered block per record. */
    method LoadThemesContent(resp: Response)
      modifies this
      ensures State() == ThemesLoaded(old(State()), resp)
    {
      if !resp.Ok? {
        return;
      }
      var records := resp.records;
      themes := [];
      var i := 0;
      while i < |records|
        invariant i <= |records|
        invariant State() == old(State()).(themes := Bind(Themes, records[..i]))
      {
        BindSnoc(Themes, records, i);
        themes := themes + [ThemeBlock(i, records[i])];
        i := i + 1;
      }
      assert records[..i] == records;
    }

    /** `loadAboutContent`: clear the about region, then append one block per record. */
    method LoadAboutContent(resp: Response)
      modifies this
      ensures State() == AboutLoaded(old(State()), resp)
    {
      if !resp.Ok? {
        return;
      }
      var records := resp.records;
      about := [];
      var i := 0;
      while i < |records|
        invariant i <= |records|
        invariant State() == old(State()).(about := Bind(About, records[..i]))
      {
        BindSnoc(About, records, i);
        about := about + [AboutBlock(records[i])];
        i := i + 1;
      }
      assert records[..i] == records;
    }

    /** `initializePdfContent`, with the two loaders run one after the other. */
    method InitializePdfContent(themesResp: Response, aboutResp: Response)
      modifies this
      ensures State() == AboutLoaded(ThemesLoaded(old(State()), themesResp), aboutResp)
    {
      LoadThemesContent(themesResp);
      LoadAboutContent(aboutResp);
    }
  }
}
