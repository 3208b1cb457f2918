/**
  Properties of the print-page model: what the cover date string encodes, that
  numbered theme headings carry their position, that loading clears before it
  fills, that the two loaders touch disjoint regions, and where a quadrant name
  goes.
 */
module PdfPageFacts {
  import opened Options
  import opened Decimal
  import opened PdfPage

  // ---------------------------------------------------------------------------
  // The "Month Year" string

  /** The position of the first space in `s`, or |s| when there is none. */
  function FirstSpace(s: string): (j: nat)
    ensures j <= |s|
    ensures forall i :: 0 <= i < j ==> s[i] != ' '
    ensures j < |s| ==> s[j] == ' '
  {
    if s == [] || s[0] == ' ' then 0 else 1 + FirstSpace(s[1..])
  }

  /** The index of the month called `name`, searching from index `k`. */
  function FindMonth(name: string, k: nat): (m: Option<MonthIndex>)
    requires k <= 12
    ensures m.Some? ==> k <= m.value && MonthNames[m.value] == name
    decreases 12 - k
  {
    if k == 12 then None
    else if MonthNames[k] == name then Some(k as MonthIndex)
    else FindMonth(name, k + 1)
  }

  /** Reads a "Month Year" string back into the date it was made from. */
  function ParseMonthYear(s: string): Option<Date> {
    var j := FirstSpace(s);
    if j == |s| then None
    else
      match (FindMonth(s[..j], 0), ParseInt(s[j + 1..]))
      case (Some(m), Some(y)) => Some(Date(m, y))
      case _ => None
  }

  /** The month table has twelve names, none with a space, no two alike. */
  lemma MonthNamesWellFormed()
    ensures |MonthNames| == 12
    ensures forall k, c :: 0 <= k < 12 && 0 <= c < |MonthNames[k]| ==> MonthNames[k][c] != ' '
    ensures forall i, j :: 0 <= i < j < 12 ==> MonthNames[i] != MonthNames[j]
  {
  }

  lemma FindMonthOf(m: MonthIndex, k: nat)
    requires k <= m
    ensures FindMonth(MonthNames[m], k) == Some(m)
    decreases 12 - k
  {
  }

  lemma {:induction false} FirstSpaceAfter(a: string, b: string)
    requires forall i :: 0 <= i < |a| ==> a[i] != ' '
    requires |b| > 0 && b[0] == ' '
    ensures FirstSpace(a + b) == |a|
    decreases |a|
  {
    if a != [] {
      assert (a + b)[1..] == a[1..] + b;
      FirstSpaceAfter(a[1..], b);
    }
  }

  /**
    The cover date determines the date it was made from: the month name comes
    first, then one space, then the full year in decimal.
   */
  lemma {:induction false} MonthYearRoundTrip(now: Date)
    ensures ParseMonthYear(MonthYear(now)) == Some(now)
  {
    MonthNamesWellFormed();
    var name := MonthNames[now.month];
    var year := IntToString(now.fullYear);
    var s := MonthYear(now);
    assert s == name + (" " + year);
    FirstSpaceAfter(name, " " + year);
    assert s[..|name|] == name;
    assert s[|name| + 1..] == year;
    FindMonthOf(now.month, 0);
    ParseIntToString(now.fullYear);
  }

  /** Different dates give different cover date strings. */
  lemma MonthYearInjective(d1: Date, d2: Date)
    requires MonthYear(d1) == MonthYear(d2)
    ensures d1 == d2
  {
    MonthYearRoundTrip(d1);
    MonthYearRoundTrip(d2);
  }

  /** Month index 7 of 2025 is "August 2025". */
  lemma MonthYearAugust2025()
    ensures MonthYear(Date(7, 2025)) == "August 2025"
  {
  }

  // ---------------------------------------------------------------------------
  // The cover

  /**
    After composing the cover, the title is fixed, the subtitle is the given
    one or empty, and both date fields hold the month and year of `now`.
   */
  lemma {:induction false} CoverDates(s: DocState, title: Option<string>, now: Date)
    ensures var t := ComposeCover(s, title, now);
      t.coverTitle == "Technology Radar" &&
      t.coverDate == t.footerDate &&
      ParseMonthYear(t.coverDate) == Some(now)
  {
    MonthYearRoundTrip(now);
  }

  /** The cover composer overwrites: composing twice equals composing once. */
  lemma ComposeCoverIdempotent(s: DocState, title: Option<string>, now: Date)
    ensures ComposeCover(ComposeCover(s, title, now), title, now) == ComposeCover(s, title, now)
  {
  }

  // ---------------------------------------------------------------------------
  // Numbered theme headings

  /** The number of leading decimal digits of `s`. */
  function LeadingDigits(s: string): (j: nat)
    ensures j <= |s|
    ensures AllDigits(s[..j])
    ensures j < |s| ==> !IsDigit(s[j])
  {
    if s == [] || !IsDigit(s[0]) then 0
    else
      var j := 1 + LeadingDigits(s[1..]);
      assert s[..j] == [s[0]] + s[1..][..j - 1];
      j
  }

  /** Splits a heading of the form "<digits>. <title>" into its number and title. */
  function ParseNumberedHeading(s: string): Option<(nat, string)> {
    var j := LeadingDigits(s);
    if 1 <= j && j + 2 <= |s| && s[j..j + 2] == ". " then Some((ParseNat(s[..j]), s[j + 2..]))
    else None
  }

  lemma {:induction false} LeadingDigitsOf(a: string, b: string)
    requires AllDigits(a)
    requires |b| > 0 && !IsDigit(b[0])
    ensures LeadingDigits(a + b) == |a|
    decreases |a|
  {
    if a != [] {
      assert (a + b)[1..] == a[1..] + b;
      LeadingDigitsOf(a[1..], b);
    }
  }

  /** "<decimal n>. <t>" splits back into n and t. */
  lemma {:induction false} NumberedHeadingRoundTrip(n: nat, t: string)
    ensures ParseNumberedHeading(NatToString(n) + ". " + t) == Some((n, t))
  {
    var num := NatToString(n);
    var rest := ". " + t;
    var h := num + rest;
    assert NatToString(n) + ". " + t == h;
    LeadingDigitsOf(num, rest);
    assert h[..|num|] == num;
    assert h[|num|..|num| + 2] == ". ";
    assert h[|num| + 2..] == t;
    ParseNatToString(n);
  }

  /**
    The heading of theme block k reads back as number k + 1 followed by the
    record's title column.
   */
  lemma {:induction false} ThemeHeadingRoundTrip(records: seq<Record>, k: nat)
    requires k < |records|
    ensures ParseNumberedHeading(Bind(Themes, records)[k].heading.text)
         == Some((k + 1, TemplateField(records[k], "title")))
  {
    var title := TemplateField(records[k], "title");
    assert Bind(Themes, records)[k].heading.text == NatToString(k + 1) + ". " + title;
    NumberedHeadingRoundTrip(k + 1, title);
  }

  /** The numbering makes every theme heading distinct, whatever the titles. */
  lemma ThemeHeadingsDistinct(records: seq<Record>, j: nat, k: nat)
    requires j < k < |records|
    ensures Bind(Themes, records)[j].heading.text != Bind(Themes, records)[k].heading.text
  {
    ThemeHeadingRoundTrip(records, j);
    ThemeHeadingRoundTrip(records, k);
  }

  /** Records titled A and B with descriptions d1 and d2 give headings "1. A" and "2. B". */
  lemma ThemesExample()
    ensures var blocks := Bind(Themes, [map["title" := "A", "description" := "d1"],
                                         map["title" := "B", "description" := "d2"]]);
      |blocks| == 2 &&
      blocks[0].heading.text == "1. A" && blocks[0].body.text == "d1" &&
      blocks[1].heading.text == "2. B" && blocks[1].body.text == "d2"
  {
  }

  // ---------------------------------------------------------------------------
  // Binding order

  /** Binding a prefix of the records gives the same prefix of blocks. */
  lemma BindPrefix(page: Page, records: seq<Record>, n: nat)
    requires n <= |records|
    ensures Bind(page, records[..n]) == Bind(page, records)[..n]
  {
  }

  /** About blocks do not depend on position: binding concatenated records concatenates the blocks. */
  lemma AboutBindAppend(a: seq<Record>, b: seq<Record>)
    ensures Bind(About, a + b) == Bind(About, a) + Bind(About, b)
  {
  }

  /** Theme blocks after the first |a| records are numbered on from |a| + 1. */
  lemma ThemesBindAppend(a: seq<Record>, b: seq<Record>, k: nat)
    requires k < |b|
    ensures Bind(Themes, a + b)[|a| + k] == ThemeBlock(|a| + k, b[k])
  {
  }

  // ---------------------------------------------------------------------------
  // Loading

  /** A failed load leaves the whole document as it was. */
  lemma LoadFailureUnchanged(s: DocState, resp: Response)
    requires !resp.Ok?
    ensures ThemesLoaded(s, resp) == s && AboutLoaded(s, resp) == s
  {
  }

  /**
    A successful load does not depend on what the region held before: the
    region is cleared first. Hence loading twice equals loading once.
   */
  lemma LoadIdempotent(s: DocState, resp: Response)
    ensures ThemesLoaded(ThemesLoaded(s, resp), resp) == ThemesLoaded(s, resp)
    ensures AboutLoaded(AboutLoaded(s, resp), resp) == AboutLoaded(s, resp)
  {
  }

  /** The two loaders write disjoint regions, so their order does not matter. */
  lemma LoadersCommute(s: DocState, themesResp: Response, aboutResp: Response)
    ensures AboutLoaded(ThemesLoaded(s, themesResp), aboutResp)
         == ThemesLoaded(AboutLoaded(s, aboutResp), themesResp)
  {
  }

  // ---------------------------------------------------------------------------
  // Quadrant names

  /**
    Inserting a name again does not replace the first one: two inserts leave
    two name nodes in front of the original children.
   */
  lemma QuadrantNameStacks(tables: map<string, seq<Element>>, order: string, n1: string, n2: string)
    requires order in tables
    ensures InsertQuadrantName(InsertQuadrantName(tables, order, n1), order, n2)[order]
         == [NameNode(n2), NameNode(n1)] + tables[order]
  {
  }
}
