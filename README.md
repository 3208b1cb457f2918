# Radar print pages, modelled in Dafny

This project models the code that fills the print/PDF pages of a Technology
Radar chart (`src/graphing/pdfPage.js`):

- the **cover composer**, which writes the product title, the caller's
  subtitle and a "Month Year" date (once on the cover, once in the page
  footer), and which points the "generated from" link at the document's own
  address;
- the **quadrant-name insertion**, which puts a name node in front of the
  children of one quadrant table;
- the **content page binders** for the themes and about pages, which, given
  a CSV response, clear their region and append one heading-and-paragraph
  block per record, or leave the region alone when the response failed.

The document is a `PdfPage.PdfDocument` object whose fields are the regions
these functions write. Its whole state is the `DocState` datatype. Each
method is specified by a pure transition on `DocState` (`ComposeCover`,
`ThemesLoaded`, `AboutLoaded`, `InsertQuadrantName`), and the properties are
lemmas about those transitions (module `PdfPageFacts`). The binders keep the
source's loop: a `while` over the records that appends to the region field.

Abstractions:

- The current date is a `Date(month, fullYear)` parameter, with the month in
  0..11 as `Date.getMonth()` returns it.
- The document location (`window.location.href`) is a string parameter.
- A fetched and decoded CSV file is a `Response`. It is `NotOk` for a non-ok
  status, `Rejected` when the fetch or the body read throws (the source
  catches that), or `Ok(records)`.
- A record is a map from column name to cell text. A missing column follows
  JavaScript. In the template literal `${index + 1}. ${theme.title}` it reads
  `"undefined"`. Passed to d3's `.text()` it clears the text, so it reads `""`.
- `${n}` on an integer is decimal rendering (`Decimal.IntToString`). It is
  paired with a parser so that round trips can be stated.

The binders do not check that a record has the columns they read. Every
record gets a block, with the fallbacks above.

## Model

| member | source | states |
|---|---|---|
| `Decimal.NatToString` | src/graphing/pdfPage.js:50 | the rendering of the 1-based theme number is a non-empty string of decimal digits with no leading zero |
| `Decimal.IntToString` | src/graphing/pdfPage.js:9 | the rendering of the year is non-empty; it starts with '-' exactly when the year is negative, and is all digits otherwise |
| `Decimal.ParseNatToString` | src/graphing/pdfPage.js:50 | reading the rendered number back as decimal gives the number |
| `Decimal.ParseIntToString` | src/graphing/pdfPage.js:9 | reading the rendered year back gives the year, negative years included |
| `Decimal.NatToStringInjective` | src/graphing/pdfPage.js:50 | distinct numbers render differently |
| `PdfPage.MonthYear` | src/graphing/pdfPage.js:3-10 | the date string is longer than the month's name and starts with that name, taken from the 12-entry table at the month index |
| `PdfPage.Subtitle` | src/graphing/pdfPage.js:15 | the JavaScript or-default on the title: a given non-empty subtitle is kept verbatim; an absent or empty one becomes "" |
| `PdfPage.ComposeCover` | src/graphing/pdfPage.js:12-18 | after the cover is composed, the title is "Technology Radar", the subtitle is `Subtitle(title)`, and the cover and footer date fields both equal one `MonthYear(now)`; link, quadrant tables, themes and about are unchanged |
| `PdfPage.TemplateField` | src/graphing/pdfPage.js:50 | a column inside the template literal reads as its value, or "undefined" when the record lacks it |
| `PdfPage.TextField` | src/graphing/pdfPage.js:52-54 | a column passed to `.text()` reads as its value, or "" when the record lacks it |
| `PdfPage.ThemeBlock` | src/graphing/pdfPage.js:45-54 | the themes block for the record at 0-based position i: a `pdf-theme-item` div; an h3 of class `pdf-theme-title` whose text is the decimal i + 1, then ". ", then the title column (or "undefined"); a p of class `pdf-theme-description` holding the description column (or "") |
| `PdfPage.AboutBlock` | src/graphing/pdfPage.js:75-84 | the about block for a record: a `pdf-about-section` div; an h3 of class `pdf-about-section-title` holding the section column unnumbered; a p of class `pdf-about-section-content` holding the content column (each "" when missing) |
| `PdfPage.BlockFor` | src/graphing/pdfPage.js:44-55 | the themes page uses the numbered `ThemeBlock` at the record's position; the about page uses `AboutBlock`, whatever the position |
| `PdfPage.NameNode` | src/graphing/pdfPage.js:25-28 | the inserted node is a div of class `quadrant-table__name` whose text is the quadrant name |
| `PdfPage.Bind` | src/graphing/pdfPage.js:44-55 | a bound region has exactly one block per record, and block k is the block for record k at position k |
| `PdfPage.Filled` | src/graphing/pdfPage.js:34-42 | after a load, a region holds `Bind` of the records when the response is ok, and is untouched otherwise |
| `PdfPage.ThemesLoaded` | src/graphing/pdfPage.js:31-59 | the themes region becomes `Filled(themes, Themes, resp)` and every other region stays as it was |
| `PdfPage.AboutLoaded` | src/graphing/pdfPage.js:61-89 | the about region becomes `Filled(about, About, resp)` and every other region stays as it was |
| `PdfPage.InsertQuadrantName` | src/graphing/pdfPage.js:24-29 | the set of quadrant tables is unchanged; the table named by `order` gets the name node in front of its old children, in their old order; the other tables are unchanged; with no such table nothing changes |
| `PdfPage.BindSnoc` | src/graphing/pdfPage.js:44-45 | appending the next record's block to the blocks bound so far gives the blocks of the one-longer prefix |
| `PdfPage.PdfDocument.AddPdfCoverTitle` | src/graphing/pdfPage.js:12-18 | the new document state is `ComposeCover` of the old one; the date string is computed once and written to both date fields |
| `PdfPage.PdfDocument.AddRadarLinkInPdfView` | src/graphing/pdfPage.js:20-22 | the link target becomes the given location and nothing else changes |
| `PdfPage.PdfDocument.AddQuadrantNameInPdfView` | src/graphing/pdfPage.js:24-29 | the quadrant tables become `InsertQuadrantName` of the old ones and nothing else changes |
| `PdfPage.PdfDocument.LoadThemesContent` | src/graphing/pdfPage.js:31-59 | the new state is `ThemesLoaded` of the old one: on failure, an early return with no change; otherwise the region is cleared and the loop appends the numbered blocks in record order |
| `PdfPage.PdfDocument.LoadAboutContent` | src/graphing/pdfPage.js:61-89 | the new state is `AboutLoaded` of the old one, built the same way with unnumbered blocks |
| `PdfPage.PdfDocument.InitializePdfContent` | src/graphing/pdfPage.js:91-96 | after both loaders have run, the state is the themes load followed by the about load |
| `PdfPageFacts.MonthNamesWellFormed` | src/graphing/pdfPage.js:4-7 | the month table holds 12 names; no name contains a space; no two are equal |
| `PdfPageFacts.MonthYearRoundTrip` | src/graphing/pdfPage.js:3-10 | the "Month Year" string reads back as the exact month index and year it was made from |
| `PdfPageFacts.MonthYearInjective` | src/graphing/pdfPage.js:9 | different dates give different date strings |
| `PdfPageFacts.MonthYearAugust2025` | src/graphing/pdfPage.js:4-9 | month index 7 of year 2025 gives "August 2025" |
| `PdfPageFacts.CoverDates` | src/graphing/pdfPage.js:13-17 | after the cover is composed, its title is "Technology Radar" and both date fields hold the same string, which reads back as `now` |
| `PdfPageFacts.ComposeCoverIdempotent` | src/graphing/pdfPage.js:12-18 | composing the cover twice gives the same document as composing it once |
| `PdfPageFacts.NumberedHeadingRoundTrip` | src/graphing/pdfPage.js:50 | a heading written as the decimal n, then ". ", then a title t splits back into exactly n and t |
| `PdfPageFacts.ThemeHeadingRoundTrip` | src/graphing/pdfPage.js:50 | the heading of theme block k splits as the number k + 1, then ". ", then the record's title column |
| `PdfPageFacts.ThemeHeadingsDistinct` | src/graphing/pdfPage.js:50 | two theme blocks at different positions have different headings, whatever their titles |
| `PdfPageFacts.ThemesExample` | src/graphing/pdfPage.js:44-55 | records (A, d1) and (B, d2) give exactly two blocks, headed "1. A" and "2. B", with bodies d1 and d2 |
| `PdfPageFacts.BindPrefix` | src/graphing/pdfPage.js:44 | binding the first n records gives the first n blocks of binding all of them, so record order is block order |
| `PdfPageFacts.AboutBindAppend` | src/graphing/pdfPage.js:74-85 | about blocks are unnumbered: binding a + b gives the blocks of a followed by the blocks of b |
| `PdfPageFacts.ThemesBindAppend` | src/graphing/pdfPage.js:44-50 | in a + b, the theme block of b's record k carries the number (length of a) + k + 1 |
| `PdfPageFacts.LoadFailureUnchanged` | src/graphing/pdfPage.js:34-37 | a non-ok or throwing response leaves the whole document unchanged, for both loaders |
| `PdfPageFacts.LoadIdempotent` | src/graphing/pdfPage.js:41-42 | the region is cleared before it is filled, so loading the same response twice equals loading it once, for both loaders |
| `PdfPageFacts.LoadersCommute` | src/graphing/pdfPage.js:91-96 | the two loaders write disjoint regions, so either order of completion gives the same document |
| `PdfPageFacts.QuadrantNameStacks` | src/graphing/pdfPage.js:24-29 | inserting a name twice leaves both name nodes, newest first, in front of the original children; the insertion is not idempotent |

## Left out

- Network retrieval (`fetch`, `response.text()` and the status check) is not modelled. Its outcome is the `Response` input.
- CSV decoding (`d3.csvParse`) is a library call outside this model. The decoded records are the input.
- d3 selection semantics are not modelled: selector matching, `.html('')`, `.append`, `.insert` and attribute setting. Each becomes an assignment to an abstract region field. A block's and a name node's class attributes are fields of the `Element` and `Block` values.
- Absent template elements are not modelled. The cover fields, the link anchor and the two content containers are assumed present; with one missing, d3 would write nothing. Absent quadrant tables are modelled: an order with no table changes nothing.
- `console.warn` diagnostics are not modelled: they only report.
- `new Date()` and `window.location.href` are not read. They are the `Date` and location parameters.
- Concurrency is not modelled. `initializePdfContent` awaits both loaders with `Promise.all`; the model runs them one after the other, and `LoadersCommute` shows that the order does not matter.
- A subtitle argument that is not a string is not modelled. A truthy number, say, would be written as its text; the model takes an optional string.
- `Decimal.IntToString` does not render numbers of magnitude 10^21 or more in exponent form, as JavaScript does. Those cannot occur as a year or a list position.
- The radar snapshot and the index builder are not part of this model. That code is not in `src/graphing/pdfPage.js`.
