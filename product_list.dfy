/**
 * The product list: the table's composite filter (search text, brand, coverstock type
 * and release type), applying and clearing it, the active-filter test, and the text
 * spec sheet with its download file name.
 *
 * The table's filter string is the `JSON.stringify` of a four-field record, read back
 * with `JSON.parse` by the filter predicate; the model keeps the record itself.
 */
module ProductList {
  import opened Models
  import Text
  import Seqs
  import BallStore

  /** The record the filter string encodes; `search` is already lower-cased. */
  datatype FilterTerms = FilterTerms(search: string, brand: string, coverstockType: string, releaseType: string)

  /** The table's `filter`: the empty string (every row shows) or an encoded record. */
  datatype TableFilter = NoFilter | Terms(terms: FilterTerms)

  /** The record `applyFilters` encodes from the four inputs. */
  function TermsOf(query: string, brand: string, coverstockType: string, releaseType: string): (t: FilterTerms)
    ensures t.search == Text.LowerStr(query)
    ensures t.brand == brand && t.coverstockType == coverstockType && t.releaseType == releaseType
  {
    FilterTerms(Text.LowerStr(query), brand, coverstockType, releaseType)
  }

  /** The search test: no search text, or it occurs in the lower-cased name, coverstock, core or brand. */
  predicate MatchesSearch(b: Ball, search: string)
    ensures MatchesSearch(b, search) <==> search == "" || BallStore.MatchesQuery(b, search)
  {
    || search == ""
    || Text.Contains(Text.LowerStr(b.ballName), search)
    || Text.Contains(Text.LowerStr(b.coverstock), search)
    || Text.Contains(Text.LowerStr(b.core), search)
    || Text.Contains(Text.LowerStr(b.brand), search)
  }

  /** The filter predicate: all four tests; an empty brand, type or release term imposes nothing. */
  predicate Matches(b: Ball, t: FilterTerms)
    ensures t.brand == "" && t.coverstockType == "" && t.releaseType == "" ==> (Matches(b, t) <==> MatchesSearch(b, t.search))
  {
    && MatchesSearch(b, t.search)
    && (t.brand == "" || b.brand == t.brand)
    && (t.coverstockType == "" || b.coverstockType == t.coverstockType)
    && (t.releaseType == "" || b.releaseType == t.releaseType)
  }

  /** The rows the table shows under a filter, in data order (before sorting and paging). */
  function VisibleRows(rows: seq<Ball>, f: TableFilter): (r: seq<Ball>)
    ensures f.NoFilter? ==> r == rows
    ensures f.Terms? ==> forall b :: b in r <==> b in rows && Matches(b, f.terms)
    ensures Seqs.IsSubseq(r, rows)
  {
    match f
    case NoFilter => assert Seqs.Filter(rows, (b: Ball) => true) == rows by {
        Seqs.FilterAll(rows, (b: Ball) => true);
      }
      Seqs.Filter(rows, (b: Ball) => true)
    case Terms(t) => Seqs.Filter(rows, (b: Ball) => Matches(b, t))
  }

  /** Encoding filters with every input empty shows every row, as clearing the filter does. */
  lemma EmptyTermsShowAll(rows: seq<Ball>)
    ensures VisibleRows(rows, Terms(TermsOf("", "", "", ""))) == VisibleRows(rows, NoFilter) == rows
  {
    Seqs.FilterAll(rows, (b: Ball) => Matches(b, TermsOf("", "", "", "")));
  }

  /** With no brand, type or release filter, the table shows exactly what the store's `search` returns. */
  lemma SearchOnlyIsStoreSearch(rows: seq<Ball>, query: string)
    ensures VisibleRows(rows, Terms(TermsOf(query, "", "", ""))) == BallStore.Search(rows, query)
  {
    var t := TermsOf(query, "", "", "");
    forall b | b in rows ensures Matches(b, t) == BallStore.MatchesQuery(b, Text.LowerStr(query)) {
      if query == "" {
        Text.EmptyContained(Text.LowerStr(b.ballName));
      }
    }
    Seqs.FilterCongruent(rows, (b: Ball) => Matches(b, t), (b: Ball) => BallStore.MatchesQuery(b, Text.LowerStr(query)));
  }

  /** The search text is compared case-insensitively: upper-casing letters of the query changes nothing. */
  lemma SearchIgnoresCase(query: string, brand: string, coverstockType: string, releaseType: string)
    ensures TermsOf(query, brand, coverstockType, releaseType) == TermsOf(Text.LowerStr(query), brand, coverstockType, releaseType)
  {
    Text.LowerIdempotent(query);
  }

  /** `t'` keeps the search of `t` and every non-empty term of `t`, possibly adding more. */
  predicate Refines(t': FilterTerms, t: FilterTerms) {
    && t'.search == t.search
    && (t.brand != "" ==> t'.brand == t.brand)
    && (t.coverstockType != "" ==> t'.coverstockType == t.coverstockType)
    && (t.releaseType != "" ==> t'.releaseType == t.releaseType)
  }

  /** Choosing an additional brand, type or release filter never shows more rows. */
  lemma RefiningNarrows(rows: seq<Ball>, t': FilterTerms, t: FilterTerms)
    requires Refines(t', t)
    ensures forall b :: b in VisibleRows(rows, Terms(t')) ==> b in VisibleRows(rows, Terms(t))
    ensures |VisibleRows(rows, Terms(t'))| <= |VisibleRows(rows, Terms(t))|
  {
    Seqs.FilterNarrower(rows, (b: Ball) => Matches(b, t), (b: Ball) => Matches(b, t'));
  }

  class ProductListComponent {
    var rows: seq<Ball>
    var searchQuery: string
    var selectedBrand: string
    var selectedType: string
    var selectedReleaseType: string
    var filter: TableFilter
    var hasPaginator: bool
    var pageIndex: nat

    /** Construction and `ngOnInit`: the table holds the store's products, no filter is set and no paginator is attached yet. */
    constructor (balls: seq<Ball>)
      ensures rows == balls && filter == NoFilter && !HasActiveFilters()
      ensures searchQuery == "" && !hasPaginator && pageIndex == 0
    {
      rows := balls;
      searchQuery := "";
      selectedBrand := "";
      selectedType := "";
      selectedReleaseType := "";
      filter := NoFilter;
      hasPaginator := false;
      pageIndex := 0;
    }

    /** The rows the table currently shows. */
    function Visible(): seq<Ball>
      reads this
    {
      VisibleRows(rows, filter)
    }

    /** `hasActiveFilters`: a brand, type or release filter is chosen; the search text does not count. */
    predicate HasActiveFilters()
      reads this
      ensures HasActiveFilters() <==>
        TermsOf(searchQuery, selectedBrand, selectedType, selectedReleaseType) != TermsOf(searchQuery, "", "", "")
    {
      selectedBrand != "" || selectedType != "" || selectedReleaseType != ""
    }

    /** The `balls$` subscription: the table takes the store's new product list. */
    method OnBallsChanged(balls: seq<Ball>)
      modifies this
      ensures rows == balls && filter == old(filter) && pageIndex == old(pageIndex)
      ensures searchQuery == old(searchQuery) && selectedBrand == old(selectedBrand)
      ensures selectedType == old(selectedType) && selectedReleaseType == old(selectedReleaseType)
      ensures hasPaginator == old(hasPaginator)
    {
      rows := balls;
    }

    /**
     * `ngAfterViewInit`: the paginator is attached if the first view rendered it, which it
     * does only when the store was not loading. `dataSource.paginator` is assigned only
     * here, once, so a paginator rendered after loading ends is never attached to the table.
     */
    method AfterViewInit(loading: bool)
      modifies this
      ensures hasPaginator == !loading && rows == old(rows) && filter == old(filter) && pageIndex == old(pageIndex)
      ensures searchQuery == old(searchQuery) && selectedBrand == old(selectedBrand)
      ensures selectedType == old(selectedType) && selectedReleaseType == old(selectedReleaseType)
    {
      hasPaginator := !loading;
    }

    /** `applyFilters`: the four inputs become the filter, and an attached paginator returns to the first page. */
    method ApplyFilters()
      modifies this
      ensures filter == Terms(TermsOf(searchQuery, selectedBrand, selectedType, selectedReleaseType))
      ensures forall b :: b in Visible() <==> b in rows && Matches(b, filter.terms)
      ensures pageIndex == if hasPaginator then 0 else old(pageIndex)
      ensures rows == old(rows) && hasPaginator == old(hasPaginator)
      ensures searchQuery == old(searchQuery) && selectedBrand == old(selectedBrand)
      ensures selectedType == old(selectedType) && selectedReleaseType == old(selectedReleaseType)
    {
      filter := Terms(TermsOf(searchQuery, selectedBrand, selectedType, selectedReleaseType));
      if hasPaginator {
        pageIndex := 0;
      }
    }

    /** `clearSearch`: only the search text is cleared, then the filters are applied again. */
    method ClearSearch()
      modifies this
      ensures searchQuery == ""
      ensures filter == Terms(TermsOf("", selectedBrand, selectedType, selectedReleaseType))
      ensures selectedBrand == old(selectedBrand) && selectedType == old(selectedType)
      ensures selectedReleaseType == old(selectedReleaseType) && HasActiveFilters() == old(HasActiveFilters())
      ensures pageIndex == if hasPaginator then 0 else old(pageIndex)
      ensures rows == old(rows) && hasPaginator == old(hasPaginator)
    {
      searchQuery := "";
      ApplyFilters();
    }

    /** `clearFilters`: all four inputs and the filter are cleared, so every row shows; the page is not reset. */
    method ClearFilters()
      modifies this
      ensures searchQuery == "" && !HasActiveFilters() && filter == NoFilter
      ensures Visible() == rows
      ensures rows == old(rows) && hasPaginator == old(hasPaginator) && pageIndex == old(pageIndex)
    {
      searchQuery := "";
      selectedBrand := "";
      selectedType := "";
      selectedReleaseType := "";
      filter := NoFilter;
    }
  }

  /** With no active filter, applied filters show exactly the store's search results for the query. */
  lemma InactiveFiltersMeanSearch(c: ProductListComponent)
    requires !c.HasActiveFilters()
    requires c.filter == Terms(TermsOf(c.searchQuery, c.selectedBrand, c.selectedType, c.selectedReleaseType))
    ensures c.Visible() == BallStore.Search(c.rows, c.searchQuery)
  {
    SearchOnlyIsStoreSearch(c.rows, c.searchQuery);
  }

  /** A character the file-name pattern `[a-z0-9]` (case-insensitive) keeps. */
  predicate IsAsciiAlnum(c: char) {
    ('a' <= c <= 'z') || ('A' <= c <= 'Z') || ('0' <= c <= '9')
  }

  /** `name.replace(/[^a-z0-9]/gi, '_')`. */
  function Sanitized(name: string): (r: string)
    ensures |r| == |name|
    ensures forall i :: 0 <= i < |r| ==> IsAsciiAlnum(r[i]) || r[i] == '_'
    ensures forall i :: 0 <= i < |name| ==> (IsAsciiAlnum(name[i]) <==> r[i] == name[i] && name[i] != '_')
    ensures forall i :: 0 <= i < |name| && !IsAsciiAlnum(name[i]) ==> r[i] == '_'
  {
    seq(|name|, i requires 0 <= i < |name| => if IsAsciiAlnum(name[i]) then name[i] else '_')
  }

  /** A sanitised name is left alone by sanitising again. */
  lemma SanitizedIdempotent(name: string)
    ensures Sanitized(Sanitized(name)) == Sanitized(name)
  {
  }

  /** The download name of a product's spec sheet. */
  function ExportFileName(ballName: string): (r: string)
    ensures |r| == |ballName| + |"_spec_sheet.txt"|
    ensures r[..|ballName|] == Sanitized(ballName) && r[|ballName|..] == "_spec_sheet.txt"
  {
    Sanitized(ballName) + "_spec_sheet.txt"
  }

  /** The heavy and light rules framing the sheet, 63 box-drawing characters each. */
  const Heavy := "═══════════════════════════════════════════════════════════════"
  const Light := "───────────────────────────────────────────────────────────────"
  const NotesTitle := "                       SPECIAL NOTES"
  const DrillTitle := "                    DRILL INSTRUCTIONS"

  /** `value || 'N/A'`. */
  function OrNotAvailable(s: string): string {
    if s != "" then s else "N/A"
  }

  /** The 26 fixed lines opening the sheet: title block, identity, technical specifications, colour names. */
  function HeaderLines(b: Ball): (r: seq<string>)
    ensures |r| == 26
  {
    [ Heavy,
      "                    PRODUCT SPECIFICATION SHEET",
      "                      Storm Products, Inc.",
      Heavy,
      "",
      "Ball Name:        " + b.ballName,
      "Brand:            " + b.brand,
      "SKU:              " + OrNotAvailable(b.sku),
      "Release Type:     " + b.releaseType,
      "Line:             " + OrNotAvailable(b.line),
      "",
      Light,
      "                    TECHNICAL SPECIFICATIONS",
      Light,
      "",
      "Coverstock:       " + b.coverstock,
      "Coverstock Type:  " + OrNotAvailable(b.coverstockType),
      "Finish:           " + b.finish,
      "Core:             " + b.core,
      "",
      Light,
      "                         COLORS",
      Light,
      "",
      "Marketing Name:   " + OrNotAvailable(b.marketingColorName),
      "Pin Color:        " + OrNotAvailable(b.pinColor) ]
  }

  /** The line for the colour at position `i`, with ` (shade)` only when a shade is given. */
  function ColorLine(i: nat, c: BallColor): string {
    "Color " + Text.NatToString(i + 1) + ":          " + c.color + (if c.shade != "" then " (" + c.shade + ")" else "")
  }

  /** One line per colour, numbered by position. */
  function ColorLines(colors: seq<BallColor>): (r: seq<string>)
    ensures |r| == |colors|
    ensures forall i :: 0 <= i < |colors| ==> r[i] == ColorLine(i, colors[i])
  {
    if |colors| == 0 then [] else ColorLines(colors[..|colors| - 1]) + [ColorLine(|colors| - 1, colors[|colors| - 1])]
  }

  /** A titled section: blank line, rule, title, rule, blank line, body. */
  function SectionLines(title: string, body: string): seq<string> {
    ["", Light, title, Light, "", body]
  }

  function FooterLines(generatedAt: string): seq<string> {
    ["", Heavy, "Generated: " + generatedAt, "CONFIDENTIAL - Storm Products, Inc.", Heavy]
  }

  /** The sheet's lines for a product, generated at the local time text `generatedAt`. */
  function SpecSheetLines(b: Ball, generatedAt: string): (r: seq<string>)
    ensures |r| >= 26 + |b.colors| + 2 + 5
    ensures r[..26] == HeaderLines(b)
    ensures r[|r| - 5..] == FooterLines(generatedAt)
  {
    HeaderLines(b) + ColorLines(b.colors)
    + ["", "Fragrance:        " + OrNotAvailable(b.fragrance)]
    + (if b.specialNotes != "" then SectionLines(NotesTitle, b.specialNotes) else [])
    + (if b.drillInstructions != "" then SectionLines(DrillTitle, b.drillInstructions) else [])
    + FooterLines(generatedAt)
  }

  /**
   * The sheet's layout: one colour line per colour after the 26 header lines, then the
   * fragrance, then the notes and drilling sections exactly when those fields are set,
   * then the five footer lines.
   */
  lemma SpecSheetLayout(b: Ball, generatedAt: string)
    ensures var lines := SpecSheetLines(b, generatedAt);
      var n := |b.colors|;
      var notes := if b.specialNotes != "" then 6 else 0;
      var drill := if b.drillInstructions != "" then 6 else 0;
      && |lines| == 26 + n + 2 + notes + drill + 5
      && (forall i :: 0 <= i < n ==> lines[26 + i] == ColorLine(i, b.colors[i]))
      && lines[26 + n + 1] == "Fragrance:        " + OrNotAvailable(b.fragrance)
      && (b.specialNotes != "" ==> lines[28 + n..34 + n] == SectionLines(NotesTitle, b.specialNotes))
      && (b.drillInstructions != "" ==> lines[28 + n + notes..34 + n + notes] == SectionLines(DrillTitle, b.drillInstructions))
      && lines[|lines| - 3] == "Generated: " + generatedAt
  {
    var lines := SpecSheetLines(b, generatedAt);
    var n := |b.colors|;
    var head := HeaderLines(b) + ColorLines(b.colors) + ["", "Fragrance:        " + OrNotAvailable(b.fragrance)];
    var notes := if b.specialNotes != "" then SectionLines(NotesTitle, b.specialNotes) else [];
    var drill := if b.drillInstructions != "" then SectionLines(DrillTitle, b.drillInstructions) else [];
    assert lines == head + notes + drill + FooterLines(generatedAt);
    assert |head| == 28 + n;
    assert lines[28 + n..28 + n + |notes|] == notes;
    assert lines[28 + n + |notes|..28 + n + |notes| + |drill|] == drill;
  }

  /** The `forEach` over the colours: one line pushed per colour, in order. */
  method PushColorLines(lines: seq<string>, colors: seq<BallColor>) returns (out: seq<string>)
    ensures out == lines + ColorLines(colors)
  {
    out := lines;
    for i := 0 to |colors|
      invariant out == lines + ColorLines(colors[..i])
    {
      assert colors[..i + 1][..i] == colors[..i];
      out := out + [ColorLine(i, colors[i])];
    }
    assert colors[..|colors|] == colors;
  }

  /** `generateSpecSheet`: the lines pushed one section at a time, joined with newlines. */
  method GenerateSpecSheet(b: Ball, generatedAt: string) returns (sheet: string)
    ensures sheet == Text.Join(SpecSheetLines(b, generatedAt), "\n")
  {
    var lines := HeaderLines(b);
    lines := PushColorLines(lines, b.colors);
    lines := lines + ["", "Fragrance:        " + OrNotAvailable(b.fragrance)];
    ghost var upToFragrance := lines;
    if b.specialNotes != "" {
      lines := lines + SectionLines(NotesTitle, b.specialNotes);
    } else {
      assert lines == upToFragrance + [];
    }
    ghost var upToNotes := lines;
    if b.drillInstructions != "" {
      lines := lines + SectionLines(DrillTitle, b.drillInstructions);
    } else {
      assert lines == upToNotes + [];
    }
    lines := lines + FooterLines(generatedAt);
    sheet := Text.Join(lines, "\n");
  }
}
