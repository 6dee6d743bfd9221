/**
 * The core list page: its table filter (search text, line, symmetry), the line choices
 * offered, the weight-range and per-weight lookups, and the expand and view toggles.
 *
 * As on the product list, the filter string is a stringified record; the model keeps
 * the record.
 */
module CoreSpecs {
  import opened Wrappers
  import opened Models
  import Text
  import Seqs
  import CoreStore

  /** The record `updateFilter` encodes; `search` is already lower-cased. */
  datatype FilterTerms = FilterTerms(search: string, line: string, coreType: string)

  /** The table's `filter`: empty (every row shows) or an encoded record. */
  datatype TableFilter = NoFilter | Terms(terms: FilterTerms)

  datatype ViewMode = Table | Card

  /** The record `updateFilter` encodes from the three inputs. */
  function TermsOf(query: string, line: string, coreType: string): (t: FilterTerms)
    ensures t.search == Text.LowerStr(query) && t.line == line && t.coreType == coreType
  {
    FilterTerms(Text.LowerStr(query), line, coreType)
  }

  /** The search test: no text, or it occurs in the lower-cased name or in the core number as text (not lower-cased). */
  predicate MatchesSearch(c: Core, search: string)
    ensures MatchesSearch(c, search) ==> CoreStore.SearchMatches(c, search)
  {
    Text.EmptyContained(Text.LowerStr(c.marketingName));
    || search == ""
    || Text.Contains(Text.LowerStr(c.marketingName), search)
    || Text.Contains(CodeString(c.coreNumber), search)
  }

  /** The type test: no type, or `symmetric` with a symmetric core, or `asymmetric` with an asymmetric one. */
  predicate MatchesType(c: Core, coreType: string)
    ensures coreType == "symmetric" ==> (MatchesType(c, coreType) <==> c.isSymmetric)
    ensures coreType == "asymmetric" ==> (MatchesType(c, coreType) <==> !c.isSymmetric)
    ensures coreType != "" && coreType != "symmetric" && coreType != "asymmetric" ==> !MatchesType(c, coreType)
  {
    || coreType == ""
    || (coreType == "symmetric" && c.isSymmetric)
    || (coreType == "asymmetric" && !c.isSymmetric)
  }

  /** The filter predicate: search, line and type tests together; an empty line imposes nothing. */
  predicate Matches(c: Core, t: FilterTerms)
    ensures Matches(c, t) ==> CoreStore.SearchMatches(c, t.search)
    ensures t.search == "" && t.line == "" ==> (Matches(c, t) <==> MatchesType(c, t.coreType))
  {
    MatchesSearch(c, t.search) && (t.line == "" || c.line == t.line) && MatchesType(c, t.coreType)
  }

  /** The rows the table shows under a filter, in data order (before sorting and paging). */
  function VisibleCores(rows: seq<Core>, f: TableFilter): (r: seq<Core>)
    ensures f.NoFilter? ==> r == rows
    ensures f.Terms? ==> forall c :: c in r <==> c in rows && Matches(c, f.terms)
    ensures Seqs.IsSubseq(r, rows)
  {
    match f
    case NoFilter => assert Seqs.Filter(rows, (c: Core) => true) == rows by {
        Seqs.FilterAll(rows, (c: Core) => true);
      }
      Seqs.Filter(rows, (c: Core) => true)
    case Terms(t) => Seqs.Filter(rows, (c: Core) => Matches(c, t))
  }

  /** The two type choices alone show exactly the store's symmetric and asymmetric lists. */
  lemma TypeFilterIsStoreSplit(rows: seq<Core>)
    ensures VisibleCores(rows, Terms(TermsOf("", "", "symmetric"))) == CoreStore.SymmetricCores(rows)
    ensures VisibleCores(rows, Terms(TermsOf("", "", "asymmetric"))) == CoreStore.AsymmetricCores(rows)
  {
    assert Text.LowerStr("") == "";
    var sym, asym := TermsOf("", "", "symmetric"), TermsOf("", "", "asymmetric");
    Seqs.FilterCongruent(rows, (c: Core) => Matches(c, sym), (c: Core) => c.isSymmetric);
    Seqs.FilterCongruent(rows, (c: Core) => Matches(c, asym), (c: Core) => !c.isSymmetric);
  }

  /** A type other than the two choices shows no row at all. */
  lemma UnknownTypeShowsNothing(rows: seq<Core>, t: FilterTerms)
    requires t.coreType != "" && t.coreType != "symmetric" && t.coreType != "asymmetric"
    ensures VisibleCores(rows, Terms(t)) == []
  {
    Seqs.FilterNone(rows, (c: Core) => Matches(c, t));
  }

  /** Every row the page's search shows is also found by the store's `search`, which also looks at the line. */
  lemma SearchWithinStoreSearch(rows: seq<Core>, query: string)
    ensures forall c :: c in VisibleCores(rows, Terms(TermsOf(query, "", ""))) ==> c in CoreStore.Search(rows, query)
  {
    forall c | c in VisibleCores(rows, Terms(TermsOf(query, "", "")))
      ensures CoreStore.SearchMatches(c, Text.LowerStr(query))
    {
      if Text.LowerStr(query) == "" {
        Text.EmptyContained(Text.LowerStr(c.marketingName));
      }
    }
  }

  /** The line of every core, in order. */
  function LinesOf(cores: seq<Core>): (r: seq<string>)
    ensures |r| == |cores| && forall i :: 0 <= i < |cores| ==> r[i] == cores[i].line
  {
    seq(|cores|, i requires 0 <= i < |cores| => cores[i].line)
  }

  /** `[...new Set(cores.map(c => c.line).filter(Boolean))]`: the distinct non-empty lines. */
  function UniqueLines(cores: seq<Core>): (r: seq<string>)
    ensures Seqs.NoDup(r)
    ensures forall l :: l in r <==> l != "" && exists c :: c in cores && c.line == l
  {
    var lines := LinesOf(cores);
    var present := Seqs.Filter(lines, (l: string) => l != "");
    assert forall l :: l in lines <==> exists c :: c in cores && c.line == l by {
      forall l | l in lines ensures exists c :: c in cores && c.line == l {
        var i :| 0 <= i < |lines| && lines[i] == l;
        assert cores[i] in cores;
      }
    }
    Seqs.Dedup(present)
  }

  /** The offered lines come out in the order each first appears among the cores' non-empty lines. */
  lemma UniqueLinesInFirstOccurrenceOrder(cores: seq<Core>)
    ensures var present := Seqs.Filter(LinesOf(cores), (l: string) => l != "");
      forall i, j :: 0 <= i < j < |UniqueLines(cores)| ==>
        Seqs.IndexOf(present, UniqueLines(cores)[i]) < Seqs.IndexOf(present, UniqueLines(cores)[j])
  {
    Seqs.DedupFirstOccurrenceOrder(Seqs.Filter(LinesOf(cores), (l: string) => l != ""));
  }

  /** `getSpec(core, w)`: the first spec of that exact weight, or none. */
  function GetSpec(core: Core, weight: int): (r: Option<CoreWeightSpec>)
    ensures r.None? <==> forall s :: s in core.specs ==> s.weight != weight
    ensures r.Some? ==> r.value in core.specs && r.value.weight == weight
    ensures r.Some? ==> exists i :: 0 <= i < |core.specs| && core.specs[i] == r.value &&
                                    forall j :: 0 <= j < i ==> core.specs[j].weight != weight
  {
    Seqs.Find(core.specs, (s: CoreWeightSpec) => s.weight == weight)
  }

  /** The heaviest weight in a non-empty spec list (the first after sorting descending). */
  function MaxWeight(specs: seq<CoreWeightSpec>): (w: int)
    requires |specs| > 0
    ensures exists i :: 0 <= i < |specs| && specs[i].weight == w
    ensures forall i :: 0 <= i < |specs| ==> specs[i].weight <= w
  {
    if |specs| == 1 then specs[0].weight
    else
      var rest := MaxWeight(specs[1..]);
      assert forall i :: 1 <= i < |specs| ==> specs[i] == specs[1..][i - 1];
      if specs[0].weight >= rest then specs[0].weight else rest
  }

  /** The lightest weight in a non-empty spec list (the last after sorting descending). */
  function MinWeight(specs: seq<CoreWeightSpec>): (w: int)
    requires |specs| > 0
    ensures exists i :: 0 <= i < |specs| && specs[i].weight == w
    ensures forall i :: 0 <= i < |specs| ==> w <= specs[i].weight
  {
    if |specs| == 1 then specs[0].weight
    else
      var rest := MinWeight(specs[1..]);
      assert forall i :: 1 <= i < |specs| ==> specs[i] == specs[1..][i - 1];
      if specs[0].weight <= rest then specs[0].weight else rest
  }

  /** `getWeightRange`: `-` without specs, otherwise heaviest, dash, lightest, ` lb`. */
  function WeightRange(core: Core): (r: string)
    ensures |core.specs| == 0 <==> r == "-"
    ensures |core.specs| > 0 ==>
      r == Text.IntToString(MaxWeight(core.specs)) + "-" + Text.IntToString(MinWeight(core.specs)) + " lb"
  {
    if |core.specs| == 0 then "-"
    else
      var r := Text.IntToString(MaxWeight(core.specs)) + "-" + Text.IntToString(MinWeight(core.specs)) + " lb";
      assert r[|r| - 1] == 'b';
      r
  }

  /** A core with a single weight shows that weight at both ends. */
  lemma SingleWeightRange(core: Core)
    requires |core.specs| == 1
    ensures WeightRange(core) == Text.IntToString(core.specs[0].weight) + "-" + Text.IntToString(core.specs[0].weight) + " lb"
  {
  }

  /** The expanded core after `toggleExpand(core)`: collapsed if it was the one expanded, otherwise that core. */
  function Toggled(expanded: Option<Core>, core: Core): (r: Option<Core>)
    ensures r.Some? <==> expanded != Some(core)
    ensures r.Some? ==> r.value == core
  {
    if expanded == Some(core) then None else Some(core)
  }

  /** Toggling the same core twice gives back the previous state exactly when nothing or that core was expanded. */
  lemma ToggleTwice(expanded: Option<Core>, core: Core)
    ensures Toggled(Toggled(expanded, core), core) == expanded <==> expanded.None? || expanded == Some(core)
    ensures expanded.Some? && expanded != Some(core) ==> Toggled(Toggled(expanded, core), core).None?
  {
  }

  function OtherView(v: ViewMode): (r: ViewMode)
    ensures r != v
  {
    if v == Table then Card else Table
  }

  class CoreSpecsComponent {
    var rows: seq<Core>
    var lines: seq<string>
    var viewMode: ViewMode
    var searchQuery: string
    var selectedLine: string
    var selectedType: string
    var filter: TableFilter
    var expandedCore: Option<Core>

    /** Construction and `ngOnInit`: the table holds the store's cores and the line choices are extracted. */
    constructor (cores: seq<Core>)
      ensures rows == cores && lines == UniqueLines(cores)
      ensures viewMode == Table && filter == NoFilter && expandedCore.None?
      ensures searchQuery == "" && selectedLine == "" && selectedType == ""
    {
      rows := cores;
      lines := UniqueLines(cores);
      viewMode := Table;
      searchQuery := "";
      selectedLine := "";
      selectedType := "";
      filter := NoFilter;
      expandedCore := None;
    }

    /** The rows the table currently shows. */
    function Visible(): seq<Core>
      reads this
    {
      VisibleCores(rows, filter)
    }

    /** The `cores$` subscription: new rows and freshly extracted line choices. */
    method OnCoresChanged(cores: seq<Core>)
      modifies this
      ensures rows == cores && lines == UniqueLines(cores)
      ensures filter == old(filter) && viewMode == old(viewMode) && expandedCore == old(expandedCore)
      ensures searchQuery == old(searchQuery) && selectedLine == old(selectedLine) && selectedType == old(selectedType)
    {
      rows := cores;
      lines := UniqueLines(cores);
    }

    /** `toggleView`: table and card alternate. */
    method ToggleView()
      modifies this
      ensures viewMode == OtherView(old(viewMode)) && viewMode != old(viewMode)
      ensures rows == old(rows) && lines == old(lines) && filter == old(filter) && expandedCore == old(expandedCore)
      ensures searchQuery == old(searchQuery) && selectedLine == old(selectedLine) && selectedType == old(selectedType)
    {
      viewMode := if viewMode == Table then Card else Table;
    }

    /** `updateFilter` (called by `applyFilter`, `applyLineFilter` and `applyTypeFilter`): the three inputs become the filter. */
    method UpdateFilter()
      modifies this
      ensures filter == Terms(TermsOf(searchQuery, selectedLine, selectedType))
      ensures forall c :: c in Visible() <==> c in rows && Matches(c, filter.terms)
      ensures rows == old(rows) && lines == old(lines) && viewMode == old(viewMode) && expandedCore == old(expandedCore)
      ensures searchQuery == old(searchQuery) && selectedLine == old(selectedLine) && selectedType == old(selectedType)
    {
      filter := Terms(TermsOf(searchQuery, selectedLine, selectedType));
    }

    /** `toggleExpand(core)`. */
    method ToggleExpand(core: Core)
      modifies this
      ensures expandedCore == Toggled(old(expandedCore), core)
      ensures rows == old(rows) && lines == old(lines) && filter == old(filter) && viewMode == old(viewMode)
      ensures searchQuery == old(searchQuery) && selectedLine == old(selectedLine) && selectedType == old(selectedType)
    {
      expandedCore := if expandedCore == Some(core) then None else Some(core);
    }
  }
}
