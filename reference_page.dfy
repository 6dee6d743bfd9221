/**
 * The reference-data page: the three editable vocabularies (coverstocks, finishes,
 * weight blocks), each with an "add" input and a filter input, the filtered lists the
 * page shows, and the icon and style class of each coverstock type.
 *
 * The page reads the published reference data straight from the store it holds;
 * the filtered lists are its own fields (`filteredCoverstocks` and siblings), which
 * only `updateFilteredLists` recomputes. The store subscription and the completion
 * of a refresh both run that recomputation. Toast messages are left out.
 */
module ReferencePage {
  import opened Wrappers
  import opened Models
  import Text
  import Seqs
  import Storage
  import ReferenceStore

  type ListKind = ReferenceStore.ListKind

  /** The vocabularies the page lets the user extend and filter. */
  predicate Editable(kind: ListKind) {
    kind == ReferenceStore.Coverstocks || kind == ReferenceStore.Finishes || kind == ReferenceStore.WeightBlocks
  }

  /**
   * `filterList`: an empty filter keeps every item; otherwise the items whose
   * lower-cased text contains the lower-cased filter, in list order.
   */
  function FilterList(items: seq<string>, filter: string): (r: seq<string>)
    ensures filter == "" ==> r == items
    ensures forall x :: x in r <==> x in items && Text.ContainsIgnoringCase(x, filter)
    ensures Seqs.IsSubseq(r, items)
  {
    if filter == "" then
      assert forall x :: Text.ContainsIgnoringCase(x, filter) by {
        forall x ensures Text.ContainsIgnoringCase(x, filter) {
          Text.EmptyContained(Text.LowerStr(x));
        }
      }
      Seqs.FilterAll(items, (x: string) => Text.ContainsIgnoringCase(x, filter));
      items
    else
      Seqs.Filter(items, (x: string) => Text.ContainsIgnoringCase(x, filter))
  }

  /** The filter ignores the case of what was typed. */
  lemma FilterIgnoresCase(items: seq<string>, filter: string)
    ensures FilterList(items, Text.LowerStr(filter)) == FilterList(items, filter)
  {
    Text.LowerIdempotent(filter);
    if filter != "" {
      assert Text.LowerStr(filter) != "";
      Seqs.FilterCongruent(items, (x: string) => Text.ContainsIgnoringCase(x, Text.LowerStr(filter)),
                                  (x: string) => Text.ContainsIgnoringCase(x, filter));
    }
  }

  /** Typing more narrows the list: a filter containing another shows no more items. */
  lemma LongerFilterNarrows(items: seq<string>, filter: string, longer: string)
    requires Text.ContainsIgnoringCase(longer, filter)
    ensures |FilterList(items, longer)| <= |FilterList(items, filter)|
  {
    if filter == "" {
    } else {
      assert longer != "";
      forall x | Text.ContainsIgnoringCase(x, longer) ensures Text.ContainsIgnoringCase(x, filter) {
        Text.ContainsTransitive(Text.LowerStr(x), Text.LowerStr(longer), Text.LowerStr(filter));
      }
      Seqs.FilterNarrower(items, (x: string) => Text.ContainsIgnoringCase(x, filter),
                                 (x: string) => Text.ContainsIgnoringCase(x, longer));
    }
  }

  /** `getTypeClass`: the first of pearl, solid, hybrid, urethane that the lower-cased type contains. */
  function TypeClass(t: string): (c: string)
    ensures c in {"pearl", "solid", "hybrid", "urethane", ""}
    ensures c != "" ==> Text.Contains(Text.LowerStr(t), c)
    ensures c == "pearl" <==> Text.Contains(Text.LowerStr(t), "pearl")
    ensures c == "solid" <==>
      !Text.Contains(Text.LowerStr(t), "pearl") && Text.Contains(Text.LowerStr(t), "solid")
    ensures c == "hybrid" <==>
      (!Text.Contains(Text.LowerStr(t), "pearl") && !Text.Contains(Text.LowerStr(t), "solid")
       && Text.Contains(Text.LowerStr(t), "hybrid"))
    ensures c == "urethane" <==>
      (!Text.Contains(Text.LowerStr(t), "pearl") && !Text.Contains(Text.LowerStr(t), "solid")
       && !Text.Contains(Text.LowerStr(t), "hybrid") && Text.Contains(Text.LowerStr(t), "urethane"))
    ensures c == "" <==>
      (!Text.Contains(Text.LowerStr(t), "pearl") && !Text.Contains(Text.LowerStr(t), "solid")
       && !Text.Contains(Text.LowerStr(t), "hybrid") && !Text.Contains(Text.LowerStr(t), "urethane"))
  {
    var lower := Text.LowerStr(t);
    if Text.Contains(lower, "pearl") then "pearl"
    else if Text.Contains(lower, "solid") then "solid"
    else if Text.Contains(lower, "hybrid") then "hybrid"
    else if Text.Contains(lower, "urethane") then "urethane"
    else ""
  }

  /** `getTypeIcon`: the same tests in the same order, naming a Material icon. */
  function TypeIcon(t: string): (icon: string)
    ensures icon in {"blur_on", "circle", "blur_circular", "radio_button_checked", "lens"}
    ensures icon == IconForClass(TypeClass(t))
  {
    var lower := Text.LowerStr(t);
    if Text.Contains(lower, "pearl") then "blur_on"
    else if Text.Contains(lower, "solid") then "circle"
    else if Text.Contains(lower, "hybrid") then "blur_circular"
    else if Text.Contains(lower, "urethane") then "radio_button_checked"
    else "lens"
  }

  /** The icon each style class goes with. */
  function IconForClass(c: string): string {
    if c == "pearl" then "blur_on"
    else if c == "solid" then "circle"
    else if c == "hybrid" then "blur_circular"
    else if c == "urethane" then "radio_button_checked"
    else "lens"
  }

  /** Icon and class always agree, so two types share an icon exactly when they share a class. */
  lemma IconMatchesClass(a: string, b: string)
    ensures TypeIcon(a) == IconForClass(TypeClass(a))
    ensures TypeIcon(a) == TypeIcon(b) <==> TypeClass(a) == TypeClass(b)
  {
  }

  /** A string missing the first character of `sub` does not contain `sub`. */
  lemma AbsentFirstChar(s: string, sub: string)
    requires |sub| > 0 && sub[0] !in s
    ensures !Text.Contains(s, sub)
  {
    forall i | 0 <= i <= |s| - |sub| ensures !Text.OccursAt(s, sub, i) {
      assert s[i] in s;
      assert s[i..i + |sub|][0] == s[i];
    }
  }

  lemma PearlReactiveStyled()
    ensures TypeClass("Pearl Reactive") == "pearl"
  {
    assert Text.LowerStr("Pearl Reactive") == "pearl reactive";
    assert Text.OccursAt("pearl reactive", "pearl", 0);
  }

  lemma SolidReactiveStyled()
    ensures TypeClass("Solid Reactive") == "solid"
  {
    assert Text.LowerStr("Solid Reactive") == "solid reactive";
    assert Text.OccursAt("solid reactive", "solid", 0);
    AbsentFirstChar("solid reactive", "pearl");
  }

  lemma HybridReactiveStyled()
    ensures TypeClass("Hybrid Reactive") == "hybrid"
  {
    assert Text.LowerStr("Hybrid Reactive") == "hybrid reactive";
    assert Text.OccursAt("hybrid reactive", "hybrid", 0);
    AbsentFirstChar("hybrid reactive", "pearl");
    AbsentFirstChar("hybrid reactive", "solid");
  }

  /** The three default coverstock types get the pearl, solid and hybrid styles. */
  lemma DefaultTypesStyled()
    ensures var d := ReferenceStore.DefaultReferenceData();
      TypeClass(d.coverstockTypes[0]) == "pearl" && TypeClass(d.coverstockTypes[1]) == "solid"
      && TypeClass(d.coverstockTypes[2]) == "hybrid"
  {
    PearlReactiveStyled();
    SolidReactiveStyled();
    HybridReactiveStyled();
  }

  class ReferenceDataComponent {
    const service: ReferenceStore.ReferenceDataService

    var newCoverstock: string
    var newFinish: string
    var newWeightBlock: string

    var coverstockFilter: string
    var finishFilter: string
    var weightBlockFilter: string

    var filteredCoverstocks: seq<string>
    var filteredFinishes: seq<string>
    var filteredWeightBlocks: seq<string>

    /** The "add" input of a vocabulary. */
    function NewEntry(kind: ListKind): string
      requires Editable(kind)
      reads this
    {
      match kind
      case Coverstocks => newCoverstock
      case Finishes => newFinish
      case WeightBlocks => newWeightBlock
    }

    /** The filter input of a vocabulary. */
    function FilterText(kind: ListKind): string
      requires Editable(kind)
      reads this
    {
      match kind
      case Coverstocks => coverstockFilter
      case Finishes => finishFilter
      case WeightBlocks => weightBlockFilter
    }

    /** The list the page shows for a vocabulary. */
    function Shown(kind: ListKind): seq<string>
      requires Editable(kind)
      reads this
    {
      match kind
      case Coverstocks => filteredCoverstocks
      case Finishes => filteredFinishes
      case WeightBlocks => filteredWeightBlocks
    }

    /** Once data is published, each shown list is that vocabulary filtered by its current filter. */
    predicate Current()
      reads this, service
    {
      service.referenceData.Some? ==>
        && filteredCoverstocks == FilterList(service.referenceData.value.coverstocks, coverstockFilter)
        && filteredFinishes == FilterList(service.referenceData.value.finishes, finishFilter)
        && filteredWeightBlocks == FilterList(service.referenceData.value.weightBlocks, weightBlockFilter)
    }

    twostate predicate InputsUnchanged()
      reads this
    {
      && newCoverstock == old(newCoverstock) && newFinish == old(newFinish) && newWeightBlock == old(newWeightBlock)
      && coverstockFilter == old(coverstockFilter) && finishFilter == old(finishFilter)
      && weightBlockFilter == old(weightBlockFilter)
    }

    /** Every input but the "add" input of `kind` keeps its text. */
    twostate predicate OtherInputsUnchanged(kind: ListKind)
      reads this
    {
      && (kind != ReferenceStore.Coverstocks ==> newCoverstock == old(newCoverstock))
      && (kind != ReferenceStore.Finishes ==> newFinish == old(newFinish))
      && (kind != ReferenceStore.WeightBlocks ==> newWeightBlock == old(newWeightBlock))
      && coverstockFilter == old(coverstockFilter) && finishFilter == old(finishFilter)
      && weightBlockFilter == old(weightBlockFilter)
    }

    twostate predicate ShownUnchanged()
      reads this
    {
      && filteredCoverstocks == old(filteredCoverstocks) && filteredFinishes == old(filteredFinishes)
      && filteredWeightBlocks == old(filteredWeightBlocks)
    }

    /** Construction: empty inputs; the subscription fills the lists at once if data is already published. */
    constructor(service: ReferenceStore.ReferenceDataService)
      ensures this.service == service
      ensures newCoverstock == "" && newFinish == "" && newWeightBlock == ""
      ensures coverstockFilter == "" && finishFilter == "" && weightBlockFilter == ""
      ensures Current()
      ensures service.referenceData.None? ==>
        filteredCoverstocks == [] && filteredFinishes == [] && filteredWeightBlocks == []
    {
      this.service := service;
      newCoverstock, newFinish, newWeightBlock := "", "", "";
      coverstockFilter, finishFilter, weightBlockFilter := "", "", "";
      filteredCoverstocks, filteredFinishes, filteredWeightBlocks := [], [], [];
      new;
      UpdateFilteredLists();
    }

    /** `updateFilteredLists`: recompute the three lists, or do nothing before data is published. */
    method UpdateFilteredLists()
      modifies this
      ensures InputsUnchanged()
      ensures Current()
      ensures service.referenceData.None? ==> ShownUnchanged()
    {
      var data := service.referenceData;
      if data.None? {
        return;
      }
      filteredCoverstocks := FilterList(data.value.coverstocks, coverstockFilter);
      filteredFinishes := FilterList(data.value.finishes, finishFilter);
      filteredWeightBlocks := FilterList(data.value.weightBlocks, weightBlockFilter);
    }

    /**
     * `addCoverstock`, `addFinish`, `addWeightBlock`: a blank input does nothing;
     * otherwise the trimmed entry goes to the store, the input is cleared and the
     * lists are recomputed.
     */
    method Add(kind: ListKind, now: int, accepted: bool)
      requires Editable(kind)
      modifies this, service, service.storage
      ensures service.loading == old(service.loading)
      ensures Text.Trim(old(NewEntry(kind))) == "" ==>
        && service.referenceData == old(service.referenceData)
        && service.storage.store == old(service.storage.store)
        && InputsUnchanged() && ShownUnchanged()
      ensures Text.Trim(old(NewEntry(kind))) != "" ==>
        var item := Text.Trim(old(NewEntry(kind)));
        && (if old(service.referenceData).Some? && item !in ReferenceStore.ListOf(old(service.referenceData).value, kind) then
              && service.referenceData == Some(ReferenceStore.WithAdded(old(service.referenceData).value, kind, item))
              && service.storage.store == Storage.WrittenWithExpiry(old(service.storage.store), ReferenceStore.StorageKey,
                   Storage.Reference(service.referenceData.value), ReferenceStore.CacheTtl, now, accepted)
            else
              service.referenceData == old(service.referenceData) && service.storage.store == old(service.storage.store))
        && NewEntry(kind) == ""
        && OtherInputsUnchanged(kind)
        && Current()
        && (service.referenceData.None? ==> ShownUnchanged())
    {
      var item := Text.Trim(NewEntry(kind));
      if item == "" {
        return;
      }
      service.Add(kind, item, now, accepted);
      ClearEntry(kind);
      UpdateFilteredLists();
    }

    /** Empties the "add" input of one vocabulary. */
    method ClearEntry(kind: ListKind)
      requires Editable(kind)
      modifies this
      ensures NewEntry(kind) == ""
      ensures OtherInputsUnchanged(kind) && ShownUnchanged()
    {
      match kind {
        case Coverstocks => newCoverstock := "";
        case Finishes => newFinish := "";
        case WeightBlocks => newWeightBlock := "";
      }
    }

    /**
     * `refreshData`: the store drops its cache and starts the refetch; the subscription to
     * the published value runs at once on the value still published, so the lists are
     * recomputed from it.
     */
    method RefreshData()
      modifies this, service, service.storage
      ensures service.loading && service.referenceData == old(service.referenceData)
      ensures service.storage.store == Storage.Removed(old(service.storage.store), ReferenceStore.StorageKey)
      ensures InputsUnchanged() && Current()
      ensures service.referenceData.None? ==> ShownUnchanged()
    {
      service.RefreshFromApi();
      UpdateFilteredLists();
    }

    /** Typing in a filter input, as written: the binding updates the filter text and nothing else. */
    method SetFilterAsWritten(kind: ListKind, text: string)
      requires Editable(kind)
      modifies this
      ensures FilterText(kind) == text
      ensures forall k :: Editable(k) && k != kind ==> FilterText(k) == old(FilterText(k))
      ensures forall k :: Editable(k) ==> NewEntry(k) == old(NewEntry(k))
      ensures ShownUnchanged()
    {
      match kind
      case Coverstocks => coverstockFilter := text;
      case Finishes => finishFilter := text;
      case WeightBlocks => weightBlockFilter := text;
    }

    /** Typing in a filter input, as intended: the filter text changes and the lists follow it. */
    method SetFilter(kind: ListKind, text: string)
      requires Editable(kind)
      modifies this
      ensures FilterText(kind) == text
      ensures forall k :: Editable(k) && k != kind ==> FilterText(k) == old(FilterText(k))
      ensures forall k :: Editable(k) ==> NewEntry(k) == old(NewEntry(k))
      ensures Current()
    {
      SetFilterAsWritten(kind, text);
      UpdateFilteredLists();
    }
  }

  /**
   * With the binding as written, a loaded coverstock list `["Solid"]` shown under an
   * empty filter stays shown after typing "pearl", although no entry matches "pearl".
   */
  lemma StaleFilterShowsNonMatching()
    ensures FilterList(["Solid"], "") == ["Solid"]
    ensures FilterList(["Solid"], "pearl") == []
  {
    assert Text.LowerStr("Solid") == "solid";
    assert Text.LowerStr("pearl") == "pearl";
    AbsentFirstChar("solid", "pearl");
    assert !Text.ContainsIgnoringCase("Solid", "pearl");
    Seqs.FilterNone(["Solid"], (x: string) => Text.ContainsIgnoringCase(x, "pearl"));
  }
}
