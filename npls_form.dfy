/**
 * The product form: its scalar fields, the colour list (at most four entries,
 * renumbered on removal), loading a product for editing, core selection, submission
 * and reset.
 *
 * The Angular form group is the record `form` plus the colour array `colors`. Route
 * parameters, the reference coverstock list and the save timestamp and identifier are
 * inputs. Snack-bar messages are left out; navigating back to the list is the flag
 * `leftForm`.
 */
module ProductForm {
  import opened Wrappers
  import opened Models
  import Text
  import Seqs
  import BallStore
  import CoreStore
  import Storage

  /** The values of the scalar form controls; a `null` control reads as the empty string, a `null` date as none. */
  datatype FormValue = FormValue(
    ballName: string,
    brand: string,
    line: string,
    sku: string,
    releaseType: string,
    releaseDate: Option<string>,
    coverstock: string,
    coverstockType: string,
    finish: string,
    productionFinish: string,
    core: string,
    coreNumber: CodeValue,
    weightBlockNumber: CodeValue,
    marketingColorName: string,
    pinColor: string,
    fragrance: string,
    fragranceMarketing: string,
    logos: Logos,
    specialNotes: string,
    drillInstructions: string)

  /**
   * The initial control values of `initForm`. `reset({brand: 'Storm', releaseType: 'OEM'})`
   * sets every other control to `null`, which this record reads as `""` (a date as none),
   * so in this model the reset form is this record too.
   */
  const InitialForm := FormValue(
    ballName := "", brand := "Storm", line := "", sku := "", releaseType := "OEM", releaseDate := None,
    coverstock := "", coverstockType := "", finish := "", productionFinish := "",
    core := "", coreNumber := NoCode, weightBlockNumber := NoCode,
    marketingColorName := "", pinColor := "", fragrance := "", fragranceMarketing := "",
    logos := EmptyLogos, specialNotes := "", drillInstructions := "")

  /** `createColorGroup` once the form exists: numbered one past the current length, colour and shade empty. */
  function NewColorEntry(len: nat): (r: BallColor)
    ensures r.colorNumber == len + 1 && r.colorNumber > len
    ensures r.color == "" && r.shade == ""
  {
    BallColor(len + 1, "", "")
  }

  /** The colour entries are numbered 1, 2, ... by position. */
  predicate Consecutive(colors: seq<BallColor>) {
    forall k :: 0 <= k < |colors| ==> colors[k].colorNumber == k + 1
  }

  /** Each entry renumbered to its position plus one, everything else kept. */
  function Renumbered(colors: seq<BallColor>): (r: seq<BallColor>)
    ensures |r| == |colors| && Consecutive(r)
    ensures forall k :: 0 <= k < |r| ==> r[k].color == colors[k].color && r[k].shade == colors[k].shade
  {
    seq(|colors|, k requires 0 <= k < |colors| => colors[k].(colorNumber := k + 1))
  }

  /** What `initForm` and `createColorGroup` see of the form group: not yet assigned, or assigned with or without a `colors` control. */
  datatype FormGroupState = Unassigned | Assigned(colorsControl: Option<seq<BallColor>>)

  /**
   * `createColorGroup` as written: `this.colorsArray?.length + 1 || 1`, where the
   * `colorsArray` getter calls `this.form.get('colors')`. On an unassigned form that call
   * throws (none); a missing `colors` control gives `NaN`, falsy, hence 1.
   */
  function CreateColorGroupAsWritten(form: FormGroupState): (r: Option<BallColor>)
    ensures form.Unassigned? <==> r.None?
    ensures form.Assigned? && form.colorsControl.Some? ==> r == Some(NewColorEntry(|form.colorsControl.value|))
    ensures form.Assigned? && form.colorsControl.None? ==> r == Some(NewColorEntry(0))
  {
    match form
    case Unassigned => None
    case Assigned(cc) => Some(BallColor(if cc.Some? then |cc.value| + 1 else 1, "", ""))
  }

  /**
   * `initForm` as written: the colour array's first group is created while the argument
   * of `this.fb.group(...)` is being evaluated, before `this.form` is assigned.
   */
  function InitFormAsWritten(current: FormGroupState): (r: Option<(FormValue, seq<BallColor>)>)
    ensures r.None? <==> current.Unassigned?
    ensures r.Some? ==> r.value.0 == InitialForm && |r.value.1| == 1
  {
    var first := CreateColorGroupAsWritten(current);
    if first.None? then None else Some((InitialForm, [first.value]))
  }

  /** As written, `initForm` throws on its first run (from `ngOnInit`, with no form yet), so the form is never built. */
  lemma InitFormThrows()
    ensures InitFormAsWritten(Unassigned).None?
  {
  }

  /** The colours a loaded product puts in the form: its own, or one new empty entry when it has none. */
  function LoadedColors(b: Ball): (r: seq<BallColor>)
    ensures |r| >= 1
    ensures |b.colors| > 0 ==> r == b.colors
    ensures |b.colors| == 0 ==> r == [BallColor(1, "", "")]
  {
    if |b.colors| > 0 then b.colors else [NewColorEntry(0)]
  }

  /**
   * `patchValue` with a product, corrected to copy the core and weight-block numbers as
   * well. A `logos` value of `{}` (the product has none) leaves the logo controls as they were.
   */
  function PatchedForm(f: FormValue, b: Ball): (r: FormValue)
    ensures r.ballName == b.ballName && r.brand == b.brand && r.line == b.line && r.sku == b.sku
    ensures r.releaseType == b.releaseType && r.coverstock == b.coverstock && r.core == b.core
    ensures r.coreNumber == b.coreNumber && r.weightBlockNumber == b.weightBlockNumber
    ensures r.releaseDate.None? <==> b.releaseDate == ""
    ensures r.releaseDate.Some? ==> r.releaseDate.value == b.releaseDate
    ensures b.logos.Some? ==> r.logos == b.logos.value
    ensures b.logos.None? ==> r.logos == f.logos
  {
    FormValue(
      ballName := b.ballName, brand := b.brand, line := b.line, sku := b.sku,
      releaseType := b.releaseType,
      releaseDate := if b.releaseDate != "" then Some(b.releaseDate) else None,
      coverstock := b.coverstock, coverstockType := b.coverstockType,
      finish := b.finish, productionFinish := b.productionFinish,
      core := b.core, coreNumber := b.coreNumber, weightBlockNumber := b.weightBlockNumber,
      marketingColorName := b.marketingColorName, pinColor := b.pinColor,
      fragrance := b.fragrance, fragranceMarketing := b.fragranceMarketing,
      logos := if b.logos.Some? then b.logos.value else f.logos,
      specialNotes := b.specialNotes, drillInstructions := b.drillInstructions)
  }

  /** `patchValue` as written: `coreNumber` and `weightBlockNumber` are not in the patch. */
  function PatchedFormAsWritten(f: FormValue, b: Ball): (r: FormValue)
    ensures r.coreNumber == f.coreNumber && r.weightBlockNumber == f.weightBlockNumber
    ensures r.(coreNumber := b.coreNumber, weightBlockNumber := b.weightBlockNumber) == PatchedForm(f, b)
  {
    PatchedForm(f, b).(coreNumber := f.coreNumber, weightBlockNumber := f.weightBlockNumber)
  }

  /** The submitted colours: those with a truthy colour name, in order. */
  function SubmittedColors(colors: seq<BallColor>): (r: seq<BallColor>)
    ensures forall c :: c in r <==> c in colors && c.color != ""
    ensures Seqs.IsSubseq(r, colors)
  {
    Seqs.Filter(colors, (c: BallColor) => c.color != "")
  }

  /** The payload `submitForm` hands to `create` or `update`; it carries no identifier or timestamps. */
  function BuildPayload(f: FormValue, colors: seq<BallColor>): (b: Ball)
    ensures b.colors == SubmittedColors(colors) && b.logos == Some(f.logos)
    ensures b.ballName == f.ballName && b.coreNumber == f.coreNumber && b.weightBlockNumber == f.weightBlockNumber
    ensures b.id == "" && b.createdAt == "" && b.updatedAt == ""
  {
    Ball(
      id := "", ballName := f.ballName, brand := f.brand, line := f.line, sku := f.sku,
      releaseType := f.releaseType, releaseDate := ValueOr(f.releaseDate, ""),
      coverstock := f.coverstock, coverstockType := f.coverstockType,
      finish := f.finish, productionFinish := f.productionFinish,
      core := f.core, coreNumber := f.coreNumber, weightBlockNumber := f.weightBlockNumber,
      marketingColorName := f.marketingColorName, pinColor := f.pinColor,
      colors := SubmittedColors(colors),
      fragrance := f.fragrance, fragranceMarketing := f.fragranceMarketing,
      logos := Some(f.logos),
      specialNotes := f.specialNotes, drillInstructions := f.drillInstructions,
      createdAt := "", updatedAt := "")
  }

  /**
   * Opening a product for editing (with the corrected patch) and saving it untouched
   * stores the product with a new update time, the logos the form shows (its own, or
   * the form's when it has none) and only its named colours.
   */
  lemma EditSaveResult(f: FormValue, b: Ball, now: string)
    ensures BallStore.Merged(b, BuildPayload(PatchedForm(f, b), LoadedColors(b)), now)
            == b.(updatedAt := now, logos := Some(PatchedForm(f, b).logos), colors := SubmittedColors(LoadedColors(b)))
  {
    var payload := BuildPayload(PatchedForm(f, b), LoadedColors(b));
    assert payload.releaseDate == b.releaseDate;
  }

  /**
   * Opening a product for editing and saving it untouched changes nothing but its
   * update time (for a product that has logos and no unnamed colour).
   */
  lemma EditRoundTrip(f: FormValue, b: Ball, now: string)
    requires b.logos.Some?
    requires forall c :: c in b.colors ==> c.color != ""
    ensures BallStore.Merged(b, BuildPayload(PatchedForm(f, b), LoadedColors(b)), now) == b.(updatedAt := now)
  {
    var p := (c: BallColor) => c.color != "";
    assert SubmittedColors(LoadedColors(b)) == b.colors by {
      if |b.colors| > 0 {
        Seqs.FilterAll(b.colors, p);
      }
    }
    EditSaveResult(f, b, now);
  }

  /** As written, the same round trip resets a product's core number and weight-block number to the form's. */
  lemma EditSaveLosesCodes(b: Ball, now: string)
    requires b.coreNumber != NoCode || b.weightBlockNumber != NoCode
    ensures var saved := BallStore.Merged(b, BuildPayload(PatchedFormAsWritten(InitialForm, b), LoadedColors(b)), now);
            saved.coreNumber == NoCode && saved.weightBlockNumber == NoCode && saved != b.(updatedAt := now)
  {
  }

  /** `onCoreSelected`'s lookup: the first core whose name equals the selection exactly. */
  function FindCoreByName(cores: seq<Core>, name: string): (r: Option<Core>)
    ensures r.None? <==> forall c :: c in cores ==> c.marketingName != name
    ensures r.Some? ==> r.value in cores && r.value.marketingName == name
    ensures r.Some? ==> exists i :: 0 <= i < |cores| && cores[i] == r.value &&
                                    forall j :: 0 <= j < i ==> cores[j].marketingName != name
  {
    Seqs.Find(cores, (c: Core) => c.marketingName == name)
  }

  /**
   * The selected core after loading `b`: the first core whose name contains the product's
   * core name, ignoring case, when the product names a core and one is found; otherwise
   * the previous selection.
   */
  function CoreAfterPatch(cores: seq<Core>, b: Ball, previous: Option<Core>): (r: Option<Core>)
    ensures b.core == "" ==> r == previous
    ensures b.core != "" && CoreStore.GetByName(cores, b.core).Some? ==> r == CoreStore.GetByName(cores, b.core)
    ensures CoreStore.GetByName(cores, b.core).None? ==> r == previous
    ensures r != previous ==> r.Some? && r.value in cores && CoreStore.NameMatches(r.value, Text.LowerStr(b.core))
  {
    var found := CoreStore.GetByName(cores, b.core);
    if b.core != "" && found.Some? then found else previous
  }

  /** The coverstock suggestions for an input, in reference-list order. */
  function MatchingCoverstocks(coverstocks: seq<string>, input: string): (r: seq<string>)
    ensures forall cs :: cs in r <==> cs in coverstocks && Text.ContainsIgnoringCase(cs, input)
    ensures Seqs.IsSubseq(r, coverstocks)
  {
    Seqs.Filter(coverstocks, (cs: string) => Text.ContainsIgnoringCase(cs, input))
  }

  /** The core suggestions for an input, matched on the marketing name, in store order. */
  function MatchingCores(cores: seq<Core>, input: string): (r: seq<Core>)
    ensures forall c :: c in r <==> c in cores && Text.ContainsIgnoringCase(c.marketingName, input)
    ensures Seqs.IsSubseq(r, cores)
  {
    Seqs.Filter(cores, (c: Core) => Text.ContainsIgnoringCase(c.marketingName, input))
  }

  /** The initial `startWith('')` value lists every entry. */
  lemma EmptyInputListsAll(coverstocks: seq<string>, cores: seq<Core>)
    ensures MatchingCoverstocks(coverstocks, "") == coverstocks
    ensures MatchingCores(cores, "") == cores
  {
    forall cs | cs in coverstocks ensures Text.ContainsIgnoringCase(cs, "") {
      Text.EmptyContained(Text.LowerStr(cs));
    }
    forall c | c in cores ensures Text.ContainsIgnoringCase(c.marketingName, "") {
      Text.EmptyContained(Text.LowerStr(c.marketingName));
    }
    Seqs.FilterAll(coverstocks, (cs: string) => Text.ContainsIgnoringCase(cs, ""));
    Seqs.FilterAll(cores, (c: Core) => Text.ContainsIgnoringCase(c.marketingName, ""));
  }

  class NplsFormComponent {
    var form: FormValue
    var colors: seq<BallColor>
    var selectedCore: Option<Core>
    var saving: bool
    var isEditMode: bool
    var editId: Option<string>
    var filteredCoverstocks: seq<string>
    var filteredCores: seq<Core>
    var leftForm: bool
    const ballService: BallStore.BallService
    const coreService: CoreStore.CoreService

    /** The colour array is never empty, and edit mode always has an identifier. */
    predicate Valid()
      reads this
    {
      |colors| >= 1 && (isEditMode ==> editId.Some?)
    }

    /** The saving, edit-mode and navigation state is as it was. */
    twostate predicate FlagsUnchanged()
      reads this
    {
      saving == old(saving) && isEditMode == old(isEditMode) && editId == old(editId) && leftForm == old(leftForm)
    }

    /** Everything but the form controls and the selected core is as it was. */
    twostate predicate SessionUnchanged()
      reads this
    {
      FlagsUnchanged() && filteredCoverstocks == old(filteredCoverstocks) && filteredCores == old(filteredCores)
    }

    /** Construction, then `initForm` (corrected to number the first colour 1) and `setupAutocomplete`. */
    constructor (ballService: BallStore.BallService, coreService: CoreStore.CoreService, coverstocks: seq<string>)
      ensures this.ballService == ballService && this.coreService == coreService
      ensures form == InitialForm && colors == [BallColor(1, "", "")] && Valid()
      ensures selectedCore.None? && !saving && !isEditMode && editId.None? && !leftForm
      ensures filteredCoverstocks == coverstocks && filteredCores == coreService.cores
    {
      this.ballService := ballService;
      this.coreService := coreService;
      form := InitialForm;
      colors := [NewColorEntry(0)];
      selectedCore := None;
      saving := false;
      isEditMode := false;
      editId := None;
      leftForm := false;
      filteredCoverstocks := MatchingCoverstocks(coverstocks, "");
      filteredCores := MatchingCores(coreService.cores, "");
      EmptyInputListsAll(coverstocks, coreService.cores);
    }

    /** The coverstock control changed: the suggestions are the reference coverstocks containing the input. */
    method OnCoverstockInput(input: string, coverstocks: seq<string>)
      modifies this
      ensures filteredCoverstocks == MatchingCoverstocks(coverstocks, input)
      ensures form == old(form) && colors == old(colors) && selectedCore == old(selectedCore) && filteredCores == old(filteredCores)
      ensures FlagsUnchanged()
    {
      filteredCoverstocks := MatchingCoverstocks(coverstocks, input);
    }

    /** The core control changed: the suggestions are the cores whose name contains the input. */
    method OnCoreInput(input: string)
      modifies this
      ensures filteredCores == MatchingCores(coreService.cores, input)
      ensures form == old(form) && colors == old(colors) && selectedCore == old(selectedCore) && filteredCoverstocks == old(filteredCoverstocks)
      ensures FlagsUnchanged()
    {
      filteredCores := MatchingCores(coreService.cores, input);
    }

    /**
     * `checkEditMode`: a route id other than `new` switches to edit mode and loads that
     * product; `coverstocks` is the reference list the coverstock suggestions filter.
     */
    method CheckEditMode(routeId: Option<string>, coverstocks: seq<string>)
      requires Valid()
      modifies this
      ensures Valid()
      ensures if routeId.Some? && routeId.value != "" && routeId.value != "new" then
          isEditMode && editId == routeId &&
          var found := BallStore.FindById(ballService.balls, routeId.value);
          if found.Some? then
            && colors == LoadedColors(found.value) && form == PatchedFormAsWritten(old(form), found.value)
            && filteredCoverstocks == MatchingCoverstocks(coverstocks, found.value.coverstock)
            && filteredCores == MatchingCores(coreService.cores, found.value.core)
            && selectedCore == CoreAfterPatch(coreService.cores, found.value, old(selectedCore))
            && leftForm == old(leftForm)
          else
            && leftForm && form == old(form) && colors == old(colors) && selectedCore == old(selectedCore)
            && filteredCoverstocks == old(filteredCoverstocks) && filteredCores == old(filteredCores)
        else
          form == old(form) && colors == old(colors) && selectedCore == old(selectedCore) && SessionUnchanged()
      ensures saving == old(saving)
    {
      if routeId.Some? && routeId.value != "" && routeId.value != "new" {
        isEditMode := true;
        editId := routeId;
        LoadBall(routeId.value, coverstocks);
      }
    }

    /** `loadBall`: a known product is patched in, an unknown one sends the user back to the list. */
    method LoadBall(id: string, coverstocks: seq<string>)
      modifies this
      ensures var found := BallStore.FindById(ballService.balls, id);
        if found.Some? then
          && colors == LoadedColors(found.value) && form == PatchedFormAsWritten(old(form), found.value)
          && filteredCoverstocks == MatchingCoverstocks(coverstocks, found.value.coverstock)
          && filteredCores == MatchingCores(coreService.cores, found.value.core)
          && selectedCore == CoreAfterPatch(coreService.cores, found.value, old(selectedCore))
          && FlagsUnchanged()
        else
          && leftForm && form == old(form) && colors == old(colors) && selectedCore == old(selectedCore)
          && filteredCoverstocks == old(filteredCoverstocks) && filteredCores == old(filteredCores)
      ensures saving == old(saving) && isEditMode == old(isEditMode) && editId == old(editId)
    {
      var found := BallStore.FindById(ballService.balls, id);
      if found.Some? {
        PatchFormWithBall(found.value, coverstocks);
      } else {
        leftForm := true;
      }
    }

    /** The colour part of `patchFormWithBall`: every entry removed, then the product's copied in (or one new entry). */
    method RefillColors(b: Ball)
      modifies this
      ensures colors == LoadedColors(b)
      ensures form == old(form) && selectedCore == old(selectedCore) && SessionUnchanged()
    {
      while |colors| > 0
        invariant form == old(form) && selectedCore == old(selectedCore) && SessionUnchanged()
        decreases |colors|
      {
        colors := colors[1..];
      }
      if |b.colors| > 0 {
        var i := 0;
        while i < |b.colors|
          invariant 0 <= i <= |b.colors|
          invariant colors == b.colors[..i]
          invariant form == old(form) && selectedCore == old(selectedCore) && SessionUnchanged()
        {
          var c := b.colors[i];
          colors := colors + [BallColor(c.colorNumber, c.color, c.shade)];
          i := i + 1;
        }
        assert b.colors[..i] == b.colors;
      } else {
        colors := colors + [NewColorEntry(|colors|)];
      }
    }

    /**
     * `patchFormWithBall`: the colour array is emptied and refilled from the product
     * (or with one new entry), the controls are patched as written (the core and
     * weight-block numbers are kept), which re-runs the coverstock and core suggestion
     * filters on the patched values, and the product's core, looked up by substring,
     * becomes the selected core when found.
     */
    method PatchFormWithBall(b: Ball, coverstocks: seq<string>)
      modifies this
      ensures colors == LoadedColors(b)
      ensures form == PatchedFormAsWritten(old(form), b)
      ensures filteredCoverstocks == MatchingCoverstocks(coverstocks, b.coverstock)
      ensures filteredCores == MatchingCores(coreService.cores, b.core)
      ensures selectedCore == CoreAfterPatch(coreService.cores, b, old(selectedCore))
      ensures FlagsUnchanged()
    {
      RefillColors(b);
      form := PatchedFormAsWritten(form, b);
      OnCoverstockInput(form.coverstock, coverstocks);
      OnCoreInput(form.core);
      if b.core != "" {
        var found := CoreStore.GetByName(coreService.cores, b.core);
        if found.Some? {
          selectedCore := found;
        }
      }
    }

    /** `onCoreSelected`: an exact name match becomes the selected core and supplies both numbers; no match changes nothing. */
    method OnCoreSelected(coreName: string)
      modifies this
      ensures var found := FindCoreByName(coreService.cores, coreName);
        if found.Some? then
          selectedCore == found &&
          form == old(form).(coreNumber := found.value.coreNumber, weightBlockNumber := found.value.weightBlockNumber)
        else
          selectedCore == old(selectedCore) && form == old(form)
      ensures colors == old(colors) && SessionUnchanged()
    {
      var found := FindCoreByName(coreService.cores, coreName);
      if found.Some? {
        selectedCore := found;
        form := form.(coreNumber := found.value.coreNumber, weightBlockNumber := found.value.weightBlockNumber);
      }
    }

    /** `addColor`: a new entry is appended only below four entries. */
    method AddColor()
      modifies this
      ensures |old(colors)| < 4 ==> colors == old(colors) + [NewColorEntry(|old(colors)|)]
      ensures |old(colors)| >= 4 ==> colors == old(colors)
      ensures |old(colors)| <= 4 ==> |colors| <= 4
      ensures Consecutive(old(colors)) ==> Consecutive(colors)
      ensures form == old(form) && selectedCore == old(selectedCore) && SessionUnchanged()
    {
      if |colors| < 4 {
        colors := colors + [NewColorEntry(|colors|)];
      }
    }

    /**
     * `removeColor(i)`: the entry at `i` is removed (an index past the end removes
     * nothing), then every entry is renumbered to its position plus one.
     */
    method RemoveColor(i: nat)
      requires Valid()
      modifies this
      ensures i < |old(colors)| ==> colors == Renumbered(old(colors)[..i] + old(colors)[i + 1..])
      ensures i >= |old(colors)| ==> colors == Renumbered(old(colors))
      ensures Consecutive(colors)
      ensures 0 < i ==> Valid()
      ensures form == old(form) && selectedCore == old(selectedCore) && SessionUnchanged()
    {
      if i < |colors| {
        colors := colors[..i] + colors[i + 1..];
      }
      ghost var before := colors;
      for k := 0 to |colors|
        invariant |colors| == |before|
        invariant forall j :: 0 <= j < k ==> colors[j] == before[j].(colorNumber := j + 1)
        invariant forall j :: k <= j < |colors| ==> colors[j] == before[j]
        invariant form == old(form) && selectedCore == old(selectedCore) && SessionUnchanged()
      {
        colors := colors[k := colors[k].(colorNumber := k + 1)];
      }
      assert colors == Renumbered(before);
    }

    /**
     * `submitForm` at time `now`: an empty product name (the only required control)
     * saves nothing; otherwise the payload goes to `update(editId)` in edit mode and to
     * `create` (with the identifier `newId`) otherwise, and the user is sent back to the list.
     */
    method SubmitForm(newId: string, now: string, accepted: bool) returns (submitted: bool)
      requires Valid()
      modifies this, ballService, ballService.storage
      ensures submitted <==> old(form).ballName != ""
      ensures !submitted ==>
        && ballService.balls == old(ballService.balls) && ballService.storage.store == old(ballService.storage.store)
        && SessionUnchanged()
      ensures submitted ==> !saving && leftForm && isEditMode == old(isEditMode) && editId == old(editId)
      ensures var payload := BuildPayload(old(form), old(colors));
        submitted && !old(isEditMode) ==>
          && ballService.balls == [payload.(id := newId, createdAt := now)] + old(ballService.balls)
          && ballService.storage.store == Storage.Written(old(ballService.storage.store), BallStore.StorageKey,
                                                          Storage.BallList(ballService.balls), accepted)
      ensures submitted && old(isEditMode) ==>
          var payload := BuildPayload(old(form), old(colors));
          var id := old(editId).value;
          var i := Seqs.FirstIndex(old(ballService.balls), (b: Ball) => b.id == id);
          if i == -1 then ballService.balls == old(ballService.balls) && ballService.storage.store == old(ballService.storage.store)
          else
            && ballService.balls == old(ballService.balls)[i := BallStore.Merged(old(ballService.balls)[i], payload, now)]
            && ballService.storage.store == Storage.Written(old(ballService.storage.store), BallStore.StorageKey,
                                                            Storage.BallList(ballService.balls), accepted)
      ensures form == old(form) && colors == old(colors) && selectedCore == old(selectedCore)
      ensures filteredCoverstocks == old(filteredCoverstocks) && filteredCores == old(filteredCores)
      ensures ballService.loading == old(ballService.loading)
    {
      if form.ballName == "" {
        return false;
      }
      saving := true;
      var payload := BuildPayload(form, colors);
      if isEditMode {
        var _ := ballService.Update(editId.value, payload, now, accepted);
      } else {
        var _ := ballService.Create(payload, newId, now, accepted);
      }
      saving := false;
      leftForm := true;
      submitted := true;
    }

    /**
     * `resetForm`: brand and release type return to `Storm` and `OEM`, every other control
     * to `null` (read here as `""`), one colour numbered 1 remains, no core is selected.
     * The suggestion filters read the `null` coverstock and core as the empty input, so
     * both lists are full again.
     */
    method ResetForm(coverstocks: seq<string>)
      requires Valid()
      modifies this
      ensures form == InitialForm && colors == [BallColor(1, "", "")] && selectedCore.None?
      ensures filteredCoverstocks == coverstocks && filteredCores == coreService.cores
      ensures Valid() && Consecutive(colors) && FlagsUnchanged()
    {
      form := InitialForm;
      OnCoverstockInput(form.coverstock, coverstocks);
      OnCoreInput(form.core);
      EmptyInputListsAll(coverstocks, coreService.cores);
      ghost var lists := (filteredCoverstocks, filteredCores);
      while |colors| > 1
        invariant |colors| >= 1 && form == InitialForm && FlagsUnchanged()
        invariant (filteredCoverstocks, filteredCores) == lists
        decreases |colors|
      {
        colors := colors[..1] + colors[2..];
      }
      colors := [BallColor(1, "", "")];
      selectedCore := None;
    }
  }
}
