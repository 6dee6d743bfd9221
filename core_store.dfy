/**
 * The core store: the list of cores (weight blocks) the application publishes, its
 * cache-or-seed start-up, the transform of the RG seed table, queries and
 * create/update/delete.
 *
 * As for products, the seed fetch is split into its start and its completion
 * `OnSeedLoaded`; generated identifiers are parameters.
 */
module CoreStore {
  import opened Wrappers
  import opened Models
  import Text
  import Seqs
  import Storage

  const StorageKey := "cores"

  /** The number of weight column groups the seed table has: `Wt`, `Wt.1`, ..., `Wt.6`. */
  const WeightColumns := 7

  /** The four cells of one weight column group; absent cells are `None`. */
  datatype WeightCells = WeightCells(wt: Option<int>, rg: Option<real>, diff: Option<real>, intermediate: Option<real>)

  const NoCells := WeightCells(None, None, None, None)

  /** One raw row of the RG seed table; `groups[g]` holds the cells of weight group `g`. */
  datatype CoreSeedRow = CoreSeedRow(
    marketingName: Option<string>,  // 'Marketing Name'
    coreNo: Option<CodeValue>,      // 'Core #'
    wbNo: Option<CodeValue>,        // 'WB #'
    line: Option<string>,           // 'Line'
    groups: seq<WeightCells>)

  /** The cells of group `g`; a group the row does not carry reads as all absent. */
  function GroupAt(row: CoreSeedRow, g: nat): WeightCells {
    if g < |row.groups| then row.groups[g] else NoCells
  }

  /** `item[col] || 0` for a measurement. */
  function OrZero(c: Option<real>): real {
    if c.Some? && c.value != 0.0 then c.value else 0.0
  }

  /** The spec group `g` contributes: one entry when its weight cell is present (`!= null`), none otherwise. */
  function SpecAt(row: CoreSeedRow, g: nat): seq<CoreWeightSpec> {
    var c := GroupAt(row, g);
    if c.wt.Some? then [CoreWeightSpec(c.wt.value, OrZero(c.rg), OrZero(c.diff), OrZero(c.intermediate))] else []
  }

  /** The specs of the first `n` groups, in group order. */
  function SpecsUpTo(row: CoreSeedRow, n: nat): (specs: seq<CoreWeightSpec>)
    ensures |specs| <= n
  {
    if n == 0 then [] else SpecsUpTo(row, n - 1) + SpecAt(row, n - 1)
  }

  /** The specs `transformSeedData` extracts from a row. */
  function SeedSpecs(row: CoreSeedRow): seq<CoreWeightSpec> {
    SpecsUpTo(row, WeightColumns)
  }

  /** The number of the first `n` groups whose weight cell is present. */
  function PresentWeights(row: CoreSeedRow, n: nat): nat {
    if n == 0 then 0 else PresentWeights(row, n - 1) + (if GroupAt(row, n - 1).wt.Some? then 1 else 0)
  }

  /**
   * One spec per group with a present weight, no more: each spec carries the weight of
   * a present group of the first `n` and that group's measurements, absent or zero
   * measurements reading as 0.
   */
  lemma {:induction false} SpecsUpToShape(row: CoreSeedRow, n: nat)
    ensures |SpecsUpTo(row, n)| == PresentWeights(row, n)
    ensures forall s :: s in SpecsUpTo(row, n) ==> exists g :: 0 <= g < n && SpecAt(row, g) == [s]
  {
    if n > 0 {
      SpecsUpToShape(row, n - 1);
      forall s | s in SpecsUpTo(row, n) ensures exists g :: 0 <= g < n && SpecAt(row, g) == [s] {
        if s !in SpecsUpTo(row, n - 1) {
          assert SpecAt(row, n - 1) == [s];
        }
      }
    }
  }

  lemma {:induction false} PresentWeightsExtremes(row: CoreSeedRow, n: nat)
    ensures (forall g :: 0 <= g < n ==> GroupAt(row, g).wt.None?) ==> PresentWeights(row, n) == 0
    ensures (forall g :: 0 <= g < n ==> GroupAt(row, g).wt.Some?) ==> PresentWeights(row, n) == n
  {
    if n > 0 {
      PresentWeightsExtremes(row, n - 1);
    }
  }

  /** A row without any weight cell has no specs; a row with all seven has seven. */
  lemma SeedSpecsBounds(row: CoreSeedRow)
    ensures |SeedSpecs(row)| <= WeightColumns
    ensures (forall g :: 0 <= g < WeightColumns ==> GroupAt(row, g).wt.None?) ==> SeedSpecs(row) == []
    ensures (forall g :: 0 <= g < WeightColumns ==> GroupAt(row, g).wt.Some?) ==> |SeedSpecs(row)| == WeightColumns
  {
    SpecsUpToShape(row, WeightColumns);
    PresentWeightsExtremes(row, WeightColumns);
  }

  /** The `weightConfigs.forEach` loop of `transformSeedData`. */
  method ExtractSpecs(row: CoreSeedRow) returns (specs: seq<CoreWeightSpec>)
    ensures specs == SeedSpecs(row)
  {
    specs := [];
    for g := 0 to WeightColumns
      invariant specs == SpecsUpTo(row, g)
    {
      var c := GroupAt(row, g);
      if c.wt != None {
        specs := specs + [CoreWeightSpec(c.wt.value, OrZero(c.rg), OrZero(c.diff), OrZero(c.intermediate))];
      }
    }
  }

  /** The symmetry rule: the lower-cased name contains `symmetric` but not `asymmetric`. */
  predicate IsSymmetricName(name: string) {
    var lower := Text.LowerStr(name);
    Text.Contains(lower, "symmetric") && !Text.Contains(lower, "asymmetric")
  }

  /**
   * Every name mentioning `asymmetric` also mentions `symmetric`, so the second test is
   * the one that separates the two kinds: a name is symmetric exactly when it mentions
   * `symmetric` and is not asymmetric — even when it also mentions `symmetric` apart.
   */
  lemma AsymmetricMentionsSymmetric(name: string)
    ensures Text.Contains(Text.LowerStr(name), "asymmetric") ==> Text.Contains(Text.LowerStr(name), "symmetric")
    ensures Text.Contains(Text.LowerStr(name), "asymmetric") ==> !IsSymmetricName(name)
  {
    var lower := Text.LowerStr(name);
    if Text.Contains(lower, "asymmetric") {
      assert Text.OccursAt("asymmetric", "symmetric", 1);
      Text.ContainsTransitive(lower, "asymmetric", "symmetric");
    }
  }

  /** `Symmetric` and `Asymmetric` names classify as the seed data intends; a name saying neither is asymmetric. */
  lemma SymmetryExamples()
    ensures IsSymmetricName("Symmetric")
    ensures !IsSymmetricName("Asymmetric")
    ensures !IsSymmetricName("")
  {
    assert Text.LowerStr("Symmetric") == "symmetric";
    Text.ContainsSelf("symmetric");
    assert Text.LowerStr("Asymmetric") == "asymmetric";
    Text.ContainsSelf("asymmetric");
  }

  /** The identifier given to the seed row at position `index`. */
  function SeedId(index: nat): string {
    "core-" + Text.NatToString(index + 1)
  }

  /** JavaScript truthiness of an optional code cell. */
  function CodeOrEmpty(c: Option<CodeValue>): CodeValue {
    if c.Some? && CodeTruthy(c.value) then c.value else NoCode
  }

  /** The core built from one seed row. */
  function SeedCore(row: CoreSeedRow, index: nat): Core {
    var name := if row.marketingName.Some? then row.marketingName.value else "";
    Core(
      id := SeedId(index),
      marketingName := name,
      coreNumber := CodeOrEmpty(row.coreNo),
      weightBlockNumber := CodeOrEmpty(row.wbNo),
      line := if row.line.Some? then row.line.value else "",
      isSymmetric := IsSymmetricName(name),
      specs := SeedSpecs(row))
  }

  /** `transformSeedData`: one core per row, in row order. */
  function TransformSeedData(rows: seq<CoreSeedRow>): (cores: seq<Core>)
    ensures |cores| == |rows|
    ensures forall i :: 0 <= i < |rows| ==> cores[i].id == "core-" + Text.NatToString(i + 1)
    ensures forall i :: 0 <= i < |rows| ==> cores[i].isSymmetric == IsSymmetricName(cores[i].marketingName)
    ensures forall i :: 0 <= i < |rows| ==> cores[i].specs == SeedSpecs(rows[i])
  {
    seq(|rows|, i requires 0 <= i < |rows| => SeedCore(rows[i], i))
  }

  /**
   * The defaults of a seed row: a missing name or line becomes the empty string, a
   * missing or falsy core or weight-block number becomes the empty code; a present
   * value is copied.
   */
  lemma SeedDefaults(rows: seq<CoreSeedRow>, i: int)
    requires 0 <= i < |rows|
    ensures var c, r := TransformSeedData(rows)[i], rows[i];
      && (c.marketingName == if r.marketingName.Some? then r.marketingName.value else "")
      && (c.coreNumber == if r.coreNo.Some? && CodeTruthy(r.coreNo.value) then r.coreNo.value else NoCode)
      && (c.weightBlockNumber == if r.wbNo.Some? && CodeTruthy(r.wbNo.value) then r.wbNo.value else NoCode)
      && (c.line == if r.line.Some? then r.line.value else "")
  {
  }

  /** No two cores share an identifier. */
  predicate UniqueIds(cores: seq<Core>) {
    forall i, j :: 0 <= i < j < |cores| ==> cores[i].id != cores[j].id
  }

  /** The seed identifiers `core-1`, `core-2`, ... are pairwise distinct. */
  lemma SeedIdsUnique(rows: seq<CoreSeedRow>)
    ensures UniqueIds(TransformSeedData(rows))
  {
    var cores := TransformSeedData(rows);
    forall i, j | 0 <= i < j < |cores| ensures cores[i].id != cores[j].id {
      if cores[i].id == cores[j].id {
        assert Text.NatToString(i + 1) == cores[i].id[5..];
        assert Text.NatToString(j + 1) == cores[j].id[5..];
        Text.NatToStringInjective(i + 1, j + 1);
      }
    }
  }

  /** `getById`. */
  function FindById(cores: seq<Core>, id: string): (r: Option<Core>)
    ensures r.None? <==> forall c :: c in cores ==> c.id != id
    ensures r.Some? ==> r.value in cores && r.value.id == id
    ensures r.Some? ==> exists i :: 0 <= i < |cores| && cores[i] == r.value &&
                                    forall j :: 0 <= j < i ==> cores[j].id != id
  {
    Seqs.Find(cores, (c: Core) => c.id == id)
  }

  /** The `getByName` test: the lower-cased name contains the lower-cased query. */
  predicate NameMatches(c: Core, lowerName: string) {
    Text.Contains(Text.LowerStr(c.marketingName), lowerName)
  }

  /** `getByName`: the first core whose name contains the query, ignoring ASCII case; a substring match, not equality. */
  function GetByName(cores: seq<Core>, name: string): (r: Option<Core>)
    ensures r.None? <==> forall c :: c in cores ==> !NameMatches(c, Text.LowerStr(name))
    ensures r.Some? ==> exists i :: 0 <= i < |cores| && cores[i] == r.value &&
                          NameMatches(r.value, Text.LowerStr(name)) &&
                          forall j :: 0 <= j < i ==> !NameMatches(cores[j], Text.LowerStr(name))
  {
    Seqs.Find(cores, (c: Core) => NameMatches(c, Text.LowerStr(name)))
  }

  /** A core whose name equals the query is found, though possibly an earlier core whose name merely contains it. */
  lemma GetByNameFindsExact(cores: seq<Core>, c: Core)
    requires c in cores
    ensures GetByName(cores, c.marketingName).Some?
    ensures NameMatches(GetByName(cores, c.marketingName).value, Text.LowerStr(c.marketingName))
  {
    Text.ContainsSelf(Text.LowerStr(c.marketingName));
  }

  /** The `search` test: name or line contains the lower-cased query, or the code's text contains it as typed. */
  predicate SearchMatches(c: Core, lowerQuery: string) {
    || Text.Contains(Text.LowerStr(c.marketingName), lowerQuery)
    || Text.Contains(Text.LowerStr(c.line), lowerQuery)
    || Text.Contains(CodeString(c.coreNumber), lowerQuery)
  }

  /** `search(query)`. */
  function Search(cores: seq<Core>, query: string): (r: seq<Core>)
    ensures forall c :: c in r <==> c in cores && SearchMatches(c, Text.LowerStr(query))
    ensures Seqs.IsSubseq(r, cores)
  {
    Seqs.Filter(cores, (c: Core) => SearchMatches(c, Text.LowerStr(query)))
  }

  /** `getByLine(line)`: exact equality. */
  function GetByLine(cores: seq<Core>, line: string): (r: seq<Core>)
    ensures forall c :: c in r <==> c in cores && c.line == line
    ensures Seqs.IsSubseq(r, cores)
  {
    Seqs.Filter(cores, (c: Core) => c.line == line)
  }

  /** `getSymmetricCores`. */
  function SymmetricCores(cores: seq<Core>): (r: seq<Core>)
    ensures forall c :: c in r <==> c in cores && c.isSymmetric
    ensures Seqs.IsSubseq(r, cores)
  {
    Seqs.Filter(cores, (c: Core) => c.isSymmetric)
  }

  /** `getAsymmetricCores`. */
  function AsymmetricCores(cores: seq<Core>): (r: seq<Core>)
    ensures forall c :: c in r <==> c in cores && !c.isSymmetric
    ensures Seqs.IsSubseq(r, cores)
  {
    Seqs.Filter(cores, (c: Core) => !c.isSymmetric)
  }

  /** Every core is in exactly one of the two symmetry lists. */
  lemma SymmetryPartition(cores: seq<Core>)
    ensures |SymmetricCores(cores)| + |AsymmetricCores(cores)| == |cores|
    ensures multiset(SymmetricCores(cores)) + multiset(AsymmetricCores(cores)) == multiset(cores)
  {
    Seqs.FilterPartition(cores, (c: Core) => c.isSymmetric, (c: Core) => !c.isSymmetric);
  }

  /** A `Partial<Core>`: each field is either left out or given. */
  datatype CorePatch = CorePatch(
    id: Option<string>,
    marketingName: Option<string>,
    coreNumber: Option<CodeValue>,
    weightBlockNumber: Option<CodeValue>,
    line: Option<string>,
    isSymmetric: Option<bool>,
    specs: Option<seq<CoreWeightSpec>>)

  /** `{...current, ...updates}`: a given field replaces the current one, a left-out field keeps it. */
  function Merge(current: Core, p: CorePatch): (r: Core)
    ensures r.id == ValueOr(p.id, current.id) && r.marketingName == ValueOr(p.marketingName, current.marketingName)
    ensures r.coreNumber == ValueOr(p.coreNumber, current.coreNumber)
    ensures r.weightBlockNumber == ValueOr(p.weightBlockNumber, current.weightBlockNumber)
    ensures r.line == ValueOr(p.line, current.line) && r.isSymmetric == ValueOr(p.isSymmetric, current.isSymmetric)
    ensures r.specs == ValueOr(p.specs, current.specs)
  {
    Core(ValueOr(p.id, current.id), ValueOr(p.marketingName, current.marketingName),
         ValueOr(p.coreNumber, current.coreNumber), ValueOr(p.weightBlockNumber, current.weightBlockNumber),
         ValueOr(p.line, current.line), ValueOr(p.isSymmetric, current.isSymmetric),
         ValueOr(p.specs, current.specs))
  }

  const EmptyPatch := CorePatch(None, None, None, None, None, None, None)

  /** The empty patch changes nothing, and merging is idempotent. */
  lemma MergeLaws(c: Core, p: CorePatch)
    ensures Merge(c, EmptyPatch) == c
    ensures Merge(Merge(c, p), p) == Merge(c, p)
  {
  }

  /** The symmetry flag is not recomputed: renaming a core through a patch keeps its old flag. */
  lemma RenameKeepsFlag(c: Core, name: string)
    ensures Merge(c, EmptyPatch.(marketingName := Some(name))).isSymmetric == c.isSymmetric
  {
  }

  /** `delete`'s filter. */
  function RemoveId(cores: seq<Core>, id: string): (r: seq<Core>)
    ensures forall c :: c in r <==> c in cores && c.id != id
    ensures Seqs.IsSubseq(r, cores)
  {
    Seqs.Filter(cores, (c: Core) => c.id != id)
  }

  /** A cached list is used at start-up when it exists and is non-empty. */
  predicate CacheUsable(cached: Option<Storage.Doc>) {
    cached.Some? && cached.value.CoreList? && |cached.value.cores| > 0
  }

  class CoreService {
    var cores: seq<Core>
    var loading: bool
    const storage: Storage.StorageService

    /** Construction runs `loadInitialData`. */
    constructor (storage: Storage.StorageService)
      ensures this.storage == storage
      ensures var cached := Storage.Read(storage.store, StorageKey);
        if CacheUsable(cached) then cores == cached.value.cores && !loading
        else cores == [] && loading
    {
      this.storage := storage;
      cores := [];
      loading := false;
      new;
      var cached := storage.Get(StorageKey);
      if cached.Some? && cached.value.CoreList? && |cached.value.cores| > 0 {
        cores := cached.value.cores;
      } else {
        loading := true;
      }
    }

    /** Completion of the seed fetch: rows are transformed, cached and published; an error publishes nothing. */
    method OnSeedLoaded(fetched: Fetch<seq<CoreSeedRow>>, accepted: bool)
      modifies this, storage
      ensures !loading
      ensures fetched.Loaded? ==>
        cores == TransformSeedData(fetched.data) &&
        storage.store == Storage.Written(old(storage.store), StorageKey, Storage.CoreList(cores), accepted)
      ensures fetched.FetchFailed? ==> cores == old(cores) && storage.store == old(storage.store)
    {
      if fetched.Loaded? {
        var transformed := TransformSeedData(fetched.data);
        storage.Set(StorageKey, Storage.CoreList(transformed), accepted);
        cores := transformed;
      }
      loading := false;
    }

    /** `create`: the new core gets the given identifier and is prepended. */
    method Create(draft: Core, id: string, accepted: bool) returns (c: Core)
      modifies this, storage
      ensures c == draft.(id := id)
      ensures cores == [c] + old(cores) && loading == old(loading)
      ensures storage.store == Storage.Written(old(storage.store), StorageKey, Storage.CoreList(cores), accepted)
    {
      c := draft.(id := id);
      cores := [c] + cores;
      storage.Set(StorageKey, Storage.CoreList(cores), accepted);
    }

    /** `update`: an unknown id changes nothing; otherwise the patch is merged in place (no timestamp). */
    method Update(id: string, patch: CorePatch, accepted: bool) returns (r: Option<Core>)
      modifies this, storage
      ensures loading == old(loading)
      ensures var i := Seqs.FirstIndex(old(cores), (c: Core) => c.id == id);
        if i == -1 then
          r.None? && cores == old(cores) && storage.store == old(storage.store)
        else
          && r == Some(Merge(old(cores)[i], patch))
          && cores == old(cores)[i := r.value]
          && storage.store == Storage.Written(old(storage.store), StorageKey, Storage.CoreList(cores), accepted)
    {
      var i := Seqs.FirstIndex(cores, (c: Core) => c.id == id);
      if i == -1 {
        return None;
      }
      var updated := Merge(cores[i], patch);
      cores := cores[i := updated];
      storage.Set(StorageKey, Storage.CoreList(cores), accepted);
      r := Some(updated);
    }

    /** `delete`: always reports success. */
    method Delete(id: string, accepted: bool) returns (ok: bool)
      modifies this, storage
      ensures ok
      ensures cores == RemoveId(old(cores), id) && loading == old(loading)
      ensures storage.store == Storage.Written(old(storage.store), StorageKey, Storage.CoreList(cores), accepted)
    {
      cores := RemoveId(cores, id);
      storage.Set(StorageKey, Storage.CoreList(cores), accepted);
      ok := true;
    }

    /** `clearCache`. */
    method ClearCache()
      modifies this, storage
      ensures cores == [] && loading == old(loading)
      ensures storage.store == Storage.Removed(old(storage.store), StorageKey)
    {
      storage.Remove(StorageKey);
      cores := [];
    }
  }
}
