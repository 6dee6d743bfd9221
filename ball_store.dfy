/**
 * The product store: the catalog list the application publishes, its cache-or-seed
 * start-up, the seed-row transform, queries, create/update/delete/duplicate and the
 * brand/type statistics.
 *
 * The published list (`ballsSubject`) is the field `balls`; the loading flag is
 * `loading`. The HTTP seed fetch is split into its start (`loading := true`) and its
 * completion `OnSeedLoaded`, which receives the fetched rows or a failure. Wall-clock
 * timestamps and generated ids are parameters.
 */
module BallStore {
  import opened Wrappers
  import opened Models
  import Text
  import Seqs
  import Storage

  const StorageKey := "balls"

  /** One raw seed row; each cell is absent (`None`) or the text found under its column label. */
  datatype BallSeedRow = BallSeedRow(
    ballName: Option<string>,        // 'Ball Name'
    brand: Option<string>,           // 'Brand'
    release: Option<string>,         // '998       Release'
    approxDate: Option<string>,      // 'Approx. Date'
    coverstock: Option<string>,      // 'Coverstock'
    coverstockType: Option<string>,  // 'Type'
    finish: Option<string>,          // 'Finish'
    core: Option<string>,            // 'Core'
    mktColorName: Option<string>,    // 'MKT Color Name'
    color1: Option<string>, shade1: Option<string>,   // 'Color 1', 'Shade 1'
    color2: Option<string>, shade2: Option<string>,
    color3: Option<string>, shade3: Option<string>,
    fragrance: Option<string>)       // 'Fragrance'

  /** JavaScript truthiness of a text cell. */
  predicate Truthy(c: Option<string>) {
    c.Some? && c.value != ""
  }

  /** `item[label] || d`. */
  function OrElse(c: Option<string>, d: string): string {
    if Truthy(c) then c.value else d
  }

  /** A cell copied without a default (`undefined` becomes the empty string). */
  function Raw(c: Option<string>): string {
    ValueOr(c, "")
  }

  function ColorColumn(row: BallSeedRow, n: int): Option<string>
    requires 1 <= n <= 3
  {
    if n == 1 then row.color1 else if n == 2 then row.color2 else row.color3
  }

  function ShadeColumn(row: BallSeedRow, n: int): Option<string>
    requires 1 <= n <= 3
  {
    if n == 1 then row.shade1 else if n == 2 then row.shade2 else row.shade3
  }

  /** The colour entry contributed by the `Color n`/`Shade n` columns, if `Color n` is truthy. */
  function SeedColor(row: BallSeedRow, n: int): seq<BallColor>
    requires 1 <= n <= 3
  {
    if Truthy(ColorColumn(row, n)) then [BallColor(n, ColorColumn(row, n).value, Raw(ShadeColumn(row, n)))] else []
  }

  /** The colours `extractColors` collects from a seed row. */
  function SeedColors(row: BallSeedRow): seq<BallColor> {
    SeedColor(row, 1) + SeedColor(row, 2) + SeedColor(row, 3)
  }

  /**
   * At most three colours, numbered strictly increasingly within 1..3, one for exactly
   * each truthy `Color n` column, carrying that column's colour and shade.
   */
  lemma SeedColorsShape(row: BallSeedRow)
    ensures var c := SeedColors(row);
      && |c| <= 3
      && (forall i, j :: 0 <= i < j < |c| ==> c[i].colorNumber < c[j].colorNumber)
      && (forall i :: 0 <= i < |c| ==>
            1 <= c[i].colorNumber <= 3 && Truthy(ColorColumn(row, c[i].colorNumber)) &&
            c[i] == BallColor(c[i].colorNumber, ColorColumn(row, c[i].colorNumber).value,
                              Raw(ShadeColumn(row, c[i].colorNumber))))
      && (forall n :: 1 <= n <= 3 && Truthy(ColorColumn(row, n)) ==>
            exists i :: 0 <= i < |c| && c[i].colorNumber == n)
  {
    var c := SeedColors(row);
    forall n | 1 <= n <= 3 && Truthy(ColorColumn(row, n))
      ensures exists i :: 0 <= i < |c| && c[i].colorNumber == n
    {
      var a, b := |SeedColor(row, 1)|, |SeedColor(row, 2)|;
      var i := if n == 1 then 0 else if n == 2 then a else a + b;
      assert c[i].colorNumber == n;
    }
  }

  /** `extractColors`: pushes one entry per truthy colour column. */
  method ExtractColors(row: BallSeedRow) returns (colors: seq<BallColor>)
    ensures colors == SeedColors(row)
  {
    colors := [];
    if Truthy(row.color1) {
      colors := colors + [BallColor(1, row.color1.value, Raw(row.shade1))];
    }
    if Truthy(row.color2) {
      colors := colors + [BallColor(2, row.color2.value, Raw(row.shade2))];
    }
    if Truthy(row.color3) {
      colors := colors + [BallColor(3, row.color3.value, Raw(row.shade3))];
    }
  }

  /** The identifier given to the seed row at position `index`. */
  function SeedId(index: nat): string {
    "ball-" + Text.NatToString(index + 1)
  }

  /** The product built from one seed row. */
  function SeedBall(row: BallSeedRow, index: nat, now: string): Ball {
    Ball(
      id := SeedId(index),
      ballName := OrElse(row.ballName, ""),
      brand := OrElse(row.brand, ""),
      line := "",
      sku := "",
      releaseType := OrElse(row.release, "OEM"),
      releaseDate := Raw(row.approxDate),
      coverstock := OrElse(row.coverstock, ""),
      coverstockType := OrElse(row.coverstockType, ""),
      finish := OrElse(row.finish, ""),
      productionFinish := "",
      core := OrElse(row.core, ""),
      coreNumber := NoCode,
      weightBlockNumber := NoCode,
      marketingColorName := OrElse(row.mktColorName, ""),
      pinColor := "",
      colors := SeedColors(row),
      fragrance := Raw(row.fragrance),
      fragranceMarketing := "",
      logos := None,
      specialNotes := "",
      drillInstructions := "",
      createdAt := now,
      updatedAt := "")
  }

  /** `transformSeedData`: one product per row, in row order, stamped with `now`. */
  function TransformSeedData(rows: seq<BallSeedRow>, now: string): (balls: seq<Ball>)
    ensures |balls| == |rows|
    ensures forall i :: 0 <= i < |rows| ==> balls[i].id == "ball-" + Text.NatToString(i + 1)
    ensures forall i :: 0 <= i < |rows| ==> balls[i].createdAt == now && balls[i].colors == SeedColors(rows[i])
  {
    seq(|rows|, i requires 0 <= i < |rows| => SeedBall(rows[i], i, now))
  }

  /**
   * Every mapped field has a default: a missing or empty name, brand, coverstock, type,
   * finish, core or colour name becomes the empty string and a missing release type
   * becomes `OEM`; a present value is copied. The release date and the fragrance have
   * no default: they are copied as they are (a missing cell reads as the empty string).
   */
  lemma SeedDefaults(rows: seq<BallSeedRow>, now: string, i: int)
    requires 0 <= i < |rows|
    ensures var b, r := TransformSeedData(rows, now)[i], rows[i];
      && (b.ballName == if Truthy(r.ballName) then r.ballName.value else "")
      && (b.brand == if Truthy(r.brand) then r.brand.value else "")
      && (b.releaseType == if Truthy(r.release) then r.release.value else "OEM")
      && (b.coverstock == if Truthy(r.coverstock) then r.coverstock.value else "")
      && (b.coverstockType == if Truthy(r.coverstockType) then r.coverstockType.value else "")
      && (b.finish == if Truthy(r.finish) then r.finish.value else "")
      && (b.core == if Truthy(r.core) then r.core.value else "")
      && (b.marketingColorName == if Truthy(r.mktColorName) then r.mktColorName.value else "")
      && (b.releaseDate == if r.approxDate.Some? then r.approxDate.value else "")
      && (b.fragrance == if r.fragrance.Some? then r.fragrance.value else "")
      && b.updatedAt == "" && b.logos == None
  {
  }

  /** No two products share an identifier. */
  predicate UniqueIds(balls: seq<Ball>) {
    forall i, j :: 0 <= i < j < |balls| ==> balls[i].id != balls[j].id
  }

  /** The seed identifiers `ball-1`, `ball-2`, ... are pairwise distinct. */
  lemma SeedIdsUnique(rows: seq<BallSeedRow>, now: string)
    ensures UniqueIds(TransformSeedData(rows, now))
  {
    var balls := TransformSeedData(rows, now);
    forall i, j | 0 <= i < j < |balls| ensures balls[i].id != balls[j].id {
      if balls[i].id == balls[j].id {
        var a, b := Text.NatToString(i + 1), Text.NatToString(j + 1);
        assert a == balls[i].id[5..] && b == balls[j].id[5..];
        Text.NatToStringInjective(i + 1, j + 1);
      }
    }
  }

  /** `getById`: the first product with the identifier, or none. */
  function FindById(balls: seq<Ball>, id: string): (r: Option<Ball>)
    ensures r.None? <==> forall b :: b in balls ==> b.id != id
    ensures r.Some? ==> r.value in balls && r.value.id == id
    ensures r.Some? ==> exists i :: 0 <= i < |balls| && balls[i] == r.value &&
                                    forall j :: 0 <= j < i ==> balls[j].id != id
    ensures r.Some? && UniqueIds(balls) ==> forall b :: b in balls && b.id == id ==> b == r.value
  {
    Seqs.Find(balls, (b: Ball) => b.id == id)
  }

  /** The `search` test: the lower-cased query occurs in the name, brand, coverstock or core. */
  predicate MatchesQuery(b: Ball, lowerQuery: string) {
    || Text.Contains(Text.LowerStr(b.ballName), lowerQuery)
    || Text.Contains(Text.LowerStr(b.brand), lowerQuery)
    || Text.Contains(Text.LowerStr(b.coverstock), lowerQuery)
    || Text.Contains(Text.LowerStr(b.core), lowerQuery)
  }

  /** `search(query)`: the matching products in store order. */
  function Search(balls: seq<Ball>, query: string): (r: seq<Ball>)
    ensures forall b :: b in r <==> b in balls && MatchesQuery(b, Text.LowerStr(query))
    ensures Seqs.IsSubseq(r, balls)
  {
    Seqs.Filter(balls, (b: Ball) => MatchesQuery(b, Text.LowerStr(query)))
  }

  /** The empty query matches every product. */
  lemma SearchEmptyIsAll(balls: seq<Ball>)
    ensures Search(balls, "") == balls
  {
    forall b | b in balls ensures MatchesQuery(b, Text.LowerStr("")) {
      Text.EmptyContained(Text.LowerStr(b.ballName));
    }
    Seqs.FilterAll(balls, (b: Ball) => MatchesQuery(b, Text.LowerStr("")));
  }

  /** `filterByBrand(brand)`: the products of exactly that brand, in store order. */
  function FilterByBrand(balls: seq<Ball>, brand: string): (r: seq<Ball>)
    ensures forall b :: b in r <==> b in balls && b.brand == brand
    ensures Seqs.IsSubseq(r, balls)
  {
    Seqs.Filter(balls, (b: Ball) => b.brand == brand)
  }

  /** `delete`'s filter: every product with the identifier removed, the rest in order. */
  function RemoveId(balls: seq<Ball>, id: string): (r: seq<Ball>)
    ensures forall b :: b in r <==> b in balls && b.id != id
    ensures Seqs.IsSubseq(r, balls)
    ensures (forall b :: b in balls ==> b.id != id) ==> r == balls
  {
    var p := (b: Ball) => b.id != id;
    if forall b :: b in balls ==> b.id != id then Seqs.FilterAll(balls, p); Seqs.Filter(balls, p)
    else Seqs.Filter(balls, p)
  }

  /**
   * The record `update` stores: the updates over the current record, id and creation
   * time kept. The patch is taken to carry neither an identifier nor a creation time.
   */
  function Merged(current: Ball, updates: Ball, now: string): (r: Ball)
    ensures r.id == current.id && r.createdAt == current.createdAt && r.updatedAt == now
    ensures r.(id := updates.id, createdAt := updates.createdAt, updatedAt := updates.updatedAt) == updates
  {
    updates.(id := current.id, createdAt := current.createdAt, updatedAt := now)
  }

  /** What `duplicate` hands to `create`: identifier and timestamps stripped, name suffixed. */
  function CopyDraft(b: Ball): (d: Ball)
    ensures d.ballName == b.ballName + " (Copy)"
    ensures d.id == "" && d.createdAt == "" && d.updatedAt == ""
    ensures d.(ballName := b.ballName, id := b.id, createdAt := b.createdAt, updatedAt := b.updatedAt) == b
  {
    b.(id := "", createdAt := "", updatedAt := "", ballName := b.ballName + " (Copy)")
  }

  /** A subsequence of a list with unique identifiers has unique identifiers. */
  lemma {:induction false} SubseqKeepsUniqueIds(a: seq<Ball>, b: seq<Ball>)
    requires Seqs.IsSubseq(a, b) && UniqueIds(b)
    ensures UniqueIds(a)
    decreases |b|
  {
    if a != [] && b != [] {
      if a[0] == b[0] {
        SubseqKeepsUniqueIds(a[1..], b[1..]);
        Seqs.SubseqMembers(a[1..], b[1..]);
        forall j | 1 <= j < |a| ensures a[0].id != a[j].id {
          assert a[j] in a[1..];
          var k :| 0 <= k < |b[1..]| && b[1..][k] == a[j];
          assert b[k + 1] == a[j];
        }
      } else {
        SubseqKeepsUniqueIds(a, b[1..]);
      }
    }
  }

  /**
   * `create` keeps identifiers unique provided it is given an identifier not already in
   * the list (the timestamp identifiers of the source do not guarantee this by themselves).
   */
  lemma CreateKeepsUniqueIds(balls: seq<Ball>, added: Ball)
    requires UniqueIds(balls)
    requires forall b :: b in balls ==> b.id != added.id
    ensures UniqueIds([added] + balls)
  {
    var c := [added] + balls;
    forall j, k | 0 <= j < k < |c| ensures c[j].id != c[k].id {
      assert c[k] == balls[k - 1];
      if j == 0 {
        assert c[k] in balls;
      } else {
        assert c[j] == balls[j - 1];
      }
    }
  }

  /** `update` keeps identifiers unique: the merged record keeps the identifier it replaces. */
  lemma UpdateKeepsUniqueIds(balls: seq<Ball>, i: int, updates: Ball, now: string)
    requires UniqueIds(balls) && 0 <= i < |balls|
    ensures UniqueIds(balls[i := Merged(balls[i], updates, now)])
  {
  }

  /** `delete` keeps identifiers unique. */
  lemma DeleteKeepsUniqueIds(balls: seq<Ball>, id: string)
    requires UniqueIds(balls)
    ensures UniqueIds(RemoveId(balls, id))
  {
    SubseqKeepsUniqueIds(RemoveId(balls, id), balls);
  }

  /** The keys `getStats` counts brands under: one per product. */
  function BrandKeys(balls: seq<Ball>): (keys: seq<string>)
    ensures |keys| == |balls|
    ensures forall i :: 0 <= i < |balls| ==> keys[i] == balls[i].brand
    decreases |balls|
  {
    if balls == [] then [] else BrandKeys(balls[..|balls| - 1]) + [balls[|balls| - 1].brand]
  }

  /** A brand is among the keys exactly when some product has it. */
  lemma BrandKeysMembers(balls: seq<Ball>)
    ensures forall k :: k in BrandKeys(balls) <==> exists b :: b in balls && b.brand == k
  {
    forall k ensures k in BrandKeys(balls) <==> exists b :: b in balls && b.brand == k {
      if k in BrandKeys(balls) {
        var i :| 0 <= i < |balls| && BrandKeys(balls)[i] == k;
        assert balls[i] in balls;
      }
      if exists b :: b in balls && b.brand == k {
        var b :| b in balls && b.brand == k;
        var i :| 0 <= i < |balls| && balls[i] == b;
        assert BrandKeys(balls)[i] == k;
      }
    }
  }

  /** The keys counted as types: the truthy coverstock types, in store order. */
  function TypeKeys(balls: seq<Ball>): (keys: seq<string>)
    ensures |keys| <= |balls|
    decreases |balls|
  {
    if balls == [] then []
    else
      var last := balls[|balls| - 1];
      TypeKeys(balls[..|balls| - 1]) + (if last.coverstockType != "" then [last.coverstockType] else [])
  }

  /** A type is among the keys exactly when it is truthy and some product has it. */
  lemma {:induction false} TypeKeysMembers(balls: seq<Ball>)
    ensures forall k :: k in TypeKeys(balls) <==> k != "" && exists b :: b in balls && b.coverstockType == k
    decreases |balls|
  {
    if balls != [] {
      var init, last := balls[..|balls| - 1], balls[|balls| - 1];
      TypeKeysMembers(init);
      assert balls == init + [last];
      assert forall b :: b in balls <==> b in init || b == last;
    }
  }

  /** Per-key counts in key first-insertion order, as filled in by a `forEach` over products. */
  datatype Tally = Tally(brandOrder: seq<string>, byBrand: map<string, nat>,
                         typeOrder: seq<string>, byType: map<string, nat>)

  /** `BrandKeys` and `TypeKeys` grow by the product appended at position `i`. */
  lemma KeysStep(balls: seq<Ball>, i: int)
    requires 0 <= i < |balls|
    ensures BrandKeys(balls[..i + 1]) == BrandKeys(balls[..i]) + [balls[i].brand]
    ensures balls[i].coverstockType != "" ==> TypeKeys(balls[..i + 1]) == TypeKeys(balls[..i]) + [balls[i].coverstockType]
    ensures balls[i].coverstockType == "" ==> TypeKeys(balls[..i + 1]) == TypeKeys(balls[..i])
  {
    assert balls[..i + 1][..i] == balls[..i];
    assert TypeKeys(balls[..i]) + [] == TypeKeys(balls[..i]);
  }

  /** The counting loop shared by `getStats` and the dashboard. */
  method TallyBrandsAndTypes(balls: seq<Ball>) returns (t: Tally)
    ensures Seqs.Tallied(BrandKeys(balls), t.brandOrder, t.byBrand)
    ensures Seqs.Tallied(TypeKeys(balls), t.typeOrder, t.byType)
  {
    var brandOrder: seq<string> := [];
    var byBrand: map<string, nat> := map[];
    var typeOrder: seq<string> := [];
    var byType: map<string, nat> := map[];
    var i := 0;
    while i < |balls|
      invariant 0 <= i <= |balls|
      invariant Seqs.Tallied(BrandKeys(balls[..i]), brandOrder, byBrand)
      invariant Seqs.Tallied(TypeKeys(balls[..i]), typeOrder, byType)
    {
      var ball := balls[i];
      KeysStep(balls, i);
      brandOrder, byBrand := Seqs.CountKey(BrandKeys(balls[..i]), brandOrder, byBrand, ball.brand);
      if ball.coverstockType != "" {
        typeOrder, byType := Seqs.CountKey(TypeKeys(balls[..i]), typeOrder, byType, ball.coverstockType);
      }
      i := i + 1;
    }
    assert balls[..i] == balls;
    t := Tally(brandOrder, byBrand, typeOrder, byType);
  }

  /** Over the distinct brands the brand counts add up to the number of products. */
  lemma BrandCountsSumToTotal(balls: seq<Ball>)
    ensures Seqs.SumCounts(Seqs.Dedup(BrandKeys(balls)), BrandKeys(balls)) == |balls|
  {
    Seqs.SumCountsDedup(BrandKeys(balls));
  }

  /** Only truthy types are counted, so the type counts add up to at most the total. */
  lemma TypeCountsAtMostTotal(balls: seq<Ball>)
    ensures Seqs.SumCounts(Seqs.Dedup(TypeKeys(balls)), TypeKeys(balls)) <= |balls|
  {
    Seqs.SumCountsDedup(TypeKeys(balls));
  }

  /** The statistics `getStats` publishes. */
  datatype Stats = Stats(total: nat, byBrand: map<string, nat>, byType: map<string, nat>)

  /** A cached list is used at start-up when it exists and is non-empty. */
  predicate CacheUsable(cached: Option<Storage.Doc>) {
    cached.Some? && cached.value.BallList? && |cached.value.balls| > 0
  }

  class BallService {
    var balls: seq<Ball>
    var loading: bool
    const storage: Storage.StorageService

    /** Construction runs `loadInitialData`: the cached list if usable, otherwise a seed fetch starts. */
    constructor (storage: Storage.StorageService)
      ensures this.storage == storage
      ensures var cached := Storage.Read(storage.store, StorageKey);
        if CacheUsable(cached) then balls == cached.value.balls && !loading
        else balls == [] && loading
    {
      this.storage := storage;
      balls := [];
      loading := false;
      new;
      LoadInitialData();
    }

    method LoadInitialData()
      modifies this
      ensures var cached := Storage.Read(storage.store, StorageKey);
        if CacheUsable(cached) then balls == cached.value.balls && loading == old(loading)
        else balls == old(balls) && loading
    {
      var cached := storage.Get(StorageKey);
      if cached.Some? && cached.value.BallList? && |cached.value.balls| > 0 {
        balls := cached.value.balls;
      } else {
        LoadSeedData();
      }
    }

    /** The start of the seed fetch. */
    method LoadSeedData()
      modifies this
      ensures loading && balls == old(balls)
    {
      loading := true;
    }

    /** Completion of the seed fetch: rows are transformed, cached and published; an error publishes nothing. */
    method OnSeedLoaded(fetched: Fetch<seq<BallSeedRow>>, now: string, accepted: bool)
      modifies this, storage
      ensures !loading
      ensures fetched.Loaded? ==>
        balls == TransformSeedData(fetched.data, now) &&
        storage.store == Storage.Written(old(storage.store), StorageKey, Storage.BallList(balls), accepted)
      ensures fetched.FetchFailed? ==> balls == old(balls) && storage.store == old(storage.store)
    {
      if fetched.Loaded? {
        var transformed := TransformSeedData(fetched.data, now);
        storage.Set(StorageKey, Storage.BallList(transformed), accepted);
        balls := transformed;
      }
      loading := false;
    }

    /** `create`: the new product is stamped, prepended, published and cached. */
    method Create(draft: Ball, id: string, now: string, accepted: bool) returns (b: Ball)
      modifies this, storage
      ensures b == draft.(id := id, createdAt := now)
      ensures balls == [b] + old(balls) && loading == old(loading)
      ensures storage.store == Storage.Written(old(storage.store), StorageKey, Storage.BallList(balls), accepted)
    {
      b := draft.(id := id, createdAt := now);
      balls := [b] + balls;
      storage.Set(StorageKey, Storage.BallList(balls), accepted);
    }

    /** `update`: an unknown id changes nothing; otherwise the record is merged in place. */
    method Update(id: string, updates: Ball, now: string, accepted: bool) returns (r: Option<Ball>)
      modifies this, storage
      ensures loading == old(loading)
      ensures var i := Seqs.FirstIndex(old(balls), (b: Ball) => b.id == id);
        if i == -1 then
          r.None? && balls == old(balls) && storage.store == old(storage.store)
        else
          && r == Some(Merged(old(balls)[i], updates, now))
          && balls == old(balls)[i := r.value]
          && storage.store == Storage.Written(old(storage.store), StorageKey, Storage.BallList(balls), accepted)
    {
      var i := Seqs.FirstIndex(balls, (b: Ball) => b.id == id);
      if i == -1 {
        return None;
      }
      var updated := Merged(balls[i], updates, now);
      balls := balls[i := updated];
      storage.Set(StorageKey, Storage.BallList(balls), accepted);
      r := Some(updated);
    }

    /** `delete`: always succeeds; every product with the id is filtered out. */
    method Delete(id: string, accepted: bool) returns (ok: bool)
      modifies this, storage
      ensures ok
      ensures balls == RemoveId(old(balls), id) && loading == old(loading)
      ensures storage.store == Storage.Written(old(storage.store), StorageKey, Storage.BallList(balls), accepted)
    {
      balls := RemoveId(balls, id);
      storage.Set(StorageKey, Storage.BallList(balls), accepted);
      ok := true;
    }

    /** `duplicate`: an unknown id changes nothing; otherwise `create` of the stripped, suffixed copy. */
    method Duplicate(id: string, newId: string, now: string, accepted: bool) returns (r: Option<Ball>)
      modifies this, storage
      ensures loading == old(loading)
      ensures var source := FindById(old(balls), id);
        if source.None? then
          r.None? && balls == old(balls) && storage.store == old(storage.store)
        else
          && r == Some(CopyDraft(source.value).(id := newId, createdAt := now))
          && balls == [r.value] + old(balls)
          && storage.store == Storage.Written(old(storage.store), StorageKey, Storage.BallList(balls), accepted)
    {
      var source := FindById(balls, id);
      if source.None? {
        return None;
      }
      var created := Create(CopyDraft(source.value), newId, now, accepted);
      r := Some(created);
    }

    /** `refreshFromApi`: for now, a new seed fetch. */
    method RefreshFromApi()
      modifies this
      ensures loading && balls == old(balls)
    {
      loading := true;
      LoadSeedData();
    }

    /** `clearCache`: the cache key is removed and an empty list published. */
    method ClearCache()
      modifies this, storage
      ensures balls == [] && loading == old(loading)
      ensures storage.store == Storage.Removed(old(storage.store), StorageKey)
    {
      storage.Remove(StorageKey);
      balls := [];
    }

    /** `getStats` over the current list. */
    method GetStats() returns (s: Stats)
      ensures s.total == |balls|
      ensures forall k :: k in s.byBrand <==> exists b :: b in balls && b.brand == k
      ensures forall k :: k in s.byBrand ==> s.byBrand[k] == Seqs.Count(BrandKeys(balls), k)
      ensures forall k :: k in s.byType <==> k != "" && exists b :: b in balls && b.coverstockType == k
      ensures forall k :: k in s.byType ==> s.byType[k] == Seqs.Count(TypeKeys(balls), k)
    {
      var t := TallyBrandsAndTypes(balls);
      s := Stats(|balls|, t.byBrand, t.byType);
      BrandKeysMembers(balls);
      TypeKeysMembers(balls);
    }
  }
}
