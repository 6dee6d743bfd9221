/**
 * The reference-data store: the controlled vocabularies (coverstocks, finishes, weight
 * blocks, brands, lines, coverstock types), cached with a 24-hour time-to-live, loaded
 * from a bundled asset on a miss, and extended one entry at a time.
 *
 * The published value (`referenceDataSubject`, `null` until loaded) is the field
 * `referenceData`. The asset fetch is split into its start and its completion
 * `OnAssetsLoaded`; the clock `now` and write acceptance are parameters.
 */
module ReferenceStore {
  import opened Wrappers
  import opened Models
  import Seqs
  import Storage

  const StorageKey := "reference_data"

  /** 24 hours in milliseconds. */
  const CacheTtl := 24 * 60 * 60 * 1000

  /** The vocabulary used when the asset cannot be fetched. */
  function DefaultReferenceData(): (d: ReferenceData)
    ensures d.coverstocks == [] && d.finishes == [] && d.weightBlocks == []
    ensures |d.brands| == 3 && d.brands[0] == "Storm" && Seqs.NoDup(d.brands)
    ensures |d.lines| == 3 && Seqs.NoDup(d.lines)
    ensures |d.coverstockTypes| == 3 && Seqs.NoDup(d.coverstockTypes)
    ensures d.colors.None? && d.fragrances.None? && d.logos.None?
  {
    ReferenceData(
      coverstocks := [], finishes := [], weightBlocks := [],
      brands := ["Storm", "Roto Grip", "900 Global"],
      lines := ["Premier", "Prime", "Hot"],
      coverstockTypes := ["Pearl Reactive", "Solid Reactive", "Hybrid Reactive"],
      colors := None, fragrances := None, logos := None)
  }

  /** The six lists the getters expose. */
  datatype ListKind = Coverstocks | Finishes | WeightBlocks | Brands | Lines | CoverstockTypes

  function ListOf(d: ReferenceData, kind: ListKind): seq<string> {
    match kind
    case Coverstocks => d.coverstocks
    case Finishes => d.finishes
    case WeightBlocks => d.weightBlocks
    case Brands => d.brands
    case Lines => d.lines
    case CoverstockTypes => d.coverstockTypes
  }

  /** `getCoverstocks()` and its siblings: `data?.list || []`. */
  function Listed(r: Option<ReferenceData>, kind: ListKind): (l: seq<string>)
    ensures r.None? ==> l == []
    ensures r.Some? ==> l == ListOf(r.value, kind)
  {
    if r.None? then [] else ListOf(r.value, kind)
  }

  /** `[...list, x]` unless `list.includes(x)`. */
  function AddIfAbsent(list: seq<string>, x: string): (r: seq<string>)
    ensures x in r
    ensures forall y :: y in r <==> y in list || y == x
    ensures x in list ==> r == list
    ensures x !in list ==> r == list + [x]
  {
    if x in list then list else list + [x]
  }

  /** Adding keeps a duplicate-free list duplicate-free, and adding twice is adding once. */
  lemma AddIfAbsentLaws(list: seq<string>, x: string)
    ensures Seqs.NoDup(list) ==> Seqs.NoDup(AddIfAbsent(list, x))
    ensures AddIfAbsent(AddIfAbsent(list, x), x) == AddIfAbsent(list, x)
  {
  }

  /** The value after adding `x` to the list `kind`; the other lists are unchanged. */
  function WithAdded(d: ReferenceData, kind: ListKind, x: string): (r: ReferenceData)
    requires kind == Coverstocks || kind == Finishes || kind == WeightBlocks
    ensures ListOf(r, kind) == AddIfAbsent(ListOf(d, kind), x)
    ensures forall k :: k != kind ==> ListOf(r, k) == ListOf(d, k)
    ensures r.colors == d.colors && r.fragrances == d.fragrances && r.logos == d.logos
  {
    match kind
    case Coverstocks => d.(coverstocks := AddIfAbsent(d.coverstocks, x))
    case Finishes => d.(finishes := AddIfAbsent(d.finishes, x))
    case WeightBlocks => d.(weightBlocks := AddIfAbsent(d.weightBlocks, x))
  }

  class ReferenceDataService {
    var referenceData: Option<ReferenceData>
    var loading: bool
    const storage: Storage.StorageService

    /** Construction runs `loadData` at time `now`. */
    constructor (storage: Storage.StorageService, now: int)
      modifies storage
      ensures this.storage == storage
      ensures var read := Storage.ReadWithExpiry(old(storage.store), StorageKey, now);
        && storage.store == read.store
        && if read.value.Some? && read.value.value.Reference? then
             referenceData == Some(read.value.value.data) && !loading
           else
             referenceData.None? && loading
    {
      this.storage := storage;
      referenceData := None;
      loading := false;
      new;
      LoadData(now);
    }

    /** `loadData`: a live cached value is published, otherwise the asset fetch starts. */
    method LoadData(now: int)
      modifies this, storage
      ensures var read := Storage.ReadWithExpiry(old(storage.store), StorageKey, now);
        && storage.store == read.store
        && if read.value.Some? && read.value.value.Reference? then
             referenceData == Some(read.value.value.data) && loading == old(loading)
           else
             referenceData == old(referenceData) && loading
    {
      var cached := storage.GetWithExpiry(StorageKey, now);
      if cached.Some? && cached.value.Reference? {
        referenceData := Some(cached.value.data);
        return;
      }
      loading := true;
    }

    /**
     * Completion of the asset fetch: the data is cached for 24 hours and published. On
     * a failure the default vocabulary is only handed to the (empty) subscriber; nothing
     * is published or cached.
     */
    method OnAssetsLoaded(fetched: Fetch<ReferenceData>, now: int, accepted: bool)
      modifies this, storage
      ensures !loading
      ensures fetched.Loaded? ==>
        && referenceData == Some(fetched.data)
        && storage.store == Storage.WrittenWithExpiry(old(storage.store), StorageKey, Storage.Reference(fetched.data), CacheTtl, now, accepted)
      ensures fetched.FetchFailed? ==> referenceData == old(referenceData) && storage.store == old(storage.store)
    {
      if fetched.Loaded? {
        storage.SetWithExpiry(StorageKey, Storage.Reference(fetched.data), CacheTtl, now, accepted);
        referenceData := Some(fetched.data);
      }
      loading := false;
    }

    /** `addCoverstock`, `addFinish`, `addWeightBlock`: nothing happens before data is loaded or for a known entry. */
    method Add(kind: ListKind, x: string, now: int, accepted: bool)
      requires kind == Coverstocks || kind == Finishes || kind == WeightBlocks
      modifies this, storage
      ensures loading == old(loading)
      ensures if old(referenceData).Some? && x !in ListOf(old(referenceData).value, kind) then
          && referenceData == Some(WithAdded(old(referenceData).value, kind, x))
          && storage.store == Storage.WrittenWithExpiry(old(storage.store), StorageKey, Storage.Reference(referenceData.value), CacheTtl, now, accepted)
        else
          referenceData == old(referenceData) && storage.store == old(storage.store)
    {
      var current := referenceData;
      if current.Some? && x !in ListOf(current.value, kind) {
        UpdateAndSave(WithAdded(current.value, kind, x), now, accepted);
      }
    }

    method UpdateAndSave(data: ReferenceData, now: int, accepted: bool)
      modifies this, storage
      ensures referenceData == Some(data) && loading == old(loading)
      ensures storage.store == Storage.WrittenWithExpiry(old(storage.store), StorageKey, Storage.Reference(data), CacheTtl, now, accepted)
    {
      referenceData := Some(data);
      storage.SetWithExpiry(StorageKey, Storage.Reference(data), CacheTtl, now, accepted);
    }

    /** `refreshFromApi`: the cache entry is dropped and the asset fetch starts; the old value stays published. */
    method RefreshFromApi()
      modifies this, storage
      ensures loading && referenceData == old(referenceData)
      ensures storage.store == Storage.Removed(old(storage.store), StorageKey)
    {
      storage.Remove(StorageKey);
      loading := true;
    }

    /** `clearCache`: the entry is dropped and `null` published. */
    method ClearCache()
      modifies this, storage
      ensures referenceData.None? && loading == old(loading)
      ensures storage.store == Storage.Removed(old(storage.store), StorageKey)
    {
      storage.Remove(StorageKey);
      referenceData := None;
    }
  }

  /** A successful load survives a reload within the time-to-live: the next start-up publishes the same data. */
  lemma LoadedDataIsReused(store: Storage.Store, d: ReferenceData, t: int, now: int)
    requires t <= now <= t + CacheTtl
    ensures var s := Storage.WrittenWithExpiry(store, StorageKey, Storage.Reference(d), CacheTtl, t, true);
            Storage.ReadWithExpiry(s, StorageKey, now) == Storage.ExpiryRead(Some(Storage.Reference(d)), s)
  {
    Storage.ExpiryRoundTrip(store, StorageKey, Storage.Reference(d), CacheTtl, t, now);
  }

  /** After the time-to-live the entry reads as missing and is removed, so the asset is fetched again. */
  lemma StaleDataIsRefetched(store: Storage.Store, d: ReferenceData, t: int, now: int)
    requires t + CacheTtl != 0 && now > t + CacheTtl
    ensures var s := Storage.WrittenWithExpiry(store, StorageKey, Storage.Reference(d), CacheTtl, t, true);
            Storage.ReadWithExpiry(s, StorageKey, now) == Storage.ExpiryRead(None, Storage.Removed(s, StorageKey))
  {
  }
}
