# NPLS product catalogue — a verified model

NPLS is a small Angular application for maintaining a bowling-ball product catalogue.
It has products ("balls"), cores (weight blocks with per-weight radius-of-gyration
measurements) and a controlled reference vocabulary of coverstocks, finishes, weight
blocks, brands, lines and coverstock types. Everything is cached in the browser's
local storage under the `npls_` prefix and seeded from JSON assets.

This project models the application's services and its five pages in Dafny and proves
properties of that model:

- `storage.dfy` (`Storage`): the prefixed local-storage wrapper, with its plain and
  expiring reads and writes. The whole of local storage, foreign keys included, is a map
  from keys to text.
- `ball_store.dfy` (`BallStore`): the product service.
  - The seed transformation, with its colour extraction, `ball-N` identifiers and defaults.
  - Look-ups and searches.
  - Create, update, delete and duplicate, each followed by a publish and a cache write.
  - Cache-or-seed start-up and the statistics tally.
- `core_store.dfy` (`CoreStore`): the core service.
  - The seven weight-column groups of the seed table and the symmetry rule.
  - Look-ups by id, name and line, the symmetric and asymmetric splits, and the `Partial<Core>` merge.
  - Create, update and delete.
- `reference_store.dfy` (`ReferenceStore`): the reference-data service.
  - The 24-hour cache and the default vocabulary.
  - The add-if-absent updates and refresh.
- `npls_form.dfy` (`ProductForm`): the create/edit form.
  - The colour array: at most four entries, renumbered on removal.
  - Loading a product, core selection and autocomplete.
  - Submission and reset.
- `product_list.dfy` (`ProductList`): the product table's composite filter, and the text spec sheet with its file name.
- `core_specs.dfy` (`CoreSpecs`): the core table's filter, line choices, weight lookups and the expand and view toggles.
- `dashboard.dfy` (`Dashboard`): the dashboard statistics. Brands and types are ranked by count, and the ten most recent products are listed.
- `reference_page.dfy` (`ReferencePage`): the reference-data page.
  - The three filtered lists and the add inputs.
  - The type styling (`getTypeClass`/`getTypeIcon`).
- `models.dfy`, `wrappers.dfy`, `text.dfy`, `seqs.dfy`: the records, `Option`, ASCII
  lower-casing and substring search, and sequence filtering and deduplication.

State that the source changes in place lives in classes:

| class | what it holds |
|---|---|
| `StorageService` | the store |
| `BallService` / `CoreService` / `ReferenceDataService` | the published value, the loading flag and the storage service |
| component classes | the form controls, filter inputs and shown lists |

Every state-changing method states its whole new state. Pure logic is written as functions, and the properties as lemmas over them.

An HTTP fetch becomes two steps:

1. The method that starts it sets the loading flag.
2. A completion method (`OnSeedLoaded`, `OnAssetsLoaded`) takes the fetch outcome as a
   parameter. The outcome is either the parsed body or an error.

Other inputs are also parameters:

- The clock: `now`, in milliseconds or as ISO text.
- Generated identifiers.
- Whether local storage accepts a write: `accepted`, since a full quota makes `setItem` throw and the service swallows the error.

In a few places the code does something other than one might expect, and the model follows the code:

- Seed product identifiers are `ball-1`, `ball-2`, … by position. Only `create` uses a timestamp.
- Neither service search trims the query.
- When the reference asset cannot be fetched, the catch handler builds the default vocabulary. It is never published or cached, because only the success path's `tap` does that. The published value stays as it was.

## Model

| member | source | states |
|---|---|---|
| Storage.PhysicalKey | npls-app/src/app/services/storage.service.ts:7-11 | every key the service touches is the logical key behind the `npls_` prefix, and distinct logical keys never share a physical key |
| Storage.ForeignKeysUntouched | npls-app/src/app/services/storage.service.ts:22-70 | no write, remove or expiring write changes a key that lacks the prefix |
| Storage.SetThenGet | npls-app/src/app/services/storage.service.ts:9-28 | an accepted `set` is read back by `get`; a refused write leaves the store as it was |
| Storage.GetMisses | npls-app/src/app/services/storage.service.ts:9-20 | a missing key, empty text and unparseable text all read as null |
| Storage.RemoveThenExists | npls-app/src/app/services/storage.service.ts:30-41 | after `remove(k)`, `exists(k)` is false and every other key is unchanged |
| Storage.ClearExact | npls-app/src/app/services/storage.service.ts:34-37 | `clear` drops exactly the prefixed keys and keeps every other key with its value |
| Storage.ExpiryRoundTrip | npls-app/src/app/services/storage.service.ts:43-70 | a value written with a time-to-live reads back unchanged, with the store untouched, until its expiry passes |
| Storage.ExpiredEntryRemoved | npls-app/src/app/services/storage.service.ts:48-52 | past a non-zero expiry the read yields null and the entry is removed |
| Storage.ZeroExpiryNeverExpires | npls-app/src/app/services/storage.service.ts:49 | a zero or missing expiry is never treated as expired |
| Storage.StorageService.constructor | npls-app/src/app/services/storage.service.ts:6-7 | the service wraps the given local storage |
| Storage.StorageService.Get | npls-app/src/app/services/storage.service.ts:9-20 | returns the parsed document under the prefixed key, or none; the store is unchanged |
| Storage.StorageService.Set | npls-app/src/app/services/storage.service.ts:22-28 | the prefixed key holds the serialised value when the write is accepted; nothing else changes |
| Storage.StorageService.Remove | npls-app/src/app/services/storage.service.ts:30-32 | only the prefixed key is removed |
| Storage.StorageService.Exists | npls-app/src/app/services/storage.service.ts:39-41 | true exactly when the prefixed key is present |
| Storage.StorageService.Clear | npls-app/src/app/services/storage.service.ts:34-37 | the loop over collected keys leaves exactly the non-prefixed entries |
| Storage.StorageService.GetWithExpiry | npls-app/src/app/services/storage.service.ts:43-58 | returns the stored value unless missing, unparseable or expired; an expired entry is removed |
| Storage.StorageService.SetWithExpiry | npls-app/src/app/services/storage.service.ts:60-70 | stores the value with expiry `now + ttl` under the prefixed key when accepted |
| BallStore.SeedColorsShape | npls-app/src/app/services/ball.service.ts:71-85 | at most three colours, numbered from the `Color n` column, in column order, one exactly for each truthy colour cell |
| BallStore.ExtractColors | npls-app/src/app/services/ball.service.ts:71-85 | the pushing method returns the colours of the truthy `Color 1..3` columns with their shades |
| BallStore.TransformSeedData | npls-app/src/app/services/ball.service.ts:53-69 | one product per row, in row order, identified `ball-<position+1>` and stamped with the load time |
| BallStore.SeedDefaults | npls-app/src/app/services/ball.service.ts:56-66 | a missing release type becomes `OEM`; the name, brand, coverstock, type, finish, core and colour name fall back to empty; the release date and fragrance are copied with no default; no update time or logos |
| BallStore.SeedIdsUnique | npls-app/src/app/services/ball.service.ts:55 | the seed identifiers are pairwise distinct |
| BallStore.FindById | npls-app/src/app/services/ball.service.ts:91-95 | none exactly when no product has the id; otherwise the first product with it |
| BallStore.Search | npls-app/src/app/services/ball.service.ts:97-107 | exactly the products whose name, brand, coverstock or core contains the lower-cased query, in store order |
| BallStore.SearchEmptyIsAll | npls-app/src/app/services/ball.service.ts:97-107 | the empty query returns the whole list |
| BallStore.FilterByBrand | npls-app/src/app/services/ball.service.ts:109-113 | exactly the products of that brand, in store order |
| BallStore.RemoveId | npls-app/src/app/services/ball.service.ts:160-162 | no product with the id remains; every other product is kept in order |
| BallStore.Merged | npls-app/src/app/services/ball.service.ts:143-147 | the stored record keeps the current id and creation time, takes the update time `now`, and every other field from the patch |
| BallStore.CopyDraft | npls-app/src/app/services/ball.service.ts:173-185 | the copy has no id or timestamps, its name is suffixed ` (Copy)`, and everything else is the original's |
| BallStore.SubseqKeepsUniqueIds | npls-app/src/app/services/ball.service.ts:162 | a filtered list keeps identifiers unique |
| BallStore.CreateKeepsUniqueIds | npls-app/src/app/services/ball.service.ts:115-123 | prepending a product with a fresh id keeps identifiers unique |
| BallStore.UpdateKeepsUniqueIds | npls-app/src/app/services/ball.service.ts:134-150 | replacing a record by its merge keeps identifiers unique, since the merge keeps the id (for a patch without an id) |
| BallStore.DeleteKeepsUniqueIds | npls-app/src/app/services/ball.service.ts:160-165 | delete keeps identifiers unique |
| BallStore.BrandKeys | npls-app/src/app/services/ball.service.ts:215-216 | one brand key per product, in store order |
| BallStore.BrandKeysMembers | npls-app/src/app/services/ball.service.ts:215-216 | a brand is counted exactly when some product has it |
| BallStore.TypeKeys | npls-app/src/app/services/ball.service.ts:217-219 | the keys are the truthy coverstock types in store order, at most one per product |
| BallStore.TypeKeysMembers | npls-app/src/app/services/ball.service.ts:217-219 | a type is counted exactly when it is non-empty and some product has it |
| BallStore.KeysStep | npls-app/src/app/services/ball.service.ts:215-220 | one more product extends the brand and type keys by its own |
| BallStore.TallyBrandsAndTypes | npls-app/src/app/services/ball.service.ts:212-220 | the loop's records map each key to its number of occurrences, with keys in first-insertion order |
| BallStore.BrandCountsSumToTotal | npls-app/src/app/services/ball.service.ts:215-222 | the brand counts add up to the number of products |
| BallStore.TypeCountsAtMostTotal | npls-app/src/app/services/ball.service.ts:217-222 | the type counts add up to at most the number of products |
| BallStore.BallService.constructor | npls-app/src/app/services/ball.service.ts:23-36 | a usable cached list is published unchanged; otherwise the seed fetch starts with loading set |
| BallStore.BallService.LoadInitialData | npls-app/src/app/services/ball.service.ts:27-36 | a non-empty cached list is published; otherwise the seed load starts |
| BallStore.BallService.LoadSeedData | npls-app/src/app/services/ball.service.ts:38-39 | starting the seed fetch sets loading and changes nothing else |
| BallStore.BallService.OnSeedLoaded | npls-app/src/app/services/ball.service.ts:40-50 | on success the transformed rows are cached and published; on error nothing is published; loading ends either way |
| BallStore.BallService.Create | npls-app/src/app/services/ball.service.ts:115-132 | the stamped product is prepended to the published list and that list is cached |
| BallStore.BallService.Update | npls-app/src/app/services/ball.service.ts:134-158 | an unknown id changes nothing and returns none; otherwise only that position is replaced by the merge, then published and cached |
| BallStore.BallService.Delete | npls-app/src/app/services/ball.service.ts:160-171 | always true; the list without the id is published and cached |
| BallStore.BallService.Duplicate | npls-app/src/app/services/ball.service.ts:173-185 | an unknown id changes nothing; otherwise exactly `create` of the stripped, suffixed copy |
| BallStore.BallService.RefreshFromApi | npls-app/src/app/services/ball.service.ts:187-202 | a seed fetch starts; the published list stays |
| BallStore.BallService.ClearCache | npls-app/src/app/services/ball.service.ts:204-207 | the cache key is removed and an empty list published |
| BallStore.BallService.GetStats | npls-app/src/app/services/ball.service.ts:209-225 | the total is the list length and the tallies count every brand and every truthy type |
| CoreStore.SpecsUpTo | npls-app/src/app/services/core.service.ts:55-75 | the specs of the first n weight groups, at most one per group |
| CoreStore.SpecsUpToShape | npls-app/src/app/services/core.service.ts:65-75 | exactly one spec per present weight cell, each contributed by one of the groups |
| CoreStore.PresentWeightsExtremes | npls-app/src/app/services/core.service.ts:65-75 | no present weight gives no spec; all present gives one per group |
| CoreStore.SeedSpecsBounds | npls-app/src/app/services/core.service.ts:55-75 | a seed core has between zero and seven specs, zero with no weight cell and seven with all seven |
| CoreStore.ExtractSpecs | npls-app/src/app/services/core.service.ts:65-75 | the `forEach` loop builds exactly the specs of the seven groups |
| CoreStore.AsymmetricMentionsSymmetric | npls-app/src/app/services/core.service.ts:77-79 | a name containing `asymmetric` is never symmetric; one containing `symmetric` and not `asymmetric` is |
| CoreStore.SymmetryExamples | npls-app/src/app/services/core.service.ts:77-79 | `Symmetric` classifies as symmetric, `Asymmetric` and the empty name as asymmetric |
| CoreStore.TransformSeedData | npls-app/src/app/services/core.service.ts:50-91 | one core per row in row order, identified `core-<position+1>`, with the name's symmetry and the row's specs |
| CoreStore.SeedDefaults | npls-app/src/app/services/core.service.ts:77-86 | a missing name or line becomes the empty string, a missing or falsy core or weight-block number the empty code; present values are copied |
| CoreStore.SeedIdsUnique | npls-app/src/app/services/core.service.ts:82 | the seed identifiers are pairwise distinct |
| CoreStore.FindById | npls-app/src/app/services/core.service.ts:97-101 | none exactly when no core has the id; otherwise the first core with that id |
| CoreStore.GetByName | npls-app/src/app/services/core.service.ts:103-110 | the first core whose lower-cased name contains the lower-cased query, none when no core's does |
| CoreStore.GetByNameFindsExact | npls-app/src/app/services/core.service.ts:103-110 | a query equal to a core's name always finds a core, possibly an earlier one whose name merely contains it |
| CoreStore.Search | npls-app/src/app/services/core.service.ts:112-121 | exactly the cores whose name or line contains the lower-cased query, or whose code text contains it, in order |
| CoreStore.GetByLine | npls-app/src/app/services/core.service.ts:123-127 | exactly the cores of that line, in order |
| CoreStore.SymmetricCores | npls-app/src/app/services/core.service.ts:129-133 | exactly the symmetric cores, in order |
| CoreStore.AsymmetricCores | npls-app/src/app/services/core.service.ts:135-139 | exactly the asymmetric cores, in order |
| CoreStore.SymmetryPartition | npls-app/src/app/services/core.service.ts:129-139 | every core lies in exactly one of the two lists, and their lengths add up to the total |
| CoreStore.Merge | npls-app/src/app/services/core.service.ts:164-167 | each given field replaces the current one and each left-out field is kept |
| CoreStore.MergeLaws | npls-app/src/app/services/core.service.ts:164-167 | the empty patch changes nothing and merging the same patch twice is merging it once |
| CoreStore.RenameKeepsFlag | npls-app/src/app/services/core.service.ts:156-176 | renaming through update does not recompute the symmetry flag |
| CoreStore.RemoveId | npls-app/src/app/services/core.service.ts:178-180 | no core with the id remains; every other core is kept in order |
| CoreStore.CoreService.constructor | npls-app/src/app/services/core.service.ts:22-48 | a usable cached list is published; otherwise the seed fetch starts with loading set |
| CoreStore.CoreService.OnSeedLoaded | npls-app/src/app/services/core.service.ts:37-47 | on success the transformed rows are cached and published; on error nothing is published; loading ends |
| CoreStore.CoreService.Create | npls-app/src/app/services/core.service.ts:141-154 | the core with the new id is prepended, published and cached |
| CoreStore.CoreService.Update | npls-app/src/app/services/core.service.ts:156-176 | an unknown id changes nothing; otherwise only that position is replaced by the merge, with no timestamp |
| CoreStore.CoreService.Delete | npls-app/src/app/services/core.service.ts:178-186 | always true; the list without the id is published and cached |
| CoreStore.CoreService.ClearCache | npls-app/src/app/services/core.service.ts:188-191 | the cache key is removed and an empty list published |
| ReferenceStore.DefaultReferenceData | npls-app/src/app/services/reference-data.service.ts:52-61 | empty coverstocks, finishes and weight blocks; three distinct brands starting with `Storm`, three distinct lines and coverstock types; no extended lists |
| ReferenceStore.Listed | npls-app/src/app/services/reference-data.service.ts:67-113 | each getter yields the loaded list, or empty before data is loaded |
| ReferenceStore.AddIfAbsent | npls-app/src/app/services/reference-data.service.ts:117-120 | a known entry leaves the list as it was; a new one is appended at the end |
| ReferenceStore.AddIfAbsentLaws | npls-app/src/app/services/reference-data.service.ts:115-146 | adding keeps a duplicate-free list duplicate-free, and adding twice equals adding once |
| ReferenceStore.WithAdded | npls-app/src/app/services/reference-data.service.ts:115-146 | only the chosen list changes; the other five are kept |
| ReferenceStore.LoadedDataIsReused | npls-app/src/app/services/reference-data.service.ts:27-50 | data cached by a successful load is published again by a start-up within 24 hours |
| ReferenceStore.StaleDataIsRefetched | npls-app/src/app/services/reference-data.service.ts:27-50 | after 24 hours the entry reads as missing and is removed, so the assets are fetched again |
| ReferenceStore.ReferenceDataService.constructor | npls-app/src/app/services/reference-data.service.ts:23-36 | a live cached value is published; otherwise the asset fetch starts |
| ReferenceStore.ReferenceDataService.LoadData | npls-app/src/app/services/reference-data.service.ts:27-36 | a live cached value is published and nothing else happens; otherwise loading is set |
| ReferenceStore.ReferenceDataService.OnAssetsLoaded | npls-app/src/app/services/reference-data.service.ts:38-50 | on success the data is cached for 24 hours and published; on error nothing is published or cached |
| ReferenceStore.ReferenceDataService.Add | npls-app/src/app/services/reference-data.service.ts:115-146 | nothing happens without data or for a known entry; otherwise the extended data is published and cached for 24 hours |
| ReferenceStore.ReferenceDataService.UpdateAndSave | npls-app/src/app/services/reference-data.service.ts:148-151 | the data is published and cached with the 24-hour time-to-live |
| ReferenceStore.ReferenceDataService.RefreshFromApi | npls-app/src/app/services/reference-data.service.ts:153-157 | the cache entry is removed and a fetch starts; the old value stays published |
| ReferenceStore.ReferenceDataService.ClearCache | npls-app/src/app/services/reference-data.service.ts:159-162 | the entry is removed and null is published |
| ProductForm.Renumbered | npls-app/src/app/components/npls-form/npls-form.component.ts:769-775 | same entries in order, each numbered by its position plus one |
| ProductForm.CreateColorGroupAsWritten | npls-app/src/app/components/npls-form/npls-form.component.ts:649-655 | throws on an unassigned form, numbers 1 without a colours control, otherwise one past the length |
| ProductForm.InitFormAsWritten | npls-app/src/app/components/npls-form/npls-form.component.ts:611-647 | the form is built only if a form already existed beforehand |
| ProductForm.InitFormThrows | npls-app/src/app/components/npls-form/npls-form.component.ts:605-655 | the first `initForm`, from `ngOnInit`, throws |
| ProductForm.LoadedColors | npls-app/src/app/components/npls-form/npls-form.component.ts:707-718 | the product's colours unchanged, or one empty entry numbered 1 when it has none |
| ProductForm.NewColorEntry | npls-app/src/app/components/npls-form/npls-form.component.ts:649-655 | `createColorGroup` once the form exists: an entry numbered one past the current length, with empty colour and shade |
| ProductForm.PatchedForm | npls-app/src/app/components/npls-form/npls-form.component.ts:720-739 | the corrected patch: every listed field of the product, plus its core and weight-block numbers; the release date is none exactly when the product's is empty; the product's logos, or the form's when it has none (`ball.logos \|\| {}`) |
| ProductForm.CoreAfterPatch | npls-app/src/app/components/npls-form/npls-form.component.ts:741-748 | the selection after loading: an empty core name keeps the previous selection; a name that `getByName` finds selects that core; a miss keeps the previous selection; a new selection is always a store core whose name contains the product's core name |
| ProductForm.PatchedFormAsWritten | npls-app/src/app/components/npls-form/npls-form.component.ts:720-739 | the patch copies every listed field but keeps the form's core and weight-block numbers |
| ProductForm.SubmittedColors | npls-app/src/app/components/npls-form/npls-form.component.ts:802 | exactly the entries with a non-empty colour name, in order |
| ProductForm.BuildPayload | npls-app/src/app/components/npls-form/npls-form.component.ts:784-808 | the payload carries each form value and the submitted colours, with no id or timestamps |
| ProductForm.EditSaveResult | npls-app/src/app/components/npls-form/npls-form.component.ts:701-811 | with the corrected patch, load then save stores the product with the new update time, the logos the form showed (the form's own when the product had none) and only its named colours |
| ProductForm.EditRoundTrip | npls-app/src/app/components/npls-form/npls-form.component.ts:701-811 | for a product with logos and only named colours, with the corrected patch, load then save changes the product only in its update time (the release-date text is taken to survive `new Date(…).toISOString()` unchanged) |
| ProductForm.EditSaveLosesCodes | npls-app/src/app/components/npls-form/npls-form.component.ts:720-739 | as written, load then save replaces the core and weight-block numbers with the form's |
| ProductForm.FindCoreByName | npls-app/src/app/components/npls-form/npls-form.component.ts:753 | the first core whose name equals the selection exactly, or none |
| ProductForm.MatchingCoverstocks | npls-app/src/app/components/npls-form/npls-form.component.ts:659-666 | exactly the coverstocks containing the input, ignoring case, in reference order |
| ProductForm.MatchingCores | npls-app/src/app/components/npls-form/npls-form.component.ts:669-678 | exactly the cores whose name contains the input, ignoring case, in store order |
| ProductForm.EmptyInputListsAll | npls-app/src/app/components/npls-form/npls-form.component.ts:659-678 | the initial empty input suggests every coverstock and every core |
| ProductForm.NplsFormComponent.constructor | npls-app/src/app/components/npls-form/npls-form.component.ts:605-647 | corrected: the initial controls and one empty colour numbered 1; every suggestion listed; create mode |
| ProductForm.NplsFormComponent.OnCoverstockInput | npls-app/src/app/components/npls-form/npls-form.component.ts:659-666 | the coverstock suggestions become the matches of the input; nothing else changes |
| ProductForm.NplsFormComponent.OnCoreInput | npls-app/src/app/components/npls-form/npls-form.component.ts:669-678 | the core suggestions become the matches of the input; nothing else changes |
| ProductForm.NplsFormComponent.CheckEditMode | npls-app/src/app/components/npls-form/npls-form.component.ts:681-749 | a missing id or `new` changes nothing; any other id enters edit mode with that id and loads it: a found product is patched in as written, the suggestions follow its coverstock and core, and its core is selected when `getByName` finds it; an unknown one sends the user back with the form and selection kept; `saving` is unchanged |
| ProductForm.NplsFormComponent.LoadBall | npls-app/src/app/components/npls-form/npls-form.component.ts:690-749 | a known product is patched in as written, with the suggestions filtered by its coverstock and core and its core selected when `getByName` finds it; an unknown one leaves the form, selection and suggestions and sends the user back |
| ProductForm.NplsFormComponent.RefillColors | npls-app/src/app/components/npls-form/npls-form.component.ts:702-718 | the removal loop empties the array, then it holds exactly the loaded colours |
| ProductForm.NplsFormComponent.PatchFormWithBall | npls-app/src/app/components/npls-form/npls-form.component.ts:659-749 | colours as loaded; controls patched as written, so the core and weight-block numbers are kept; the coverstock and core suggestions re-filtered by the patched values; the core found by name selected when found |
| ProductForm.NplsFormComponent.OnCoreSelected | npls-app/src/app/components/npls-form/npls-form.component.ts:751-761 | an exact match is selected and supplies both numbers; no match changes nothing |
| ProductForm.NplsFormComponent.AddColor | npls-app/src/app/components/npls-form/npls-form.component.ts:763-767 | below four entries one new numbered entry is appended; at four nothing changes |
| ProductForm.NplsFormComponent.RemoveColor | npls-app/src/app/components/npls-form/npls-form.component.ts:769-775 | the entry at the index is removed, or none past the end, and the rest are renumbered 1, 2, … |
| ProductForm.NplsFormComponent.SubmitForm | npls-app/src/app/components/npls-form/npls-form.component.ts:777-830 | an empty name saves nothing; otherwise the payload goes to update in edit mode or create otherwise, and the user leaves the form; the form, colours, selected core and suggestions are kept |
| ProductForm.NplsFormComponent.ResetForm | npls-app/src/app/components/npls-form/npls-form.component.ts:659-852 | brand `Storm` and release type `OEM`; every other control `null`, read as `""` and so equal to the initial controls; a single colour numbered 1, no selected core; every coverstock and core suggested again (the reset controls read as empty input); the mode is unchanged |
| ProductList.TermsOf | npls-app/src/app/components/product-list/product-list.component.ts:482-488 | the encoded search is the lower-cased query; the other three terms are copied |
| ProductList.MatchesSearch | npls-app/src/app/components/product-list/product-list.component.ts:464-468 | the search test is the product service's `search` test (name, brand, coverstock or core) or an empty search |
| ProductList.Matches | npls-app/src/app/components/product-list/product-list.component.ts:461-475 | with no brand, type or release term the filter is the search test alone |
| ProductList.VisibleRows | npls-app/src/app/components/product-list/product-list.component.ts:461-475 | no filter shows every row; a filter shows exactly the rows meeting all four tests, in data order |
| ProductList.EmptyTermsShowAll | npls-app/src/app/components/product-list/product-list.component.ts:464-474 | an all-empty filter shows every row |
| ProductList.SearchOnlyIsStoreSearch | npls-app/src/app/components/product-list/product-list.component.ts:464-468 | with only search text, the table shows exactly what the product service's search returns |
| ProductList.SearchIgnoresCase | npls-app/src/app/components/product-list/product-list.component.ts:484 | lower-casing the query first gives the same filter |
| ProductList.RefiningNarrows | npls-app/src/app/components/product-list/product-list.component.ts:470-474 | adding a brand, type or release term never shows a row that was hidden |
| ProductList.ProductListComponent.constructor | npls-app/src/app/components/product-list/product-list.component.ts:437-446 | the store's rows, no filter, empty inputs, no paginator |
| ProductList.ProductListComponent.OnBallsChanged | npls-app/src/app/components/product-list/product-list.component.ts:444-446 | the rows are replaced; the filter and inputs are kept |
| ProductList.ProductListComponent.AfterViewInit | npls-app/src/app/components/product-list/product-list.component.ts:144-458 | the paginator is attached exactly when the first view was rendered outside the loading state (the paginator, lines 254-258, sits in the `@else` branch of `loading()` at line 144, and `ngAfterViewInit` at line 456 reads it once), and nothing else changes |
| ProductList.ProductListComponent.ApplyFilters | npls-app/src/app/components/product-list/product-list.component.ts:482-495 | the filter encodes the four inputs and an attached paginator returns to the first page |
| ProductList.ProductListComponent.ClearSearch | npls-app/src/app/components/product-list/product-list.component.ts:497-500 | only the search empties, and the filters are reapplied |
| ProductList.ProductListComponent.ClearFilters | npls-app/src/app/components/product-list/product-list.component.ts:502-508 | every input and the filter are cleared, so every row shows; the page is kept |
| ProductList.ProductListComponent.HasActiveFilters | npls-app/src/app/components/product-list/product-list.component.ts:510-512 | a filter is active exactly when the encoded record differs from the search-only record, so the search text never counts |
| ProductList.InactiveFiltersMeanSearch | npls-app/src/app/components/product-list/product-list.component.ts:510-512 | with no active filter, applied filters show exactly the service's search results |
| ProductList.Sanitized | npls-app/src/app/components/product-list/product-list.component.ts:536 | same length; each ASCII letter or digit is kept and every other character (including `_`) becomes `_` |
| ProductList.SanitizedIdempotent | npls-app/src/app/components/product-list/product-list.component.ts:536 | sanitising twice equals sanitising once |
| ProductList.ExportFileName | npls-app/src/app/components/product-list/product-list.component.ts:536 | the sanitised name followed by `_spec_sheet.txt` |
| ProductList.SpecSheetLines | npls-app/src/app/components/product-list/product-list.component.ts:543-607 | the sheet opens with the 26 header lines and ends with the five footer lines, with at least the colour and fragrance lines between |
| ProductList.HeaderLines | npls-app/src/app/components/product-list/product-list.component.ts:544-571 | the fixed 26-line opening of the sheet |
| ProductList.ColorLines | npls-app/src/app/components/product-list/product-list.component.ts:573-577 | one line per colour, numbered by position, with a shade only when one is given |
| ProductList.SpecSheetLayout | npls-app/src/app/components/product-list/product-list.component.ts:543-607 | header, colour lines, fragrance, the notes and drilling sections exactly when set, then the footer with the time |
| ProductList.PushColorLines | npls-app/src/app/components/product-list/product-list.component.ts:573-577 | the loop appends exactly the colour lines |
| ProductList.GenerateSpecSheet | npls-app/src/app/components/product-list/product-list.component.ts:543-607 | the section-by-section pushes give the layout above, joined with newlines |
| CoreSpecs.TermsOf | npls-app/src/app/components/core-specs/core-specs.component.ts:536-543 | the encoded search is the lower-cased query; line and type are copied |
| CoreSpecs.MatchesSearch | npls-app/src/app/components/core-specs/core-specs.component.ts:506-508 | every core the page's search test accepts passes the core service's search test |
| CoreSpecs.MatchesType | npls-app/src/app/components/core-specs/core-specs.component.ts:512-514 | `symmetric` accepts exactly the symmetric cores, `asymmetric` exactly the others, any other non-empty type none |
| CoreSpecs.Matches | npls-app/src/app/components/core-specs/core-specs.component.ts:503-517 | an accepted core passes the service's search test; with no search and no line the filter is the type test alone |
| CoreSpecs.VisibleCores | npls-app/src/app/components/core-specs/core-specs.component.ts:503-517 | no filter shows every core; a filter shows exactly the cores meeting the search, line and type tests |
| CoreSpecs.TypeFilterIsStoreSplit | npls-app/src/app/components/core-specs/core-specs.component.ts:512-514 | each type choice alone shows exactly the core service's symmetric or asymmetric list |
| CoreSpecs.UnknownTypeShowsNothing | npls-app/src/app/components/core-specs/core-specs.component.ts:512-514 | a type other than the two choices hides every core |
| CoreSpecs.SearchWithinStoreSearch | npls-app/src/app/components/core-specs/core-specs.component.ts:506-508 | every core the page's search shows is found by the service's search |
| CoreSpecs.LinesOf | npls-app/src/app/components/core-specs/core-specs.component.ts:494 | the line of every core, in order |
| CoreSpecs.UniqueLines | npls-app/src/app/components/core-specs/core-specs.component.ts:494 | duplicate-free, and exactly the non-empty lines some core has |
| CoreSpecs.UniqueLinesInFirstOccurrenceOrder | npls-app/src/app/components/core-specs/core-specs.component.ts:494 | the line choices keep first-occurrence order |
| CoreSpecs.GetSpec | npls-app/src/app/components/core-specs/core-specs.component.ts:549-551 | the first spec of exactly that weight, or none when no spec has it |
| CoreSpecs.MaxWeight | npls-app/src/app/components/core-specs/core-specs.component.ts:555-556 | a weight of the list and at least every weight |
| CoreSpecs.MinWeight | npls-app/src/app/components/core-specs/core-specs.component.ts:555-556 | a weight of the list and at most every weight |
| CoreSpecs.WeightRange | npls-app/src/app/components/core-specs/core-specs.component.ts:553-557 | `-` exactly without specs; otherwise heaviest, dash, lightest, ` lb` |
| CoreSpecs.SingleWeightRange | npls-app/src/app/components/core-specs/core-specs.component.ts:553-557 | a single weight appears at both ends |
| CoreSpecs.Toggled | npls-app/src/app/components/core-specs/core-specs.component.ts:545-547 | collapses exactly when the core was the expanded one; otherwise expands that core |
| CoreSpecs.ToggleTwice | npls-app/src/app/components/core-specs/core-specs.component.ts:545-547 | toggling twice restores the state exactly when nothing or that core was expanded; otherwise it collapses |
| CoreSpecs.OtherView | npls-app/src/app/components/core-specs/core-specs.component.ts:520-522 | the view always changes |
| CoreSpecs.CoreSpecsComponent.constructor | npls-app/src/app/components/core-specs/core-specs.component.ts:482-496 | the store's cores, their unique lines, table view, no filter, nothing expanded |
| CoreSpecs.CoreSpecsComponent.OnCoresChanged | npls-app/src/app/components/core-specs/core-specs.component.ts:490-496 | new rows and freshly extracted lines; everything else kept |
| CoreSpecs.CoreSpecsComponent.ToggleView | npls-app/src/app/components/core-specs/core-specs.component.ts:520-522 | the view alternates; nothing else changes |
| CoreSpecs.CoreSpecsComponent.UpdateFilter | npls-app/src/app/components/core-specs/core-specs.component.ts:524-543 | the filter encodes the three inputs; nothing else changes |
| CoreSpecs.CoreSpecsComponent.ToggleExpand | npls-app/src/app/components/core-specs/core-specs.component.ts:545-547 | the expanded core is toggled; nothing else changes |
| Dashboard.TotalCountAppend | npls-app/src/app/components/dashboard/dashboard.component.ts:325-331 | the count total of a concatenation is the sum of the totals |
| Dashboard.Entries | npls-app/src/app/components/dashboard/dashboard.component.ts:325-330 | one `{key, count}` pair per recorded key, in record order |
| Dashboard.Insert | npls-app/src/app/components/dashboard/dashboard.component.ts:327 | inserting grows the ranking by one entry, the inserted one |
| Dashboard.SortByCount | npls-app/src/app/components/dashboard/dashboard.component.ts:327 | the ranking has one entry per entry sorted |
| Dashboard.InsertPermutes | npls-app/src/app/components/dashboard/dashboard.component.ts:327 | inserting into the ranking adds exactly that pair |
| Dashboard.InsertTotal | npls-app/src/app/components/dashboard/dashboard.component.ts:327 | inserting adds the pair's count to the total |
| Dashboard.InsertDescending | npls-app/src/app/components/dashboard/dashboard.component.ts:327 | inserting keeps the ranking in descending count order |
| Dashboard.InsertNoDupKeys | npls-app/src/app/components/dashboard/dashboard.component.ts:327 | inserting a new key keeps keys distinct |
| Dashboard.SortFacts | npls-app/src/app/components/dashboard/dashboard.component.ts:327 | the sort is a permutation, in descending count order, with the same total |
| Dashboard.SortNoDupKeys | npls-app/src/app/components/dashboard/dashboard.component.ts:327 | sorting keeps keys distinct |
| Dashboard.EntriesTotal | npls-app/src/app/components/dashboard/dashboard.component.ts:325-326 | the entry counts add up to the tallied counts |
| Dashboard.KeysOf | npls-app/src/app/components/dashboard/dashboard.component.ts:325-331 | the key of each entry, in order |
| Dashboard.KeysOfPermuted | npls-app/src/app/components/dashboard/dashboard.component.ts:327 | a permutation of the entries has the same set of keys |
| Dashboard.EntriesKeys | npls-app/src/app/components/dashboard/dashboard.component.ts:325-326 | the entries' keys are the record's keys, so they are distinct |
| Dashboard.EntriesOfTally | npls-app/src/app/components/dashboard/dashboard.component.ts:316-326 | each entry counts the occurrences of its key; keys are exactly the counted ones; the total is the number of occurrences |
| Dashboard.RankedFromTally | npls-app/src/app/components/dashboard/dashboard.component.ts:316-331 | the sorted entries are a ranking: descending, distinct keys, true counts, every counted key, summing to the total |
| Dashboard.ComputeStats | npls-app/src/app/components/dashboard/dashboard.component.ts:313-339 | total products; brands and truthy types ranked by true count; brand counts sum to the total; the first ten products |
| Dashboard.DashboardComponent.constructor | npls-app/src/app/components/dashboard/dashboard.component.ts:311-344 | the statistics of the products (total, both rankings, the first ten products) and the number of cores |
| Dashboard.DashboardComponent.OnBallsChanged | npls-app/src/app/components/dashboard/dashboard.component.ts:312-340 | new statistics; the core count is kept |
| Dashboard.DashboardComponent.OnCoresChanged | npls-app/src/app/components/dashboard/dashboard.component.ts:341-343 | the core count is the number of cores; statistics are kept |
| ReferencePage.FilterList | npls-app/src/app/components/reference-data/reference-data.component.ts:396-400 | an empty filter returns the list; otherwise exactly the entries containing it, ignoring case, in order |
| ReferencePage.FilterIgnoresCase | npls-app/src/app/components/reference-data/reference-data.component.ts:398-399 | filtering by the lower-cased filter gives the same list |
| ReferencePage.LongerFilterNarrows | npls-app/src/app/components/reference-data/reference-data.component.ts:396-400 | a filter that contains another never shows more entries |
| ReferencePage.TypeClass | npls-app/src/app/components/reference-data/reference-data.component.ts:445-452 | one of five classes, each exactly when its word occurs in the lower-cased type and no earlier word of pearl, solid, hybrid, urethane does; empty exactly when none occurs |
| ReferencePage.TypeIcon | npls-app/src/app/components/reference-data/reference-data.component.ts:436-443 | one of five icons, the icon of the type's class |
| ReferencePage.IconMatchesClass | npls-app/src/app/components/reference-data/reference-data.component.ts:436-452 | the icon is determined by the class, and equal classes exactly when equal icons |
| ReferencePage.PearlReactiveStyled | npls-app/src/app/components/reference-data/reference-data.component.ts:445-452 | `Pearl Reactive` gets the `pearl` class |
| ReferencePage.SolidReactiveStyled | npls-app/src/app/components/reference-data/reference-data.component.ts:445-452 | `Solid Reactive` gets the `solid` class, although `pearl` is tested first |
| ReferencePage.HybridReactiveStyled | npls-app/src/app/components/reference-data/reference-data.component.ts:445-452 | `Hybrid Reactive` gets the `hybrid` class, although `pearl` and `solid` are tested first |
| ReferencePage.DefaultTypesStyled | npls-app/src/app/components/reference-data/reference-data.component.ts:445-452 | the three default coverstock types get the `pearl`, `solid` and `hybrid` classes, in that order |
| ReferencePage.ReferenceDataComponent.constructor | npls-app/src/app/components/reference-data/reference-data.component.ts:358-379 | empty inputs and filters; the shown lists are current |
| ReferencePage.ReferenceDataComponent.UpdateFilteredLists | npls-app/src/app/components/reference-data/reference-data.component.ts:381-394 | with data, each shown list is its data list filtered by its filter; without data nothing changes |
| ReferencePage.ReferenceDataComponent.Add | npls-app/src/app/components/reference-data/reference-data.component.ts:402-427 | a blank entry changes nothing; otherwise the trimmed entry is added by the service, the input cleared and the lists refreshed |
| ReferencePage.ReferenceDataComponent.ClearEntry | npls-app/src/app/components/reference-data/reference-data.component.ts:406 | only that input is emptied |
| ReferencePage.ReferenceDataComponent.RefreshData | npls-app/src/app/components/reference-data/reference-data.component.ts:429-434 | the service refresh runs and the lists are refreshed over the published data |
| ReferencePage.ReferenceDataComponent.SetFilterAsWritten | npls-app/src/app/components/reference-data/reference-data.component.ts:76 | typing changes the filter text only; the shown lists stay as they were |
| ReferencePage.ReferenceDataComponent.SetFilter | npls-app/src/app/components/reference-data/reference-data.component.ts:381-394 | corrected: typing into a filter updates the text and the lists are current |
| ReferencePage.StaleFilterShowsNonMatching | npls-app/src/app/components/reference-data/reference-data.component.ts:76-81 | after typing `pearl` over `["Solid"]`, the shown list still holds `Solid`, which the filter excludes |

## Left out

- JSON serialisation and parsing are modelled by a `Doc` datatype. A document either parses to a value or fails to parse, and the exact text format is not modelled.
- `toLowerCase` is modelled on ASCII letters only. The sanitising pattern is applied per character; Unicode case mapping and UTF-16 code units are not modelled.
- Dates: parsing and formatting of ISO and locale strings are not modelled. Times are parameters: ISO text for timestamps, milliseconds for expiry.
- ProductForm.EditRoundTrip: the release date's trip through `new Date(…)` and `toISOString()` is taken as the identity, so a date text not in `toISOString` form is not shown to change. The lemma covers products with logos and only named colours; ProductForm.EditSaveResult states the other cases: a product without logos is saved with the form's logo record, and unnamed colours are dropped.
- `Object.entries` order: JavaScript lists integer-like keys first. The model keeps insertion order for every key.
- HTTP requests are modelled as a start step plus a completion step. Request headers, retries and cancellation are not modelled.
- Snack-bar messages, `console.error`, `confirm` dialogs and router navigation are not modelled. Leaving the form is the `leftForm` flag.
- `saveDraft`, `goBack`, `duplicateProduct` and `deleteProduct` are not modelled. They only forward to the service methods modelled here and show messages.
- The product list's 300 ms search debounce (`debounceTime` and `distinctUntilChanged`) and other Observable plumbing are not modelled. A subscription is a method called with the new value. The form's autocomplete has no debounce: each control change calls its filter method.
- `MatTableDataSource` sorting and paging are not modelled. Its rule that an empty filter string shows every row is the `NoFilter` case.
- Object identity (`===` on records) is modelled as value equality.
- CoreSpecs.WeightRange: the sort in `getWeightRange` is modelled by its first and last elements, the heaviest and lightest weights.
- ReferenceStore: a cached value of any other shape is treated as absent.
- BallStore.BallService.Update: a `Partial<Ball>` patch is modelled as a whole product record that carries no `id` and no `createdAt`, as the form's `Omit<Ball, 'id'>` payload does (npls-form.component.ts:786-808). The record keeps the current id and creation time. The source's spread would copy an `id` or `createdAt` that a patch carried, and that case is not modelled.
- ProductForm.NplsFormComponent.ResetForm: `reset(...)` sets every control except `brand` and `releaseType` to `null`, and the colour at index 0 gets a `null` colour and shade. The model reads a `null` text control as `""` and a `null` logo control as an empty logo, so its reset form equals `InitialForm`. A product saved after a reset carries `null` in those fields in the source. The model does not capture that, so it does not show the spec sheet's unguarded lines (`Coverstock`, `Finish`, `Core`, product-list.component.ts:559-562) printing `null` where the model prints nothing.
- BallStore.UpdateKeepsUniqueIds: holds for patches without an `id`. In the source, `update(id, {id: otherId})` with an existing `otherId` would break uniqueness, and the model does not promise anything about such patches.
- CoreStore.CoreService.Update takes the per-field `CorePatch`, as the source does.
- Core records always have a line. `removeAt` with a negative index is not modelled, since the index is a `nat`.
- CoreSpecs.CoreSpecsComponent.UpdateFilter stands for `applyFilter`, `applyLineFilter` and `applyTypeFilter`. Each of those only calls it.
- ReferenceStore.ReferenceDataService.Add and ReferencePage.ReferenceDataComponent.Add each model their three per-list methods with a list parameter.
- The reference page's subscription is modelled by `UpdateFilteredLists`, called by whoever publishes.
- Dashboard.ComputeStats: the `sort` by descending count is modelled as a stable insertion sort. Any stable sort gives the same order, and the proved properties hold of every correct sort.
- Local-storage quota and write failures are the `accepted` parameter.
- Product and core identifiers made from `Date.now()` are parameters. Their freshness is a precondition of the uniqueness lemmas.
- The layout component and the routes are not part of this model. They hold no application logic.

## Findings

| source | as written | input that shows it | evidently intended | confidence | as-written member | corrected member |
|---|---|---|---|---|---|---|
| npls-app/src/app/components/npls-form/npls-form.component.ts:611-655 | `initForm` calls `createColorGroup` while building the group passed to `fb.group`, and `createColorGroup` reads `this.form.get('colors')` before `this.form` is assigned | the first `ngOnInit`, with `form` still unassigned | a first colour entry numbered 1 in a freshly built form | not executed | ProductForm.InitFormThrows | ProductForm.NplsFormComponent.constructor |
| npls-app/src/app/components/npls-form/npls-form.component.ts:720-739 | `patchFormWithBall` omits `coreNumber` and `weightBlockNumber` from `patchValue`, but `submitForm` sends them | editing a product with core number `C1` and saving it untouched stores the form's empty core number | load then save changes only the update time | not executed | ProductForm.EditSaveLosesCodes | ProductForm.EditRoundTrip |
| npls-app/src/app/components/reference-data/reference-data.component.ts:76 | the filter inputs are bound with `[(ngModel)]` only, and `updateFilteredLists` runs only on data changes and after an add | coverstocks `["Solid"]` with `pearl` typed into the filter still show `Solid` | typing into a filter refilters the shown list | not executed | ReferencePage.StaleFilterShowsNonMatching | ReferencePage.ReferenceDataComponent.SetFilter |

The form component's `PatchFormWithBall`, `LoadBall` and `CheckEditMode` patch the form as written (`PatchedFormAsWritten`). The corrected patch `PatchedForm` is what `EditSaveResult` and `EditRoundTrip` are proved about.
