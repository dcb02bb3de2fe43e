# Dogs app: cache-first dog list, modelled in Dafny

This project models the decision logic of a small Android app that lists dogs.
The app fetches dogs from a remote JSON endpoint, caches them in a local Room
table, and shows a list screen and a detail screen. The model covers:

- **The local table** (`LocalStore`, after `DogDao` and `DogEntity`). The class
  `DogDao` holds the rows in ascending id order, one row per id. It also holds
  the largest id ever stored (SQLite's AUTOINCREMENT counter).
  - `insertAll` upserts row by row, with REPLACE on a clashing id.
  - A row that arrives with id 0 gets the next id above the counter.
  - A failing write changes nothing, because Room runs the insert as one transaction.
- **The repository** (`Repository`, after `DogRepositoryImpl.getDogs`). It reads
  the table and serves it if the table has rows. Otherwise it fetches the
  remote list, writes it as unassigned rows, and returns the fetched list.
  Every failure passes through unchanged.
  - `GetDogs` is a method of the class `DogRepositoryImpl`. It modifies the
    `DogDao` it was given and records a call on the `DogApi`. It is proved
    equal to the pure run `GetDogsSpec`, and the lemmas about `GetDogsSpec`
    state the policy.
  - Each run also returns the calls it made (read, fetch, write with its
    batch). `GetDogs` proves this log equal to what the collaborators record:
    the DAO counts its reads and keeps every batch it was asked to write, and
    the remote source counts its calls.
- **The use case** (`UseCase`): one pass-through call to the repository.
- **The list view model** (`ListViewModel`). Its `uiState` field starts as
  loading. Both events run the same load: `Start`, then one use case call,
  then `Complete` with the outcome.
- **The list screen's decisions** (`ListScreen`): which content is shown for
  a state, and when the `LaunchedEffect` sends `LoadDogs`.
- **The detail screen's classifiers** (`DetailScreen`): the age group and the
  keyword-based personality.
- **Navigation** (`Navigation`): the field copy from a dog to its detail route
  and back, and the image's shared-element key.

The collaborators' behaviour is an input. The table's read fault, the remote
source's answer (a list or a failure) and the table's write fault form an
`Env` value, and each run receives one.

Three behaviours of the code are worth stating outright.
- Rows come back in ascending id order, whatever order they were inserted
  in. The DAO test `insertAll_should_preserve_insertion_order`
  (DogDaoTest.kt:142, with the comment at line 174) inserts ids 3, 1, 2 and
  expects them back as 1, 2, 3, which is id order, not insertion order.
- A failure is the failure of whichever collaborator failed. No combined
  error is produced when both sources fail, since a failed read never reaches
  the remote source.
- The load trigger is keyed on `dogs.isEmpty()`. While the screen stays
  composed, that key does not change after an empty successful load or a
  failed first load, so the effect does not send another `LoadDogs`.
  - After a failure the error view's retry button sends `RetryLoadDogs`.
  - After an empty success the screen shows an empty list with no retry
    button.
  - A fresh composition (for example after a configuration change) runs the
    effect again, and it sends `LoadDogs` whenever the list is empty.

Two consequences are proved, not corrected.
- A first fetch returns dogs with id 0, while the table stores them under
  fresh ids. So the next run serves the same dogs with different ids
  (`FillThenServe`).
- All cards of that first list share the image key `dog_image_0`
  (`FetchedDogsShareOneKey`). Cached dogs get pairwise different keys
  (`CachedDogsHaveDistinctKeys`).

## Model

| member | source | states |
|---|---|---|
| `LocalEntity.DogEntity.ToDomain` | app/src/main/java/com/gibran/dogsapp/data/local/DogEntity.kt:15 | a row becomes a dog with all five fields, id included; no field is lost |
| `LocalEntity.FromDomain` | app/src/main/java/com/gibran/dogsapp/data/local/DogEntity.kt:17-25 | a dog becomes a row with all five fields, id included; `toDomain` gives the dog back |
| `LocalEntity.EntitiesToDomain` | app/src/main/java/com/gibran/dogsapp/data/repository/DogRepositoryImpl.kt:29 | the cached rows map to dogs with the same length and order, each row by `toDomain` |
| `LocalEntity.DogsFromDomain` | app/src/main/java/com/gibran/dogsapp/data/repository/DogRepositoryImpl.kt:25 | the fetched dogs map to rows with the same length and order, each dog by `fromDomain` |
| `LocalEntity.RoundTrip` | app/src/main/java/com/gibran/dogsapp/data/local/DogEntity.kt:15-25 | `fromDomain(d).toDomain() == d` for every dog, id included |
| `LocalEntity.ReverseRoundTrip` | app/src/main/java/com/gibran/dogsapp/data/local/DogEntity.kt:15-25 | `fromDomain(e.toDomain()) == e` for every row |
| `LocalEntity.MappersKeepUnassignedId` | app/src/main/java/com/gibran/dogsapp/data/local/DogEntity.kt:9-25 | the mappers keep id 0 as 0 in both directions (assigning ids is the table's job); empty strings and age 0 pass through |
| `LocalEntity.ListRoundTrip` | app/src/main/java/com/gibran/dogsapp/data/repository/DogRepositoryImpl.kt:24-29 | the two list conversions are inverse to each other |
| `RemoteModel.DogResponse.ToDomain` | app/src/main/java/com/gibran/dogsapp/data/model/DogResponse.kt:14-20 | the mapped dog has id 0, and its other four fields give back the response |
| `RemoteModel.ResponsesToDomain` | app/src/main/java/com/gibran/dogsapp/data/repository/DogRepositoryImpl.kt:24 | the API list maps with the same length and order, element by element, all ids 0 |
| `RemoteModel.TextPassesThrough` | app/src/main/java/com/gibran/dogsapp/data/model/DogResponse.kt:14-20 | any text (empty, non-ASCII, punctuation) and any age are copied unchanged |
| `LocalStore.WithId` | app/src/main/java/com/gibran/dogsapp/data/local/DogEntity.kt:9 | the row as stored: id 0 becomes counter + 1, any other id is kept; no other field changes |
| `LocalStore.Place` | app/src/main/java/com/gibran/dogsapp/data/local/DogDao.kt:14 | one upsert into the ordered rows: every other row was there before, and at most one row is added |
| `LocalStore.InsertOne` | app/src/main/java/com/gibran/dogsapp/data/local/DogDao.kt:14 | one row of `INSERT OR REPLACE`: every other row was there before; the counter covers the stored id and never goes down |
| `LocalStore.InsertRows` | app/src/main/java/com/gibran/dogsapp/data/local/DogDao.kt:14-15 | a batch, row after row in list order: the count grows by at most the batch length, and the counter never goes down |
| `LocalStore.PlaceIds` | app/src/main/java/com/gibran/dogsapp/data/local/DogDao.kt:14 | upserting a row adds its id to the table's ids and no other id |
| `LocalStore.PlaceLookup` | app/src/main/java/com/gibran/dogsapp/data/local/DogDao.kt:14 | the upserted row replaces the whole row under its id; every other id keeps its row |
| `LocalStore.PlaceLength` | app/src/main/java/com/gibran/dogsapp/data/local/DogDao.kt:14 | the row count grows by one for a new id and is unchanged on a clash |
| `LocalStore.PlaceAscending` | app/src/main/java/com/gibran/dogsapp/data/local/DogDao.kt:11-15 | rows stay in strictly ascending id order after an upsert |
| `LocalStore.PlaceFacts` | app/src/main/java/com/gibran/dogsapp/data/local/DogDao.kt:14 | the four upsert facts above, together |
| `LocalStore.AutoIdIsFresh` | app/src/main/java/com/gibran/dogsapp/data/local/DogEntity.kt:9 | a row inserted with id 0 gets the counter plus one, an id that is nonzero and not stored |
| `LocalStore.InsertOneKeepsInv` | app/src/main/java/com/gibran/dogsapp/data/local/DogDao.kt:14-15 | one upsert keeps the table ordered, unique by id and free of id 0; the counter does not go down |
| `LocalStore.InsertRowsKeepsInv` | app/src/main/java/com/gibran/dogsapp/data/local/DogDao.kt:14-15 | any batch keeps the table invariant; the counter does not go down |
| `LocalStore.InsertNothing` | app/src/main/java/com/gibran/dogsapp/data/local/DogDao.kt:14-15 | `insertAll([])` leaves the table unchanged |
| `LocalStore.OtherRowsUntouched` | app/src/main/java/com/gibran/dogsapp/data/local/DogDao.kt:14-15 | a stored row whose id the batch does not name is still there, unchanged |
| `LocalStore.ReplaceOnClash` | app/src/main/java/com/gibran/dogsapp/data/local/DogDao.kt:14 | re-inserting an existing id replaces the whole row and keeps the count and the id set |
| `LocalStore.FreshBatchAccumulates` | app/src/main/java/com/gibran/dogsapp/data/local/DogDao.kt:14-15 | a batch of new, distinct, nonzero ids is stored exactly: the count is the sum, the ids are the union, and each row is found as given |
| `LocalStore.UnassignedBatchAppends` | app/src/main/java/com/gibran/dogsapp/data/local/DogEntity.kt:9 | an all-id-0 batch is appended in list order, numbered consecutively from counter + 1 |
| `LocalStore.AscendingWhateverInsertionOrder` | app/src/main/java/com/gibran/dogsapp/data/local/DogDao.kt:11-15 | rows inserted with ids 3, 1, 2 are read back as 1, 2, 3 |
| `LocalStore.DogDao.constructor` | app/src/main/java/com/gibran/dogsapp/data/local/DogDao.kt:9-16 | a new database has no rows, the counter at 0 and no calls recorded |
| `LocalStore.DogDao.GetAllDogs` | app/src/main/java/com/gibran/dogsapp/data/local/DogDao.kt:11-12 | returns all rows in ascending id order (empty on an empty table), or the read's failure; changes no row and counts one read |
| `LocalStore.DogDao.InsertAll` | app/src/main/java/com/gibran/dogsapp/data/local/DogDao.kt:14-15 | upserts the batch row by row and keeps the invariant; on a failure returns it and writes nothing; records the batch either way |
| `RemoteSource.DogApi.constructor` | app/src/main/java/com/gibran/dogsapp/data/remote/DogsApi.kt:6-9 | a new remote source has recorded no calls |
| `RemoteSource.DogApi.GetDogs` | app/src/main/java/com/gibran/dogsapp/data/remote/DogsApi.kt:7-8 | returns the network's answer (the array or the failure) as it came, and counts one call |
| `Repository.GetDogsSpec` | app/src/main/java/com/gibran/dogsapp/data/repository/DogRepositoryImpl.kt:19-32 | one run: the read comes first; a remote call happens iff the read succeeds on an empty table; the calls are read, read+fetch, or read+fetch+write of the mapped batch; every failure is one collaborator's, unchanged, and leaves the table as it was; a success has as many dogs as the cache or the API list |
| `Repository.Batches` | app/src/main/java/com/gibran/dogsapp/data/repository/DogRepositoryImpl.kt:26 | the batches of the writes in a call log, in order; none when the log has no write |
| `Repository.Fetches` | app/src/main/java/com/gibran/dogsapp/data/repository/DogRepositoryImpl.kt:24 | the number of remote calls in a log; zero iff the log has none |
| `Repository.BatchFor` | app/src/main/java/com/gibran/dogsapp/data/repository/DogRepositoryImpl.kt:24-25 | the batch written on a cache miss holds `fromDomain` of each API dog, in order, every id 0 |
| `Repository.CacheHit` | app/src/main/java/com/gibran/dogsapp/data/repository/DogRepositoryImpl.kt:21-29 | a non-empty cache is returned mapped by `toDomain`, same order and length; the remote source and the write are not called; the table is unchanged |
| `Repository.CacheMissFetched` | app/src/main/java/com/gibran/dogsapp/data/repository/DogRepositoryImpl.kt:23-27 | on an empty cache and a successful fetch, one write of the mapped batch, and the result is the fetched list (all ids 0), not a re-read |
| `Repository.CacheMissRemoteFails` | app/src/main/java/com/gibran/dogsapp/data/repository/DogRepositoryImpl.kt:24 | on an empty cache, a remote failure is returned unchanged, nothing is written and the table is unchanged |
| `Repository.ReadFails` | app/src/main/java/com/gibran/dogsapp/data/repository/DogRepositoryImpl.kt:21 | a failing read is returned unchanged; neither the remote source nor the write is called |
| `Repository.WriteFails` | app/src/main/java/com/gibran/dogsapp/data/repository/DogRepositoryImpl.kt:26 | a failing write is returned unchanged and the table is unchanged |
| `Repository.AtMostOneCallEach` | app/src/main/java/com/gibran/dogsapp/data/repository/DogRepositoryImpl.kt:19-32 | each run reads once, first, then makes at most one remote call and at most one write, in that order; the remote source is called only when the read succeeds with no rows |
| `Repository.StoreChangesOnlyOnFill` | app/src/main/java/com/gibran/dogsapp/data/repository/DogRepositoryImpl.kt:21-30 | the table keeps its invariant and changes only on an empty cache with a successful fetch and write |
| `Repository.FillThenServe` | app/src/main/java/com/gibran/dogsapp/data/repository/DogRepositoryImpl.kt:23-29 | fetched dogs are stored under consecutive fresh ids, so the next run is a cache hit serving the same dogs with those ids |
| `Repository.EmptyFetchRefetches` | app/src/main/java/com/gibran/dogsapp/data/repository/DogRepositoryImpl.kt:23-27 | an empty API list returns empty, is still written as an empty batch, leaves the table empty, and the next run calls the remote source again |
| `Repository.DogRepositoryImpl.constructor` | app/src/main/java/com/gibran/dogsapp/data/repository/DogRepositoryImpl.kt:13-17 | the repository works on the remote source and the DAO it is given |
| `Repository.DogRepositoryImpl.GetDogs` | app/src/main/java/com/gibran/dogsapp/data/repository/DogRepositoryImpl.kt:19-32 | result, calls made and new table are those of `GetDogsSpec` on the old table, the function the lemmas above are about; the table invariant is kept; the DAO records exactly one read and the log's write batches, and the remote source exactly the log's fetches |
| `UseCase.GetDogsUseCase.constructor` | app/src/main/java/com/gibran/dogsapp/domain/usecase/GetDogsUseCase.kt:7-9 | the use case calls the repository it is given |
| `UseCase.GetDogsUseCase.Invoke` | app/src/main/java/com/gibran/dogsapp/domain/usecase/GetDogsUseCase.kt:10-12 | exactly one repository run: its list, its failure, its effect on the table and the calls it records pass through unchanged |
| `ListViewModel.ErrorText` | app/src/main/java/com/gibran/dogsapp/presentation/viewmodel/DogListViewModel.kt:42 | the failure's message when it has one, "Unknown error" otherwise |
| `ListViewModel.Started` | app/src/main/java/com/gibran/dogsapp/presentation/viewmodel/DogListViewModel.kt:34 | the first write: loading on, error cleared, dogs kept |
| `ListViewModel.Completed` | app/src/main/java/com/gibran/dogsapp/presentation/viewmodel/DogListViewModel.kt:36-46 | the second write: loading off; the new dogs and no error on success; the old dogs and the failure's text on failure |
| `ListViewModel.Transition` | app/src/main/java/com/gibran/dogsapp/presentation/viewmodel/DogListViewModel.kt:24-46 | either event's whole load: not loading; exactly the new dogs with no error on success; the old dogs and the failure's text on failure |
| `ListViewModel.InitialStateIsLoading` | app/src/main/java/com/gibran/dogsapp/presentation/viewmodel/DogListViewModel.kt:21 | the initial state is loading, with no dogs and no error |
| `ListViewModel.LoadAndRetryAgree` | app/src/main/java/com/gibran/dogsapp/presentation/viewmodel/DogListViewModel.kt:24-29 | `LoadDogs` and `RetryLoadDogs` give the same transition |
| `ListViewModel.StartShowsLoading` | app/src/main/java/com/gibran/dogsapp/presentation/viewmodel/DogListViewModel.kt:34 | the start of a load sets loading, clears the error and keeps the dogs |
| `ListViewModel.LoadEnds` | app/src/main/java/com/gibran/dogsapp/presentation/viewmodel/DogListViewModel.kt:36-46 | a load ends with loading off. On success the dogs are the result and the error is cleared. On failure the dogs are kept and the error is the message, or "Unknown error" when it has none |
| `ListViewModel.RetryClearsError` | app/src/main/java/com/gibran/dogsapp/presentation/viewmodel/DogListViewModel.kt:33-46 | a failed first load followed by a successful retry clears the error and installs the new list |
| `ListViewModel.DogListViewModel.constructor` | app/src/main/java/com/gibran/dogsapp/presentation/viewmodel/DogListViewModel.kt:17-22 | the state starts as the initial loading state |
| `ListViewModel.DogListViewModel.Start` | app/src/main/java/com/gibran/dogsapp/presentation/viewmodel/DogListViewModel.kt:34 | the first write: loading on, error cleared, dogs unchanged |
| `ListViewModel.DogListViewModel.Complete` | app/src/main/java/com/gibran/dogsapp/presentation/viewmodel/DogListViewModel.kt:36-46 | the second write, for the outcome; loading is off afterwards |
| `ListViewModel.DogListViewModel.LoadDogsToCompletion` | app/src/main/java/com/gibran/dogsapp/presentation/viewmodel/DogListViewModel.kt:31-49 | start, one use case call, complete: the new state is the completed state for that run's outcome, and the table is that run's |
| `ListViewModel.DogListViewModel.HandleEvent` | app/src/main/java/com/gibran/dogsapp/presentation/viewmodel/DogListViewModel.kt:24-29 | either event runs one load: one repository run's calls and table effect, and the state that `Transition` gives |
| `ListScreen.ContentFor` | app/src/main/java/com/gibran/dogsapp/presentation/ui/DogListScreen.kt:103-147 | placeholders iff loading (5 of them); error with a `RetryLoadDogs` button iff not loading and an error is set; otherwise one card per dog in order, even with no dogs |
| `ListScreen.LaunchedLoad` | app/src/main/java/com/gibran/dogsapp/presentation/ui/DogListScreen.kt:46-50 | only `LoadDogs` is ever sent. It is sent iff the list is empty and the effect's key (`isEmpty`) is new: first composition, or a change from non-empty |
| `ListScreen.FirstFrame` | app/src/main/java/com/gibran/dogsapp/presentation/ui/DogListScreen.kt:43-50 | the first frame shows placeholders and sends `LoadDogs` |
| `ListScreen.LoadingShowsPlaceholders` | app/src/main/java/com/gibran/dogsapp/presentation/ui/DogListScreen.kt:103-111 | during a load the screen shows the placeholders, whatever error was set |
| `ListScreen.AfterLoad` | app/src/main/java/com/gibran/dogsapp/presentation/ui/DogListScreen.kt:114-146 | after a load the screen shows the result's cards, or the failure's text with a retry button |
| `ListScreen.EmptyListIsNotReloaded` | app/src/main/java/com/gibran/dogsapp/presentation/ui/DogListScreen.kt:46-50 | an empty success shows an empty list, and neither it nor a failed first load makes the effect send another load |
| `DetailScreen.ContainsIgnoreCase` | app/src/main/java/com/gibran/dogsapp/presentation/ui/DogDetailScreen.kt:288-293 | the search over start positions finds a keyword iff it occurs, ignoring case, at some position |
| `DetailScreen.PersonalityFromDescription` | app/src/main/java/com/gibran/dogsapp/presentation/ui/DogDetailScreen.kt:286-296 | no keyword before the result's priority occurs; a non-Unique result's keyword occurs; Unique iff none of the six occurs |
| `DetailScreen.FirstKeywordWins` | app/src/main/java/com/gibran/dogsapp/presentation/ui/DogDetailScreen.kt:287-293 | the first keyword found in priority order decides the personality |
| `DetailScreen.LabelsDistinct` | app/src/main/java/com/gibran/dogsapp/presentation/ui/DogDetailScreen.kt:287-294 | the seven labels are distinct |
| `DetailScreen.AgeGroupFor` | app/src/main/java/com/gibran/dogsapp/presentation/ui/DogDetailScreen.kt:298-304 | Puppy iff age < 2 (negative ages included), Adult iff 2 <= age < 7, Senior iff age >= 7 |
| `DetailScreen.AgeGroupMonotone` | app/src/main/java/com/gibran/dogsapp/presentation/ui/DogDetailScreen.kt:298-304 | an older dog is never in an earlier group (Puppy < Adult < Senior) |
| `Navigation.RouteFor` | app/src/main/java/com/gibran/dogsapp/presentation/navigation/DogsNavigation.kt:29-35 | the route for a clicked dog; the detail destination rebuilds that very dog from it |
| `Navigation.DogFor` | app/src/main/java/com/gibran/dogsapp/presentation/navigation/DogsNavigation.kt:46-52 | the dog rebuilt from a route, with none of the route's fields lost |
| `Navigation.SharedImageKey` | app/src/main/java/com/gibran/dogsapp/presentation/ui/components/DogCard.kt:214 | the key is `dog_image_` followed by at least one character, the id in decimal |
| `Navigation.ClickedDogArrives` | app/src/main/java/com/gibran/dogsapp/presentation/navigation/DogsNavigation.kt:28-52 | the dog rebuilt on the detail screen equals the clicked dog |
| `Navigation.RouteRoundTrip` | app/src/main/java/com/gibran/dogsapp/presentation/navigation/DogsNavigation.kt:44-52 | every route is the route of the dog rebuilt from it |
| `Navigation.KeysMatchIds` | app/src/main/java/com/gibran/dogsapp/presentation/ui/components/DogCard.kt:214 | two dogs have the same image key iff they have the same id |
| `Navigation.SameKeyOnBothScreens` | app/src/main/java/com/gibran/dogsapp/presentation/ui/DogDetailScreen.kt:135 | the card and the detail screen compute the same image key |
| `Navigation.CachedDogsHaveDistinctKeys` | app/src/main/java/com/gibran/dogsapp/presentation/ui/components/DogCard.kt:214 | dogs served from the cache have pairwise different image keys |
| `Navigation.FetchedDogsShareOneKey` | app/src/main/java/com/gibran/dogsapp/data/model/DogResponse.kt:15 | every dog of a fresh fetch has the image key `dog_image_0` |

## Left out

- Coroutines, dispatchers and `StateFlow` emission are not modelled. A load is
  its two state writes with one use case call between them. Overlapping loads
  and their last-write-wins interleaving are scheduling, not logic.
- Room and SQLite internals are not modelled. The table is a value whose rows
  are kept in id order, and one upsert is the function `Place`.
- The Retrofit/Moshi client and JSON decoding are not modelled. The remote
  answer is an input value: a list of decoded records, or a failure.
- I/O faults of the table and of the network are inputs (`Env`), not
  modelled causes.
- Kotlin's 32-bit `Int` is not modelled: ids and ages are unbounded integers.
  So running out of ids, SQLite's "database full" on the counter, is left out.
- `DetailScreen.ContainsIgnoreCase` folds ASCII letters only. Kotlin's
  `ignoreCase` compares characters by their upper- and lower-case forms, so it
  also matches some non-ASCII letters to ASCII keyword letters: `ſ` (long s)
  to `s`, and `ı` (dotless i) and `İ` (capital I with dot) to `i`. A
  description containing "truſt" is Cautious in the app but Unique in the
  model. The keywords being ASCII does not close this gap; full Unicode case
  mapping is left out.
- `ListViewModel.DogListViewModel.Complete` treats every failure as caught.
  The source catches only `Exception` (DogListViewModel.kt:41). A thrown
  `Throwable` that is not an `Exception` (an `Error`) escapes the coroutine
  and leaves `isLoading` true. `Failure` stands for an `Exception` only, so
  the model has no such outcome.
- A call to the remote source is seen only through `DogApi`'s call counter.
  What the network answers is the `remote` field of `Env`, not a modelled
  server.
- Compose layouts and widgets are not part of this model: cards, shimmer,
  previews, the rest of the detail screen, theme files.
- The navigation graph, back navigation and route serialisation are not part
  of this model; only the field copy is.
- Dependency injection (`AppModule.kt`), the activity and the build files are
  not part of this model.
