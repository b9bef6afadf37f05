# Sayulita Birds — a Dafny model of the flashcard app's core

Sayulita Birds is an offline-capable web app for learning the birds of
Sayulita, Mexico. It has three modes: flashcards, a photo quiz and an audio
quiz. This project models the parts of the app that keep or change state, and
proves what those parts promise:

- **Progress and settings store** (`storage.dfy`). The two IndexedDB object
  stores become maps in class `Storage.Store`. A study or a quiz answer is a
  read-modify-write of one record. A quiz answer also applies the confidence
  rule, whose accuracy thresholds 0.8 and 0.5 are proved equal to the integer
  tests `5c >= 4t` and `2c >= t`. Settings reads fall back to defaults, and
  settings writes are one put per key.
- **Service worker** (`service_worker.dfy`). Class
  `ServiceWorker.CacheStorage` holds the named caches in creation order. On
  top of it sit the install step (`addAll` of the application shell), the
  activate step (delete every other cache generation), the fetch handler
  (cache hit, network with a status-200 write-back, or the offline SVG
  placeholder for images) and the message handler (`CACHE_FILE`,
  `SKIP_WAITING`).
- **App** (`app.dfy`). This covers the offline-status decision and the bulk
  media download: two files per bird, in batches of three, with per-file
  success or failure counted and progress reported after each batch, ending
  with the `mediaDownloaded` flag. The page shares the origin's caches with
  the worker. Once a worker controls the page, each of the downloader's
  fetches runs through the worker's fetch handler. It also covers the
  settings handlers.
- **Catalog** (`data.dfy`). This covers the lookups (`getBird`,
  `getBirdByIndex`, `getBirdByRank`), the asset paths, the eBird and All About
  Birds links, the in-place sorts and shuffles of the catalog array, and
  `getRandomBirds`.
- **Quizzes** (`quiz.dfy`). This is the `answered`/`score`/`total` state of
  each quiz, how a question's options are put together, and how an answer is
  graded.
- **Flashcards** (`flashcard.dfy`). This covers card navigation, flipping,
  the state of the navigation buttons, the progress counter, swipes and keys.

The environment enters the model as parameters:

- The network is an oracle from URL to "rejected" or "resolved with a
  response".
- Each IndexedDB put takes a flag saying whether the database accepts it.
- Each Cache API put is an oracle on whether it is accepted. This covers the
  downloader's put or body read per file, the worker's write-back per URL,
  and a flag for `addAll` and for the `CACHE_FILE` put. A partial (206)
  response is always refused, as the Cache API specifies.
- Relative URLs are resolved against the page's directory, which is also
  the worker's, since `sw.js` is registered from the page's directory.
- The current time is an opaque timestamp string.
- `Math.random` becomes a nondeterministic choice (`:|`), so every property
  proved about a shuffle or a random pick holds for every possible draw.

Points where the page and the worker interact in ways worth stating:

- The worker owns the generation `sayulita-birds-v5`, and activation deletes
  every other cache (sw.js:2, sw.js:31-36). But `startMediaDownload` opens and
  writes a cache of its own, `sayulita-birds-v4` (js/app.js:302).
  `App.DownloadServedUntilActivation` proves that a downloaded file is served
  while the download cache exists. After the next
  activation it is served only if the worker's cache holds it too.
- The automatic download offer waits for `navigator.serviceWorker.ready`
  (js/app.js:216-225). A download started from it runs on a controlled page, whose
  fetches reach the fetch handler (sw.js:42-67). The settings button
  "Download for offline" opens the offer directly (js/app.js:118-127). It can
  therefore start a download on an uncontrolled page, including in a browser
  without service workers. `Page.controlled = false` covers that case, through
  `App.UncontrolledRun`. For a controlled page, three consequences are proved:
  - `App.ControlledWriteBack`: a file fetched from the network with status
    200 is written into `sayulita-birds-v5` as well, so it survives
    activation.
  - `App.ControlledOfflinePhoto`: offline, a photo no cache holds gets the
    SVG placeholder. The downloader counts the placeholder as downloaded and
    stores it in its cache.
  - `App.ControlledOfflineCall`: an offline call recording fails and leaves
    the caches alone.
- `nextPhotoQuestion` calls `BirdData.getRandomPhotoUrl` (js/quiz.js:100).
  The catalog object (js/data.js) defines no such function, so in these
  sources the call throws after the options have been shuffled.
  `Quiz.QuizRound.NextQuestion` models the state changes up to that point
  (js/quiz.js:83-97), which both quizzes share.

## Model

| member | source | states |
|---|---|---|
| Data.PhotoUrl | js/data.js:65-71 | the photo path is `assets/images/birds/` followed by the id and `.jpg`, with its length stated exactly |
| Data.AudioUrl | js/data.js:86-88 | the call path is `assets/audio/calls/` followed by the id and `.mp3`; it never ends in `.jpg` or `.png`, so the worker never substitutes the photo placeholder for it |
| Data.AssetPathsDistinct | js/data.js:65-88 | two birds share a photo path, or an audio path, exactly when they share an id |
| Data.PhotoPathNotAudioPath | js/data.js:65-88 | no photo path equals any audio path |
| Data.RemoveHyphens | js/data.js:94 | the result has no `-`, and its length is the input's length minus the number of hyphens |
| Data.RemoveHyphensAppend | js/data.js:94 | removing hyphens works piecewise over concatenation, so every other character is kept in order |
| Data.RemoveHyphensNoHyphen | js/data.js:94 | an id without hyphens is embedded unchanged |
| Data.EbirdUrl | js/data.js:91-95 | the eBird link is the species base followed by exactly the id with its hyphens removed |
| Data.ToLowerAscii | js/data.js:99 | lower-casing keeps the length, maps A-Z to a-z and leaves every other character alone |
| Data.CollapseRuns | js/data.js:99 | after replacing each maximal run outside `[a-z0-9]` with one `-`, only `[a-z0-9-]` remain and no two hyphens are adjacent; the result starts with `-` exactly when the input starts with a character outside the class |
| Data.CollapseRunsKeepsSlugChars | js/data.js:99 | the replacement keeps every letter and digit, in order |
| Data.CollapseRunsOfSlug | js/data.js:99 | a name that is already all `[a-z0-9]` is left unchanged |
| Data.DropRunAppend | js/data.js:99 | skipping a leading run of non-slug characters stops at the first slug character, so text after it is untouched |
| Data.CollapseRunsAppend | js/data.js:99 | the replacement works piecewise at a boundary that follows a slug character |
| Data.CollapseRunsOfRun | js/data.js:99 | a maximal run of characters outside `[a-z0-9]` at the front becomes one `-` |
| Data.CollapseRunsAtRun | js/data.js:99 | a maximal run of characters outside `[a-z0-9]` anywhere is replaced, in its place, by exactly one `-`, and the text on both sides is replaced independently |
| Data.AllAboutBirdsUrl | js/data.js:98-101 | the guide link is the base followed by the replacement applied to the lower-cased common name: a slug of only `[a-z0-9-]` with no two adjacent hyphens |
| Data.AllAboutBirdsSlugChars | js/data.js:98-101 | the slug holds exactly the letters and digits of the lower-cased common name, in order |
| Data.FindIndex | js/data.js:26 | `find` returns the first matching position, or nothing when no element matches |
| Data.Exclude | js/data.js:59 | the filter keeps only birds whose id is not the excluded one, keeps every catalog bird with another id, and takes no bird more often than the catalog has it |
| Data.ExcludeCounts | js/data.js:59 | each bird with the excluded id occurs 0 times in the result; every other bird occurs exactly as often as in the catalog |
| Data.ExcludeAppend | js/data.js:59 | the filter works piecewise over concatenation, so the kept birds stay in catalog order |
| Data.InsertionSortByFrequency | js/data.js:40 | the array ends up ordered by non-increasing frequency and is a permutation of its old contents |
| Data.ShuffleInPlace | js/quiz.js:254-259 | a descending Fisher-Yates loop that swaps `a[i]` with any `a[j]`, `0 <= j <= i`, leaves a permutation of the array; BirdData.shuffle (js/data.js:51-56) runs the same loop |
| Data.BirdData.constructor | js/data.js:11 | the catalog array holds the loaded birds in file order |
| Data.BirdData.GetBird | js/data.js:25-27 | the result is a catalog bird with that id; it is undefined exactly when no bird has that id |
| Data.BirdData.GetBirdByIndex | js/data.js:29-31 | the result is `birds[index]` inside the array and undefined outside it |
| Data.BirdData.GetBirdByRank | js/data.js:33-35 | the result is a catalog bird with that rank; it is undefined exactly when no bird has that rank |
| Data.BirdData.SortBy | js/data.js:37-49 | every method leaves a permutation; 'frequency' leaves non-increasing frequency; an unknown method leaves the array unchanged |
| Data.BirdData.SortByFrequency | js/data.js:40 | the catalog is sorted by non-increasing frequency and is a permutation of its old contents |
| Data.BirdData.Shuffle | js/data.js:51-56 | the catalog is a permutation of its old contents, whatever the random draws |
| Data.BirdData.GetRandomBirds | js/data.js:58-62 | it returns min(count, number of birds left by the filter) birds; none has the excluded id; each comes from a distinct catalog position (the multiset is contained in the catalog's) |
| Storage.DefaultProgress | js/storage.js:106-116 | a fresh record carries the given id, zero counters, no timestamp, `low` confidence and empty notes |
| Storage.NextConfidenceMeetsThresholds | js/storage.js:89-100 | with fewer than 3 answers the level is kept; otherwise it is high iff accuracy >= 0.8, medium iff 0.5 <= accuracy < 0.8, and low iff accuracy < 0.5, with accuracy computed exactly |
| Storage.AccuracyAtLeast | js/storage.js:91-93 | for a positive total, `correct / total >= q` exactly when `correct >= q * total` |
| Storage.Studied | js/storage.js:73-74 | one study adds exactly 1 to `timesStudied` and stamps `lastStudied`; the quiz counters, confidence, notes and id are unchanged |
| Storage.Answered | js/storage.js:82-100 | exactly one answer counter rises by 1, the correct one if the answer was correct; `lastStudied` is stamped; the confidence is the threshold rule on the new counters; the other fields are unchanged |
| Storage.ThreeAnswersFromDefault | js/storage.js:81-100 | from a fresh record, three correct answers give `high`, two correct and one wrong give `medium`, and three wrong give `low` |
| Storage.PutAllEffect | js/storage.js:157-161 | after putting entries with distinct keys, each key holds its entry's value and every other key keeps its old value |
| Storage.PutAllSnoc | js/storage.js:158-160 | one more put extends the fold by exactly one key update |
| Storage.FirstFailure | js/storage.js:158-160 | the position where an awaited put first rejects: every earlier put succeeded |
| Storage.Store.constructor | js/storage.js:18-32 | both object stores start empty |
| Storage.Store.GetProgress | js/storage.js:37-48 | the stored record if there is one, else the default record for that id, which is not stored |
| Storage.Store.GetAllProgress | js/storage.js:50-59 | the result holds each stored record exactly once, and every entry is the record stored under its own id |
| Storage.Store.SaveProgress | js/storage.js:61-70 | an accepted put stores the record under its `birdId`, overwriting; a rejected put changes nothing and is reported |
| Storage.Store.UpdateStudyProgress | js/storage.js:72-78 | the returned record is `Studied` applied to what `getProgress` gave; the store becomes AfterStudy of the old one |
| Storage.AfterStudy | js/storage.js:72-78 | the progress map after one study: with an accepted put the bird gains a record whose study count is one more than before and which is stamped; every other record, and everything on a rejected put, is unchanged |
| Storage.Store.UpdateQuizProgress | js/storage.js:80-104 | the returned record is `Answered` applied to what `getProgress` gave; it is stored under the same id iff the put is accepted; no other record changes |
| Storage.Store.GetSetting | js/storage.js:119-130 | the stored value, even `false`, or else the given default |
| Storage.Store.SaveSetting | js/storage.js:132-141 | an accepted put sets exactly that key; a rejected one changes nothing |
| Storage.Store.GetAllSettings | js/storage.js:143-155 | exactly the keys theme, showScientific and sortBy, each with its stored value or its default 'light', true or 'frequency' |
| Storage.Store.SaveAllSettings | js/storage.js:157-161 | the store equals the old store with every entry put in order up to the first rejected put; it reports failure iff some put was rejected |
| ServiceWorker.FirstHolder | sw.js:48 | the first cache, in creation order, that holds the URL, or none exactly when no cache holds it |
| ServiceWorker.MatchAll | sw.js:48-49 | `caches.match` finds a response iff some cache holds the URL, and the response is one it holds |
| ServiceWorker.Purged | sw.js:33-36 | after activation only the current generation is left, with its contents unchanged |
| ServiceWorker.Resolve | sw.js:5-18 | a reference starting with `/` keeps its path; any other is placed under the directory, with a leading `./` dropped |
| ServiceWorker.DotSlashIsSameDirectory | sw.js:5-18 | `./x` and `x` resolve to the same URL |
| ServiceWorker.Opened | sw.js:24 | `caches.open` adds the name as the last cache when it is missing; every existing cache keeps its contents; the name list stays in step with the caches |
| ServiceWorker.WithEntry | sw.js:55 | `cache.put` stores the response under the URL, keeps every other entry of that cache, and changes no other cache |
| ServiceWorker.CacheStorage.Match | sw.js:48 | the lookup succeeds iff some listed cache holds the URL |
| ServiceWorker.CacheStorage.Contents | sw.js:24 | the cache `open` would yield: the existing one, or an empty one |
| ServiceWorker.CacheStorage.Open | sw.js:24 | the storage becomes Opened of the old one: a missing cache is created empty and last in the order, and an existing one is left as it is |
| ServiceWorker.CacheStorage.Delete | sw.js:35 | exactly that cache is removed and the other names keep their creation order; nothing changes when it did not exist, and the result says whether it existed |
| ServiceWorker.CacheStorage.Put | sw.js:55 | the storage becomes WithEntry of the old one: one entry per URL in that cache, a later put overwrites, and no other cache changes |
| ServiceWorker.Without | sw.js:35 | the name list without the deleted name |
| ServiceWorker.WithoutAppend | sw.js:35 | removing a name works piecewise over concatenation |
| ServiceWorker.WithoutKeepsOrder | sw.js:35 | every other name stays in place relative to the names before and after it |
| ServiceWorker.AssetUrls | sw.js:5-18 | the shell manifest is the twelve listed paths, in order, each resolved under the worker's directory with the `./` dropped |
| ServiceWorker.ShellCoversStartup | sw.js:5-18 | the shell holds the directory URL, `index.html`, and the catalog at the URL the page's `fetch('data/birds.json')` resolves to (js/data.js:9) |
| ServiceWorker.AddAllEffect | sw.js:25 | after `addAll`, each manifest URL holds its fetched response and every other entry is unchanged |
| ServiceWorker.FetchAll | sw.js:25 | the fetch pass of `addAll` succeeds iff every URL resolves with an ok response that is not partial (206) |
| ServiceWorker.CacheAddAll | sw.js:25 | `addAll` stores every fetched response in the named cache iff every fetch gives a cacheable response and the write is accepted; otherwise every cache is left unchanged |
| ServiceWorker.Install | sw.js:21-28 | the current cache is opened; installation succeeds iff every manifest fetch is cacheable and the write is accepted; on success that cache holds the whole manifest; on failure no entry is written (all-or-nothing) |
| ServiceWorker.Activate | sw.js:31-39 | every cache except `sayulita-birds-v5` is deleted, and that one is kept unchanged |
| ServiceWorker.FetchDecision | sw.js:42-67 | cross-origin requests are not intercepted; a hit is returned as stored; a miss goes to the network; only a status-200 response is written back; a rejected image fetch gets the placeholder and any other rejected fetch gets no response |
| ServiceWorker.PlaceholderIsSvg | sw.js:58-62 | the placeholder is a status-200 response with content type `image/svg+xml` |
| ServiceWorker.StoredIsReturned | sw.js:51-56 | a response the handler stores is the one it returns, and it has status 200 |
| ServiceWorker.AfterFetch | sw.js:47-66 | a same-origin miss answered with status 200 opens the current cache and stores the response there unless the put is refused; any other request changes no cache; other caches are never touched |
| ServiceWorker.WriteBackServesNextTime | sw.js:48-56 | after a write-back the next lookup of that URL returns the stored response |
| ServiceWorker.HandleFetch | sw.js:42-67 | the answer is FetchDecision on the cache lookup and the network, and the caches, names included, become AfterFetch of the old ones |
| ServiceWorker.HandleMessage | sw.js:70-90 | CACHE_FILE opens the current cache and stores the resolved URL's response there iff it is ok, not partial, and the put is accepted, swallowing failures; SKIP_WAITING only requests skipWaiting; other messages change nothing |
| ServiceWorker.MatchSeesEveryCache | sw.js:48 | an entry in any existing cache, of any generation, is served by `caches.match` |
| ServiceWorker.ActivateLeavesOnlyCurrent | sw.js:31-36 | after activation a lookup answers only from the current generation |
| App.FileListLength | js/app.js:285-291 | the download list has exactly two entries per bird |
| App.FileListAt | js/app.js:288-291 | entry 2i of the list is bird i's photo path and entry 2i+1 its call path |
| App.FileListShape | js/app.js:285-291 | the download list has 2N entries; entry 2i is bird i's photo path and entry 2i+1 its call path |
| App.FileAtParity | js/app.js:288-291 | entry k of the list belongs to bird k/2, a photo path when k is even and a call path when it is odd |
| App.FileListDistinct | js/app.js:288-291 | when bird ids are distinct, no file is listed twice |
| App.BatchesPartition | js/app.js:309-310 | the batches are non-empty, hold at most three files each, concatenate back to the list in order, and there are ceil(N/3) of them |
| App.StoreDownloadsEffect | js/app.js:311-324 | without a worker, the download cache ends up with exactly the files that succeeded, each with its response, and every other entry unchanged |
| App.Run | js/app.js:309-332 | walking the files adds at most one to the downloaded count per file |
| App.RunKeepsCaches | js/app.js:309-332 | no fetch of the walk removes a cache, and the name list stays in step with the caches |
| App.DownloadCacheIsOlder | js/app.js:302 | the download cache is not the worker's generation |
| App.UncontrolledRun | js/app.js:309-332 | on a page no worker controls, the walk counts exactly the files that succeed and changes only the download cache, storing exactly those files |
| App.ControlledWriteBack | js/app.js:312 | on a controlled page, a file the network answers with status 200 lands in the worker's cache too, counts iff the page's own put settles, and is still served after activation |
| App.ControlledOfflinePhoto | js/app.js:312-321 | on a controlled page offline, an uncached photo is answered with the placeholder, counts as downloaded, and the placeholder is what the download cache stores |
| App.ControlledOfflineCall | js/app.js:312-323 | on a controlled page offline, an uncached call recording fails and leaves the caches unchanged |
| App.OfflineDecision | js/app.js:231-253 | no dialog iff the flag is 'true' and nothing forces it; the "already downloaded" dialog iff the flag is 'true' and it is forced; otherwise the download offer, with 2N files |
| App.OfferedCountIsListLength | js/app.js:262 | the file count shown in the offer is the length of the list the download walks |
| App.DownloadServedUntilActivation | js/app.js:302 | a file in the downloader's cache is served by `caches.match`; after the worker activates, a lookup returns the worker's own entry for it, or nothing |
| App.DownloadBatch | js/app.js:310-332 | a batch advances the walk by its files: the caches and the downloaded count are those of the walk over one more batch |
| App.FetchAndStore | js/app.js:311-324 | one file: the caches become the walk's step, and the callback reports true exactly when the step counts the file |
| App.DownloadAll | js/app.js:309-337 | downloaded + failed = N; downloaded is the walk's count; after batch k the settled count `downloaded + failed` is min(3(k+1), N), reaching N at the last batch; the caches are the walk's |
| App.StartSnap | js/app.js:296-306 | the walk starts from the caches with the download cache opened when the Cache API is there, and untouched without it |
| App.SettingEntries | js/app.js:95 | `Object.entries` of the settings object lists the three keys once each, in declaration order |
| App.SavedSettingsReadBack | js/storage.js:143-161 | saving the app's settings and reading them back returns the same three values |
| App.AppState.constructor | js/app.js:3-10 | the built-in settings are light theme, scientific names shown and frequency order |
| App.AppState.CheckOfflineStatus | js/app.js:231-253 | the decision on the current `mediaDownloaded` flag, as in OfflineDecision |
| App.AppState.LoadSettings | js/app.js:22 | init replaces the settings with the store's values, each stored or defaulted |
| App.AppState.ChangeSetting | js/app.js:92-109 | the handler sets exactly one setting and then saves all three through saveAllSettings |
| App.AppState.ChangeSort | js/app.js:111-116 | the sort handler records the order, reorders the catalog as SortBy does, returns the flashcards to card 0 with its counter, buttons and one study recorded (nothing changes with no cards), and saves the settings |
| App.AppState.ShuffleClicked | js/app.js:69-72 | the shuffle button permutes the catalog and returns the flashcards to card 0 with its counter, buttons and one study recorded; the settings are untouched |
| App.DownloadMedia | js/app.js:285-337 | over the 2N-file list, from the caches with the download cache opened: the counts, per-batch progress and caches are the walk's; on an uncontrolled page, downloaded counts the successful files and the download cache gains exactly those |
| App.AppState.StartMediaDownload | js/app.js:275-347 | the downloads are as DownloadMedia states and the flag ends up 'true' whatever the outcome; the settings are untouched |
| App.BuildFileList | js/app.js:286-291 | the pushed list is the photo and call of each bird, in catalog order |
| Quiz.OneOptionHasTheId | js/quiz.js:96-97 | after the shuffle exactly one option carries the bird's id: the bird itself, once |
| Quiz.OptionsWithinCatalog | js/quiz.js:93-96 | the current bird plus the wrong answers come from distinct catalog positions |
| Quiz.AssembleOptions | js/quiz.js:92-97 | options are `1 + min(3, others)` birds; the current bird is among them and is the only option with its id; they come from distinct catalog positions |
| Quiz.QuizRound.constructor | js/quiz.js:5-11 | a quiz starts with no bird, no options, not answered, and a score of 0 out of 0 |
| Quiz.QuizRound.Start | js/quiz.js:74-79 | start sets score = total = 0 and asks a question whose options are as in AssembleOptions (also js/quiz.js:160-165 for the audio quiz) |
| Quiz.QuizRound.NextQuestion | js/quiz.js:81-97 | `answered` is cleared; the question is a catalog bird offered as in AssembleOptions; with an empty catalog there is no bird and nothing else changes (also js/quiz.js:167-187) |
| Quiz.QuizRound.HandleAnswer | js/quiz.js:121-153 | a second answer is ignored; otherwise total rises by exactly 1, the answer is recorded through updateQuizProgress, and score rises iff the chosen id is the bird's and the record was saved; `score <= total` is preserved (also js/quiz.js:212-247) |
| Quiz.QuizState.constructor | js/quiz.js:3-21 | the photo and audio quizzes are separate objects, both at 0 out of 0 |
| Quiz.QuizState.Reset | js/quiz.js:262-269 | both quizzes' score and total become 0 and nothing else changes |
| Flashcard.SwipeMove | js/flashcard.js:96-107 | a rightward travel over 50 px goes to the previous card, a leftward one over 50 px to the next, and anything within 50 px does nothing |
| Flashcard.KeyMove | js/flashcard.js:66-82 | nothing happens outside study mode; ArrowLeft goes back, ArrowRight goes forward, Space or Enter flips, and other keys do nothing |
| Flashcard.Moved | js/flashcard.js:190-200 | previous and next move by exactly one at most and keep the index within `[0, n)` |
| Flashcard.Flashcards.constructor | js/flashcard.js:4-7 | study starts at card 0, unflipped |
| Flashcard.Flashcards.ShowBird | js/flashcard.js:109-183 | an index outside `[0, n)` changes nothing; otherwise the card is shown unflipped, the counter reads i+1 of n, prev is disabled iff i = 0 and next iff i = n-1, and one study is recorded for that bird |
| Flashcard.Flashcards.UpdateProgress | js/flashcard.js:229-236 | the counter shows the card's 1-based position and the number of cards |
| Flashcard.Flashcards.FlipCard | js/flashcard.js:185-188 | flip negates `isFlipped` and nothing else, so two flips restore the card |
| Flashcard.Flashcards.Previous | js/flashcard.js:190-194 | at card 0 nothing changes, progress included; otherwise it moves back exactly one card, shown as ShowBird states |
| Flashcard.Flashcards.Next | js/flashcard.js:196-200 | at the last card nothing changes, progress included; otherwise it moves forward exactly one card, shown as ShowBird states |
| Flashcard.Flashcards.TouchStart | js/flashcard.js:56-58 | records where the touch began and nothing else |
| Flashcard.Flashcards.TouchEnd | js/flashcard.js:60-63 | records where the touch ended and moves the card as SwipeMove decides, showing it as ShowBird states; a short swipe changes nothing else |
| Flashcard.Flashcards.HandleKey | js/flashcard.js:66-82 | moves or flips exactly as KeyMove decides; a move shows the card as ShowBird states; otherwise counter, buttons and progress are unchanged |
| Flashcard.Flashcards.Reset | js/flashcard.js:238-241 | back to card 0 shown as ShowBird states when there are cards; with none, nothing else changes |

## Left out

- IndexedDB plumbing: opening the database, transactions, request callbacks and schema creation (js/storage.js:8-34). The two object stores are maps, and the `lastStudied` and `confidenceLevel` indexes are not modelled because no core code queries them.
- Storage.Store.GetProgress: does not model a rejected read, because read failures are outside what the model's write oracles cover. Only puts can fail in the model.
- Storage.Store.GetAllProgress: the order of `getAll` is left open (IndexedDB returns key order). The result is stated as a duplicate-free listing of the stored records.
- `response.clone()` and the un-awaited `cache.put` in the fetch handler (sw.js:54-55): the write is modelled as happening before the handler returns.
- `caches.open` rejecting (js/app.js:303-305) is not modelled. Opening a cache always succeeds in the model, so the `cache = null` fallback never runs.
- URL resolution covers the three forms the app writes: `/x`, `./x` and `x`. Absolute URLs, `../`, query strings and percent-encoding are not modelled.
- Which writes a full browser storage quota refuses is not modelled; the put oracles stand for it.
- The fetch handler's request method and query string: requests are URLs made of an origin and a path.
- Service-worker registration, `skipWaiting` and `clients.claim` (sw.js:26, sw.js:37, js/app.js:215-229): these are runtime lifecycle. HandleMessage only reports that skipWaiting was requested.
- `navigator.onLine` detection (js/app.js:203-213), which only toggles an indicator.
- The concurrency inside a batch (`Promise.allSettled`, js/app.js:311): files are processed one after another, since the counts do not depend on order.
- App.DownloadAll: the progress percentage `(downloaded + failed) / total * 100` (js/app.js:334) is floating point. It is stated as its integer numerator `downloaded + failed`.
- Floating-point progress in flashcards (js/flashcard.js:232): the counter is stated as the pair (current, total).
- All DOM, `innerHTML`, style and modal updates; `Audio` playback, including `playQuizAudio`, `toggleAudio`, `playAudio` and `stopAudio`; the `setTimeout` auto-skips; and the photo `onerror` fallbacks. None of these changes the state the model tracks.
- `switchMode`, `applySettings` and the open/close handlers of the settings dialog (js/app.js:139-201) are view switching. Flashcard.KeyMove takes the current mode as a parameter.
- Data.BirdData.SortBy: the 'alphabetical' order uses `localeCompare` (js/data.js:43). It is modelled only as some permutation, because locale collation is not modelled.
- Data.InsertionSortByFrequency: the stability of the browser's sort is not stated. Only order by frequency and permutation are stated.
- Data.BirdData.GetRandomBirds: `sort(() => Math.random() - 0.5)` is modelled as any shuffle. The model does not capture that the distribution is biased.
- `getWikimediaSearchUrl` and `getXenoCantoUrl` (js/data.js:74-83): both depend on `encodeURIComponent`, which is not modelled.
- Data.ToLowerAscii: lower-casing covers ASCII letters only. Non-ASCII `toLowerCase` mappings are not modelled.
- JSON catalog loading in `BirdData.load` (js/data.js:7-19). The catalog is given to the BirdData constructor. The description, field-mark and habitat fields are display-only and are left out of `Bird`.
- `BirdData.getRandomPhotoUrl`, called at js/quiz.js:100, exists nowhere in js/data.js. Once the options are shuffled, the photo quiz's question setup throws. Nothing after js/quiz.js:97 is modelled.
- Quiz.QuizRound.HandleAnswer: the answer-highlighting and feedback text are left out, because they are DOM.
- Storage.NextConfidenceMeetsThresholds: the accuracy `c / t` and the thresholds 0.8 and 0.5 are compared in exact arithmetic. Rounding to doubles is not modelled.
- `new Date().toISOString()` is passed in as an opaque timestamp.
- JavaScript number semantics for counters: `score`, `total` and the progress counters are unbounded naturals, not doubles.
