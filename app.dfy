/** The application object (js/app.js): its settings, the offline-status decision
    and the bulk media download into the Cache API. The page shares the origin's
    CacheStorage with the service worker; once a worker controls the page, every
    `fetch` of the page goes through the worker's fetch handler. The network and
    the outcome of each put are oracles. */
module App {
  import opened Common
  import opened Data
  import SW = ServiceWorker
  import St = Storage
  import Fc = Flashcard

  /** The cache the downloader opens: a generation older than the worker's own. */
  const DOWNLOAD_CACHE := "sayulita-birds-v4"

  /** Files fetched at once. */
  const BATCH_SIZE := 3

  /** The localStorage key recording that a download ran. */
  const MEDIA_FLAG := "mediaDownloaded"

  // ---------------------------------------------------------------------
  // The file list and its batches

  /** Two files per bird, in catalog order: the photo, then the call. */
  function FileList(birds: seq<Bird>): seq<string>
  {
    if birds == [] then []
    else
      var last := birds[|birds| - 1];
      FileList(birds[..|birds| - 1]) + [PhotoUrl(last), AudioUrl(last)]
  }

  lemma {:induction false} FileListLength(birds: seq<Bird>)
    ensures |FileList(birds)| == 2 * |birds|
  {
    if birds != [] {
      FileListLength(birds[..|birds| - 1]);
    }
  }

  /** Entry 2i of the list is bird i's photo and entry 2i+1 its call. */
  lemma {:induction false} FileListAt(birds: seq<Bird>, i: nat)
    requires i < |birds|
    ensures |FileList(birds)| == 2 * |birds|
    ensures FileList(birds)[2 * i] == PhotoUrl(birds[i]) && FileList(birds)[2 * i + 1] == AudioUrl(birds[i])
  {
    var init := birds[..|birds| - 1];
    var tail := [PhotoUrl(birds[|birds| - 1]), AudioUrl(birds[|birds| - 1])];
    FileListLength(init);
    assert FileList(birds) == FileList(init) + tail;
    if i < |init| {
      FileListAt(init, i);
      assert birds[i] == init[i];
    } else {
      assert FileList(birds)[2 * i] == tail[0] && FileList(birds)[2 * i + 1] == tail[1];
    }
  }

  /** The list has 2N entries; entry 2i is bird i's photo and 2i+1 its call. */
  lemma FileListShape(birds: seq<Bird>)
    ensures |FileList(birds)| == 2 * |birds|
    ensures forall i :: 0 <= i < |birds| ==>
      FileList(birds)[2 * i] == PhotoUrl(birds[i]) && FileList(birds)[2 * i + 1] == AudioUrl(birds[i])
  {
    FileListLength(birds);
    forall i | 0 <= i < |birds|
      ensures FileList(birds)[2 * i] == PhotoUrl(birds[i]) && FileList(birds)[2 * i + 1] == AudioUrl(birds[i])
    {
      FileListAt(birds, i);
    }
  }

  /** The file at position k of the list, read off by parity. */
  lemma FileAtParity(birds: seq<Bird>, k: nat)
    requires k < 2 * |birds|
    ensures |FileList(birds)| == 2 * |birds| && k / 2 < |birds|
    ensures FileList(birds)[k] == if k % 2 == 0 then PhotoUrl(birds[k / 2]) else AudioUrl(birds[k / 2])
  {
    FileListAt(birds, k / 2);
  }

  /** With distinct ids, no file is listed twice. */
  lemma FileListDistinct(birds: seq<Bird>)
    requires forall i, j :: 0 <= i < j < |birds| ==> birds[i].id != birds[j].id
    ensures forall i, j :: 0 <= i < j < |FileList(birds)| ==> FileList(birds)[i] != FileList(birds)[j]
  {
    FileListLength(birds);
    var files := FileList(birds);
    forall i, j | 0 <= i < j < |files| ensures files[i] != files[j] {
      FileAtParity(birds, i);
      FileAtParity(birds, j);
      var a, b := birds[i / 2], birds[j / 2];
      assert i / 2 < j / 2 || i % 2 != j % 2;
      PhotoPathNotAudioPath(a, b);
      PhotoPathNotAudioPath(b, a);
      if i / 2 < j / 2 {
        AssetPathsDistinct(a, b);
      }
    }
  }

  /** Consecutive slices of at most BATCH_SIZE files. */
  function Batches(files: seq<string>): seq<seq<string>>
    decreases |files|
  {
    if files == [] then []
    else if |files| <= BATCH_SIZE then [files]
    else [files[..BATCH_SIZE]] + Batches(files[BATCH_SIZE..])
  }

  function Flatten(bs: seq<seq<string>>): seq<string>
  {
    if bs == [] then [] else bs[0] + Flatten(bs[1..])
  }

  /** The batches are non-empty, hold at most three files each, partition the list
      in order, and there are ceil(N / 3) of them. */
  lemma {:induction false} BatchesPartition(files: seq<string>)
    ensures Flatten(Batches(files)) == files
    ensures forall k :: 0 <= k < |Batches(files)| ==> 1 <= |Batches(files)[k]| <= BATCH_SIZE
    ensures |Batches(files)| == (|files| + BATCH_SIZE - 1) / BATCH_SIZE
    decreases |files|
  {
    if |files| > BATCH_SIZE {
      var rest := files[BATCH_SIZE..];
      BatchesPartition(rest);
      assert Batches(files)[1..] == Batches(rest);
      assert files == files[..BATCH_SIZE] + rest;
    } else if files != [] {
      assert Batches(files)[1..] == [];
    }
  }

  // ---------------------------------------------------------------------
  // The page's fetch of one file

  /** The page during a download. The network and the outcomes of the two puts
      are oracles. */
  datatype Page = Page(
    origin: string,                // location.origin
    dir: string,                   // the directory of index.html and sw.js, ending in "/"
    controlled: bool,              // a worker controls the page, so its fetches reach the fetch handler
    cacheApi: bool,                // 'caches' in window
    network: SW.Network,
    workerPutOk: SW.Url -> bool,   // whether the worker's write-back of a URL is accepted
    putOk: string -> bool)         // whether the page's own put (or blob read) of a file settles

  /** The URL that `fetch(file)` and `cache.put(file, …)` resolve a file path to. */
  function FileUrl(page: Page, file: string): SW.Url
  {
    SW.Resolve(page.origin, page.dir, file)
  }

  /** The page's `fetch(file)` over the caches `s`: what it resolves to (None when it
      rejects) and the caches afterwards. An uncontrolled page asks the network; on a
      controlled one the worker's fetch handler answers, and may write back. */
  function PageFetch(page: Page, s: SW.Snapshot, file: string): (Option<SW.Response>, SW.Snapshot)
  {
    var u := FileUrl(page, file);
    if !page.controlled then
      (if page.network(u).Resolved? then Some(page.network(u).response) else None, s)
    else
      var d := SW.FetchDecision(u.origin == page.origin, SW.MatchAll(s.names, s.caches, u), page.network(u), u.path);
      (if d.outcome.RespondWith? then d.outcome.response else None,
       SW.AfterFetch(s, page.origin, u, page.network, page.workerPutOk(u)))
  }

  /** Does an answer count: an ok response whose put into the download cache (which
      refuses a partial response) or blob read settles. */
  predicate Accepted(page: Page, file: string, resp: Option<SW.Response>)
  {
    resp.Some? && SW.IsOk(resp.value) && page.putOk(file) && !(page.cacheApi && resp.value.status == 206)
  }

  /** The caches and the downloaded count so far. */
  datatype Tally = Tally(snap: SW.Snapshot, downloaded: nat)

  /** One file: fetch it, and when the answer counts, store it in the download
      cache (with the Cache API) and count it. */
  function Step(page: Page, t: Tally, file: string): Tally
  {
    var fetched := PageFetch(page, t.snap, file);
    if Accepted(page, file, fetched.0) then
      Tally(if page.cacheApi then SW.WithEntry(fetched.1, DOWNLOAD_CACHE, FileUrl(page, file), fetched.0.value) else fetched.1,
            t.downloaded + 1)
    else Tally(fetched.1, t.downloaded)
  }

  /** The files in order, each settled before the next. */
  function Run(page: Page, t: Tally, files: seq<string>): (r: Tally)
    ensures t.downloaded <= r.downloaded <= t.downloaded + |files|
  {
    if files == [] then t
    else Step(page, Run(page, t, files[..|files| - 1]), files[|files| - 1])
  }

  /** The two caches differ. */
  lemma DownloadCacheIsOlder()
    ensures DOWNLOAD_CACHE != SW.CACHE_NAME
  {
    assert DOWNLOAD_CACHE[16] != SW.CACHE_NAME[16];
  }

  /** No fetch removes a cache, and the names stay in step with the caches. */
  lemma {:induction false} RunKeepsCaches(page: Page, t: Tally, files: seq<string>)
    requires SW.Consistent(t.snap) && (page.cacheApi ==> DOWNLOAD_CACHE in t.snap.caches)
    ensures SW.Consistent(Run(page, t, files).snap)
    ensures t.snap.caches.Keys <= Run(page, t, files).snap.caches.Keys
  {
    if files != [] {
      RunKeepsCaches(page, t, files[..|files| - 1]);
    }
  }

  // ---------------------------------------------------------------------
  // The uncontrolled page: a reference description

  /** Without a worker, a file counts when the network answers it ok and the
      following put (or blob read) settles. */
  predicate Succeeds(page: Page, file: string)
  {
    var n := page.network(FileUrl(page, file));
    n.Resolved? && Accepted(page, file, Some(n.response))
  }

  function CountDownloaded(page: Page, files: seq<string>): nat
  {
    if files == [] then 0
    else CountDownloaded(page, files[..|files| - 1]) + (if Succeeds(page, files[|files| - 1]) then 1 else 0)
  }

  /** The download cache after putting every downloaded file in turn. */
  function StoreDownloads(c: SW.Cache, page: Page, files: seq<string>): SW.Cache
  {
    if files == [] then c
    else
      var f := files[|files| - 1];
      var before := StoreDownloads(c, page, files[..|files| - 1]);
      if Succeeds(page, f) then before[FileUrl(page, f) := page.network(FileUrl(page, f)).response] else before
  }

  /** Exactly the downloaded files end up in the cache, each with its response;
      failed files leave whatever was there. */
  lemma {:induction false} StoreDownloadsEffect(c: SW.Cache, page: Page, files: seq<string>)
    ensures forall f :: f in files && Succeeds(page, f) ==>
      FileUrl(page, f) in StoreDownloads(c, page, files)
      && StoreDownloads(c, page, files)[FileUrl(page, f)] == page.network(FileUrl(page, f)).response
    ensures forall u :: u in StoreDownloads(c, page, files) ==>
      u in c || exists f :: f in files && Succeeds(page, f) && u == FileUrl(page, f)
    ensures forall u :: u in c && !(exists f :: f in files && Succeeds(page, f) && u == FileUrl(page, f)) ==>
      u in StoreDownloads(c, page, files) && StoreDownloads(c, page, files)[u] == c[u]
  {
    if files != [] {
      var init := files[..|files| - 1];
      assert files == init + [files[|files| - 1]];
      StoreDownloadsEffect(c, page, init);
    }
  }

  /** On an uncontrolled page the caches see only the page's own puts: the walk
      counts the files that succeed and stores exactly those. */
  lemma {:induction false} UncontrolledRun(page: Page, t: Tally, files: seq<string>)
    requires !page.controlled
    requires page.cacheApi ==> DOWNLOAD_CACHE in t.snap.caches
    ensures Run(page, t, files).downloaded == t.downloaded + CountDownloaded(page, files)
    ensures Run(page, t, files).snap == if page.cacheApi
      then SW.Snapshot(t.snap.names, t.snap.caches[DOWNLOAD_CACHE := StoreDownloads(t.snap.caches[DOWNLOAD_CACHE], page, files)])
      else t.snap
  {
    if files != [] {
      var init := files[..|files| - 1];
      UncontrolledRun(page, t, init);
      if page.cacheApi {
        var c := t.snap.caches[DOWNLOAD_CACHE];
        var f := files[|files| - 1];
        if Succeeds(page, f) {
          UpdateTwice(t.snap.caches, DOWNLOAD_CACHE, StoreDownloads(c, page, init),
                      StoreDownloads(c, page, files));
        }
      }
    }
  }

  // ---------------------------------------------------------------------
  // The controlled page

  /** On a controlled page a file fetched from the network with status 200 is
      written back into the worker's cache as well, so it is still served after the
      worker's next activation, which deletes the download cache. */
  lemma ControlledWriteBack(page: Page, t: Tally, file: string)
    requires page.controlled && SW.Consistent(t.snap)
    requires var u := FileUrl(page, file);
      SW.MatchAll(t.snap.names, t.snap.caches, u).None?
      && page.network(u).Resolved? && page.network(u).response.status == 200 && page.workerPutOk(u)
    ensures var u := FileUrl(page, file); var r := Step(page, t, file);
      && SW.Holds(r.snap.caches, SW.CACHE_NAME, u) && r.snap.caches[SW.CACHE_NAME][u] == page.network(u).response
      && r.downloaded == t.downloaded + (if page.putOk(file) then 1 else 0)
      && forall after: seq<string> :: (forall n :: n in after <==> n in SW.Purged(r.snap.caches)) ==>
           SW.MatchAll(after, SW.Purged(r.snap.caches), u) == Some(page.network(u).response)
  {
    var u := FileUrl(page, file);
    var resp := page.network(u).response;
    var s1 := SW.AfterFetch(t.snap, page.origin, u, page.network, true);
    assert SW.Holds(s1.caches, SW.CACHE_NAME, u) && s1.caches[SW.CACHE_NAME][u] == resp;
    assert PageFetch(page, t.snap, file) == (Some(resp), s1);
    var r := Step(page, t, file);
    assert r.snap == if page.cacheApi && page.putOk(file) then SW.WithEntry(s1, DOWNLOAD_CACHE, u, resp) else s1;
    DownloadCacheIsOlder();
    forall after: seq<string> | forall n :: n in after <==> n in SW.Purged(r.snap.caches)
      ensures SW.MatchAll(after, SW.Purged(r.snap.caches), u) == Some(page.network(u).response)
    {
      SW.ActivateLeavesOnlyCurrent(r.snap.caches, after, u);
    }
  }

  /** On a controlled page offline, a photo no cache holds is answered with the
      worker's placeholder, which counts as downloaded and is what the download
      cache stores. */
  lemma ControlledOfflinePhoto(page: Page, t: Tally, b: Bird)
    requires page.controlled && page.putOk(PhotoUrl(b))
    requires var u := FileUrl(page, PhotoUrl(b));
      SW.MatchAll(t.snap.names, t.snap.caches, u).None? && page.network(u).Rejected?
    ensures var r := Step(page, t, PhotoUrl(b));
      && r.downloaded == t.downloaded + 1
      && r.snap == if page.cacheApi then SW.WithEntry(t.snap, DOWNLOAD_CACHE, FileUrl(page, PhotoUrl(b)), SW.PLACEHOLDER) else t.snap
  {
    var file := PhotoUrl(b);
    assert file[0] == 'a';
    EndsWithPrefixed(page.dir, file, ".jpg");
    SW.PlaceholderIsSvg();
  }

  /** On a controlled page offline, a call no cache holds fails and leaves the
      caches as they were. */
  lemma ControlledOfflineCall(page: Page, t: Tally, b: Bird)
    requires page.controlled
    requires var u := FileUrl(page, AudioUrl(b));
      SW.MatchAll(t.snap.names, t.snap.caches, u).None? && page.network(u).Rejected?
    ensures Step(page, t, AudioUrl(b)) == t
  {
    var file := AudioUrl(b);
    assert file[0] == 'a';
    EndsWithPrefixed(page.dir, file, ".jpg");
    EndsWithPrefixed(page.dir, file, ".png");
  }

  // ---------------------------------------------------------------------
  // The offline-status decision

  datatype OfflineView =
    | Unchanged                   // nothing is shown
    | AlreadyDownloaded           // the "all media downloaded" dialog
    | DownloadModal(totalFiles: nat)   // the download offer, with its file count

  /** checkOfflineStatus, with showDownloadModal's count of files. */
  function OfflineDecision(flag: Option<string>, forceShow: bool, birdCount: nat): (v: OfflineView)
    ensures v == Unchanged <==> flag == Some("true") && !forceShow
    ensures v == AlreadyDownloaded <==> flag == Some("true") && forceShow
    ensures v.DownloadModal? <==> flag != Some("true")
    ensures v.DownloadModal? ==> v.totalFiles == 2 * birdCount
  {
    var alreadyDownloaded := flag == Some("true");
    if alreadyDownloaded && !forceShow then Unchanged
    else if alreadyDownloaded && forceShow then AlreadyDownloaded
    else DownloadModal(birdCount * 2)
  }

  /** The count the download offer shows is the length of the list the download walks. */
  lemma OfferedCountIsListLength(flag: Option<string>, forceShow: bool, birds: seq<Bird>)
    requires flag != Some("true")
    ensures OfflineDecision(flag, forceShow, |birds|) == DownloadModal(|FileList(birds)|)
  {
    FileListLength(birds);
  }

  /** Downloaded media are served through `caches.match` while the download cache
      exists; once the worker activates, only the worker's own generation answers,
      so a file survives exactly when the worker's cache holds it too. */
  lemma DownloadServedUntilActivation(names: seq<string>, caches: map<string, SW.Cache>, u: SW.Url)
    requires forall n :: n in names <==> n in caches
    requires DOWNLOAD_CACHE in caches && u in caches[DOWNLOAD_CACHE]
    ensures SW.MatchAll(names, caches, u).Some?
    ensures forall after: seq<string> :: (forall n :: n in after <==> n in SW.Purged(caches)) ==>
      SW.MatchAll(after, SW.Purged(caches), u) ==
        (if SW.Holds(caches, SW.CACHE_NAME, u) then Some(caches[SW.CACHE_NAME][u]) else None)
  {
    SW.MatchSeesEveryCache(names, caches, DOWNLOAD_CACHE, u);
    forall after: seq<string> | forall n :: n in after <==> n in SW.Purged(caches)
      ensures SW.MatchAll(after, SW.Purged(caches), u) ==
        (if SW.Holds(caches, SW.CACHE_NAME, u) then Some(caches[SW.CACHE_NAME][u]) else None)
    {
      SW.ActivateLeavesOnlyCurrent(caches, after, u);
    }
  }

  /** One batch of startMediaDownload: each file in `files[lo..hi]` is fetched (through
      the fetch handler when the page is controlled) and, when the answer counts and
      the Cache API is there, put into the download cache. Returns how many counted. */
  method DownloadBatch(cs: SW.CacheStorage, page: Page, files: seq<string>, lo: nat, hi: nat, ghost t0: Tally)
    returns (downloaded: nat)
    requires lo <= hi <= |files|
    requires cs.Valid() && (page.cacheApi ==> DOWNLOAD_CACHE in cs.caches)
    requires cs.Snap() == Run(page, t0, files[..lo]).snap
    modifies cs
    ensures cs.Valid() && (page.cacheApi ==> DOWNLOAD_CACHE in cs.caches)
    ensures downloaded <= hi - lo
    ensures Run(page, t0, files[..lo]).downloaded + downloaded == Run(page, t0, files[..hi]).downloaded
    ensures cs.Snap() == Run(page, t0, files[..hi]).snap
  {
    downloaded := 0;
    var j := lo;
    while j < hi
      invariant lo <= j <= hi && downloaded <= j - lo
      invariant cs.Valid() && (page.cacheApi ==> DOWNLOAD_CACHE in cs.caches)
      invariant Run(page, t0, files[..lo]).downloaded + downloaded == Run(page, t0, files[..j]).downloaded
      invariant cs.Snap() == Run(page, t0, files[..j]).snap
    {
      var counted := FetchAndStore(cs, page, files[j]);
      if counted {
        downloaded := downloaded + 1;
      }
      assert files[..j + 1][..j] == files[..j];
      j := j + 1;
    }
  }

  /** The per-file callback of a batch: fetch the file (through the fetch handler
      when the page is controlled) and, when the answer counts, put it into the
      download cache if the Cache API is there. `counted` is the callback's result. */
  method FetchAndStore(cs: SW.CacheStorage, page: Page, file: string) returns (counted: bool)
    requires cs.Valid() && (page.cacheApi ==> DOWNLOAD_CACHE in cs.caches)
    modifies cs
    ensures cs.Valid() && (page.cacheApi ==> DOWNLOAD_CACHE in cs.caches)
    ensures forall k: nat {:trigger Step(page, Tally(old(cs.Snap()), k), file)} ::
      Step(page, Tally(old(cs.Snap()), k), file) == Tally(cs.Snap(), if counted then k + 1 else k)
  {
    DownloadCacheIsOlder();
    var u := FileUrl(page, file);
    var resp: Option<SW.Response>;
    if page.controlled {
      var out, _ := SW.HandleFetch(cs, page.origin, u, page.network, page.workerPutOk(u));
      resp := if out.RespondWith? then out.response else None;
    } else {
      var result := page.network(u);
      resp := if result.Resolved? then Some(result.response) else None;
    }
    counted := Accepted(page, file, resp);
    if counted && page.cacheApi {
      cs.Put(DOWNLOAD_CACHE, u, resp.value);
    }
  }

  /** A loop that steps by BATCH_SIZE until it passes `total` runs ceil(total / 3) times. */
  lemma BatchCount(steps: nat, total: nat)
    requires total <= BATCH_SIZE * steps && (steps > 0 ==> BATCH_SIZE * (steps - 1) < total)
    ensures steps == (total + BATCH_SIZE - 1) / BATCH_SIZE
  {
  }

  /** What the batch loop reports over `files` from the caches `start`: every file
      counted once, as downloaded exactly when the walk counts it, and after batch
      k the number of settled files is min(3(k+1), N), reaching N at the last batch. */
  ghost predicate Reported(page: Page, files: seq<string>, start: SW.Snapshot,
                           downloaded: nat, failed: nat, progress: seq<nat>)
  {
    && downloaded == Run(page, Tally(start, 0), files).downloaded
    && downloaded + failed == |files|
    && |progress| == |Batches(files)|
    && (forall k :: 0 <= k < |progress| ==> progress[k] == Min(BATCH_SIZE * (k + 1), |files|))
    && (|progress| > 0 ==> progress[|progress| - 1] == |files|)
  }

  /** The batch loop of startMediaDownload over the whole list. `progress[k]` is
      `downloaded + failed` after batch k, the numerator of the reported percentage. */
  method DownloadAll(cs: SW.CacheStorage, page: Page, files: seq<string>)
    returns (downloaded: nat, failed: nat, progress: seq<nat>)
    requires cs.Valid() && (page.cacheApi ==> DOWNLOAD_CACHE in cs.caches)
    modifies cs
    ensures cs.Valid()
    ensures Reported(page, files, old(cs.Snap()), downloaded, failed, progress)
    ensures cs.Snap() == Run(page, Tally(old(cs.Snap()), 0), files).snap
  {
    var total := |files|;
    ghost var t0 := Tally(cs.Snap(), 0);
    downloaded, failed, progress := 0, 0, [];
    var i := 0;
    while i < total
      invariant i == BATCH_SIZE * |progress| && (|progress| > 0 ==> i - BATCH_SIZE < total)
      invariant cs.Valid() && (page.cacheApi ==> DOWNLOAD_CACHE in cs.caches)
      invariant downloaded == Run(page, t0, files[..Min(i, total)]).downloaded
      invariant downloaded + failed == Min(i, total)
      invariant forall k :: 0 <= k < |progress| ==> progress[k] == Min(BATCH_SIZE * (k + 1), total)
      invariant cs.Snap() == Run(page, t0, files[..Min(i, total)]).snap
      decreases total - i
    {
      var end := Min(i + BATCH_SIZE, total);
      var ok := DownloadBatch(cs, page, files, i, end, t0);
      downloaded, failed := downloaded + ok, failed + (end - i - ok);
      progress := progress + [downloaded + failed];
      i := i + BATCH_SIZE;
    }
    assert files[..total] == files;
    BatchesPartition(files);
    BatchCount(|progress|, total);
  }

  /** The caches the walk starts from: the download cache opened (created empty if
      missing) when the Cache API is there. */
  function StartSnap(page: Page, s: SW.Snapshot): (r: SW.Snapshot)
    ensures page.cacheApi ==> r == SW.Opened(s, DOWNLOAD_CACHE)
    ensures !page.cacheApi ==> r == s
  {
    if page.cacheApi then SW.Opened(s, DOWNLOAD_CACHE) else s
  }

  /** What an uncontrolled download does to the caches: with the Cache API the
      download cache (opened empty if missing) gains the successful files; without
      it nothing changes. */
  ghost predicate Stored(page: Page, before: SW.Snapshot, after: SW.Snapshot, files: seq<string>)
  {
    var o := StartSnap(page, before);
    if page.cacheApi then after == SW.Snapshot(o.names, o.caches[DOWNLOAD_CACHE := StoreDownloads(o.caches[DOWNLOAD_CACHE], page, files)])
    else after == before
  }

  /** The part of startMediaDownload that talks to the network and the caches:
      build the file list, open the download cache when the Cache API is there, and
      walk the list in batches of three, counting each file as downloaded or failed
      (no failure stops the walk). On an uncontrolled page this is the network-only
      reading: `downloaded` counts the files that succeed and the download cache
      gains exactly those. */
  method DownloadMedia(cs: SW.CacheStorage, birds: seq<Bird>, page: Page)
    returns (downloaded: nat, failed: nat, progress: seq<nat>)
    requires cs.Valid()
    modifies cs
    ensures cs.Valid()
    ensures |FileList(birds)| == 2 * |birds|
    ensures Reported(page, FileList(birds), StartSnap(page, old(cs.Snap())), downloaded, failed, progress)
    ensures cs.Snap() == Run(page, Tally(StartSnap(page, old(cs.Snap())), 0), FileList(birds)).snap
    ensures !page.controlled ==>
      downloaded == CountDownloaded(page, FileList(birds)) && Stored(page, old(cs.Snap()), cs.Snap(), FileList(birds))
  {
    var files := BuildFileList(birds);
    FileListLength(birds);
    if page.cacheApi {
      cs.Open(DOWNLOAD_CACHE);
    }
    ghost var start := cs.Snap();
    downloaded, failed, progress := DownloadAll(cs, page, files);
    if !page.controlled {
      UncontrolledRun(page, Tally(start, 0), files);
    }
  }

  /** The `birds.forEach` loop that pushes each bird's photo and call. */
  method BuildFileList(birds: seq<Bird>) returns (files: seq<string>)
    ensures files == FileList(birds)
  {
    files := [];
    for i := 0 to |birds|
      invariant files == FileList(birds[..i])
    {
      files := files + [PhotoUrl(birds[i]), AudioUrl(birds[i])];
      assert birds[..i + 1][..i] == birds[..i];
    }
    assert birds[..|birds|] == birds;
  }

  /** `Object.entries(this.settings)`. */
  function SettingEntries(s: map<string, St.Value>): (entries: seq<(string, St.Value)>)
    requires s.Keys == {St.THEME, St.SHOW_SCIENTIFIC, St.SORT_BY}
    ensures |entries| == |SETTING_KEYS| && St.DistinctKeys(entries)
    ensures forall i :: 0 <= i < |entries| ==> entries[i] == (SETTING_KEYS[i], s[SETTING_KEYS[i]])
  {
    [(St.THEME, s[St.THEME]), (St.SHOW_SCIENTIFIC, s[St.SHOW_SCIENTIFIC]), (St.SORT_BY, s[St.SORT_BY])]
  }

  /** Saving the app's settings and reading them back gives the same three values. */
  lemma SavedSettingsReadBack(stored: map<string, St.Value>, s: map<string, St.Value>)
    requires s.Keys == {St.THEME, St.SHOW_SCIENTIFIC, St.SORT_BY}
    ensures forall k :: k in SETTING_KEYS ==> k in St.PutAll(stored, SettingEntries(s)) && St.PutAll(stored, SettingEntries(s))[k] == s[k]
  {
    var entries := SettingEntries(s);
    St.PutAllEffect(stored, entries);
    assert entries[0].0 == St.THEME && entries[1].0 == St.SHOW_SCIENTIFIC && entries[2].0 == St.SORT_BY;
  }

  /** The settings object's keys, in the order `Object.entries` lists them. */
  const SETTING_KEYS := [St.THEME, St.SHOW_SCIENTIFIC, St.SORT_BY]

  /** The App object's state that the core touches. */
  class AppState {
    var settings: map<string, St.Value>
    var localStorage: map<string, string>

    /** The three settings are always present. */
    ghost predicate Valid()
      reads this
    {
      settings.Keys == {St.THEME, St.SHOW_SCIENTIFIC, St.SORT_BY}
    }

    /** The App object before init: the built-in settings defaults. */
    constructor (stored: map<string, string>)
      ensures Valid() && localStorage == stored
      ensures settings == map[St.THEME := St.Str("light"), St.SHOW_SCIENTIFIC := St.Bool(true), St.SORT_BY := St.Str("frequency")]
    {
      settings := map[St.THEME := St.Str("light"), St.SHOW_SCIENTIFIC := St.Bool(true), St.SORT_BY := St.Str("frequency")];
      localStorage := stored;
    }

    /** checkOfflineStatus on the current localStorage flag; `forceShow` is false
        when the caller passes nothing. */
    function CheckOfflineStatus(forceShow: bool, birdCount: nat): (v: OfflineView)
      reads this
      ensures (MEDIA_FLAG in localStorage && localStorage[MEDIA_FLAG] == "true") ==>
        v == (if forceShow then AlreadyDownloaded else Unchanged)
      ensures !(MEDIA_FLAG in localStorage && localStorage[MEDIA_FLAG] == "true") ==>
        v == DownloadModal(2 * birdCount)
    {
      OfflineDecision(if MEDIA_FLAG in localStorage then Some(localStorage[MEDIA_FLAG]) else None, forceShow, birdCount)
    }

    /** init's settings step: the store's settings, each stored or defaulted. */
    method LoadSettings(store: St.Store)
      modifies this
      ensures Valid()
      ensures settings[St.THEME] == store.GetSetting(St.THEME, St.Str("light"))
      ensures settings[St.SHOW_SCIENTIFIC] == store.GetSetting(St.SHOW_SCIENTIFIC, St.Bool(true))
      ensures settings[St.SORT_BY] == store.GetSetting(St.SORT_BY, St.Str("frequency"))
      ensures localStorage == old(localStorage)
    {
      settings := store.GetAllSettings();
    }

    /** The theme, scientific-name and sort handlers: set one setting, then save
        all three (each put may be rejected, which ends the save). */
    method ChangeSetting(store: St.Store, key: string, value: St.Value, writeOk: seq<bool>)
      requires Valid() && key in SETTING_KEYS && |writeOk| == |SETTING_KEYS|
      modifies this, store
      ensures Valid() && settings == old(settings)[key := value]
      ensures localStorage == old(localStorage)
      ensures store.settings == St.PutAll(old(store.settings), SettingEntries(settings)[..St.FirstFailure(writeOk)])
      ensures store.progress == old(store.progress)
    {
      settings := settings[key := value];
      var _ := store.SaveAllSettings(SettingEntries(settings), writeOk);
    }

    /** The sort handler: record the order, reorder the catalog, return to the
        first card, and save the settings. */
    method ChangeSort(store: St.Store, data: BirdData, cards: Fc.Flashcards, sortBy: string,
                      now: St.Timestamp, studyOk: bool, writeOk: seq<bool>)
      requires Valid() && |writeOk| == |SETTING_KEYS| && store.Valid()
      modifies this, store, data.birds, cards
      ensures Valid() && settings == old(settings)[St.SORT_BY := St.Str(sortBy)]
      ensures localStorage == old(localStorage)
      ensures multiset(data.birds[..]) == old(multiset(data.birds[..]))
      ensures sortBy == "frequency" ==> SortedByFrequency(data.birds[..])
      ensures sortBy !in {"frequency", "alphabetical", "random"} ==> data.birds[..] == old(data.birds[..])
      ensures cards.currentIndex == 0 && cards.Valid(data.birds.Length)
      ensures data.birds.Length > 0 ==> cards.ShowsCard(0, data, store, old(store.progress), now, studyOk)
      ensures data.birds.Length == 0 ==> cards.ViewUnchanged(store)
      ensures store.Valid()
      ensures store.settings == St.PutAll(old(store.settings), SettingEntries(settings)[..St.FirstFailure(writeOk)])
    {
      settings := settings[St.SORT_BY := St.Str(sortBy)];
      data.SortBy(sortBy);
      cards.Reset(data, store, now, studyOk);
      var _ := store.SaveAllSettings(SettingEntries(settings), writeOk);
    }

    /** The shuffle button: shuffle the catalog and return to the first card. */
    method ShuffleClicked(store: St.Store, data: BirdData, cards: Fc.Flashcards, now: St.Timestamp, studyOk: bool)
      requires store.Valid()
      modifies store, data.birds, cards
      ensures multiset(data.birds[..]) == old(multiset(data.birds[..]))
      ensures cards.currentIndex == 0 && cards.Valid(data.birds.Length)
      ensures data.birds.Length > 0 ==> cards.ShowsCard(0, data, store, old(store.progress), now, studyOk)
      ensures data.birds.Length == 0 ==> cards.ViewUnchanged(store)
      ensures store.Valid() && store.settings == old(store.settings)
    {
      data.Shuffle();
      cards.Reset(data, store, now, studyOk);
    }

    /** startMediaDownload: the downloads as DownloadMedia states, then the flag,
        set whatever the outcome. */
    method StartMediaDownload(cs: SW.CacheStorage, birds: seq<Bird>, page: Page)
      returns (downloaded: nat, failed: nat, progress: seq<nat>)
      requires cs.Valid()
      modifies this, cs
      ensures cs.Valid()
      ensures |FileList(birds)| == 2 * |birds|
      ensures Reported(page, FileList(birds), StartSnap(page, old(cs.Snap())), downloaded, failed, progress)
      ensures cs.Snap() == Run(page, Tally(StartSnap(page, old(cs.Snap())), 0), FileList(birds)).snap
      ensures !page.controlled ==>
        downloaded == CountDownloaded(page, FileList(birds)) && Stored(page, old(cs.Snap()), cs.Snap(), FileList(birds))
      ensures localStorage == old(localStorage)[MEDIA_FLAG := "true"]
      ensures settings == old(settings)
    {
      downloaded, failed, progress := DownloadMedia(cs, birds, page);
      localStorage := localStorage[MEDIA_FLAG := "true"];
    }
  }
}
