/** The service worker (sw.js) over the origin's CacheStorage (section 5.5 of the
    W3C Service Workers specification): an ordered collection of named caches,
    each a map from request URL to stored response (section 5.4). The network
    is an oracle that, for each URL, either rejects or resolves to a response. */
module ServiceWorker {
  import opened Common

  /** A request URL: its origin and its absolute path. */
  datatype Url = Url(origin: string, path: string)

  /** `new URL(ref, base)` for a base document in the directory `dir` (an absolute
      path ending in "/") of `origin`, for the reference forms the app writes: a
      reference starting with "/" is origin-relative, one starting with "./" or
      with a path segment is relative to the directory. */
  function Resolve(origin: string, dir: string, ref: string): (u: Url)
    ensures u.origin == origin
    ensures StartsWith(ref, "/") ==> u.path == ref
    ensures !StartsWith(ref, "/") ==> StartsWith(u.path, dir)
    ensures StartsWith(ref, "./") ==> u.path == dir + ref[2..]
    ensures !StartsWith(ref, "/") && !StartsWith(ref, "./") ==> u.path == dir + ref
  {
    if StartsWith(ref, "/") then assert ref[0] == '/'; Url(origin, ref)
    else if StartsWith(ref, "./") then Url(origin, dir + ref[2..])
    else Url(origin, dir + ref)
  }

  /** "./x" and "x" name the same resource. */
  lemma DotSlashIsSameDirectory(origin: string, dir: string, x: string)
    requires !StartsWith(x, "/") && !StartsWith(x, "./")
    ensures Resolve(origin, dir, "./" + x) == Resolve(origin, dir, x)
  {
    assert ("./" + x)[2..] == x;
  }

  datatype Response = Response(status: int, headers: map<string, string>, body: string)

  /** `response.ok`: a status in the range 200-299. */
  predicate IsOk(r: Response)
  {
    200 <= r.status <= 299
  }

  /** What `fetch` does with a URL: reject, or resolve to a response. */
  datatype NetResult = Rejected | Resolved(response: Response)

  type Network = Url -> NetResult

  /** A fetch whose response a cache accepts: `cache.put` and `cache.addAll`
      reject a partial (206) response, and `addAll` also one that is not ok. */
  predicate Cacheable(n: NetResult)
  {
    n.Resolved? && IsOk(n.response) && n.response.status != 206
  }

  type Cache = map<Url, Response>

  /** The origin's caches at one moment: their names in creation order and their contents. */
  datatype Snapshot = Snapshot(names: seq<string>, caches: map<string, Cache>)

  /** The name list lists exactly the existing caches. */
  ghost predicate Consistent(s: Snapshot)
  {
    forall n :: n in s.caches <==> n in s.names
  }

  /** The cache called `name` as `caches.open(name)` finds it: its contents if it
      exists, otherwise a new empty cache. */
  function ContentsOf(caches: map<string, Cache>, name: string): (c: Cache)
    ensures name in caches ==> c == caches[name]
    ensures name !in caches ==> c == map[]
  {
    if name in caches then caches[name] else map[]
  }

  /** `caches.open(name)`: creates the cache, at the end of the order, if it is missing;
      every existing cache keeps its place and its contents. */
  function Opened(s: Snapshot, name: string): (r: Snapshot)
    ensures r.caches.Keys == s.caches.Keys + {name}
    ensures r.caches[name] == ContentsOf(s.caches, name)
    ensures forall n :: n in s.caches ==> r.caches[n] == s.caches[n]
    ensures r.names == if name in s.caches then s.names else s.names + [name]
    ensures Consistent(s) ==> Consistent(r)
  {
    if name in s.caches then s else Snapshot(s.names + [name], s.caches[name := map[]])
  }

  /** `cache.put(u, response)` on the cache `name`: one entry per URL, a later put
      overwrites; every other entry and every other cache is as it was. */
  function WithEntry(s: Snapshot, name: string, u: Url, response: Response): (r: Snapshot)
    ensures r.names == s.names
    ensures r.caches.Keys == s.caches.Keys + {name}
    ensures u in r.caches[name] && r.caches[name][u] == response
    ensures forall v :: v != u ==> (v in r.caches[name] <==> v in ContentsOf(s.caches, name))
    ensures forall v :: v != u && v in ContentsOf(s.caches, name) ==> r.caches[name][v] == ContentsOf(s.caches, name)[v]
    ensures forall n :: n in s.caches && n != name ==> r.caches[n] == s.caches[n]
  {
    Snapshot(s.names, s.caches[name := ContentsOf(s.caches, name)[u := response]])
  }

  /** The worker's cache generation. */
  const CACHE_NAME := "sayulita-birds-v5"

  /** The application shell the install step stores. */
  const ASSETS_TO_CACHE: seq<string> := [
    "./", "./index.html", "./css/styles.css", "./js/storage.js", "./js/data.js",
    "./js/flashcard.js", "./js/quiz.js", "./js/app.js", "./data/birds.json",
    "./manifest.json", "./icons/icon-192.png", "./icons/icon-512.png"]

  const PLACEHOLDER_SVG := "<svg xmlns=\"http://www.w3.org/2000/svg\" width=\"400\" height=\"300\"><rect fill=\"#e8f5e9\" width=\"400\" height=\"300\"/><text x=\"200\" y=\"150\" text-anchor=\"middle\" fill=\"#666\" font-size=\"16\">Photo unavailable offline</text></svg>"

  /** The inline image served for a photo that is neither cached nor reachable;
      `new Response(body, init)` defaults its status to 200. */
  const PLACEHOLDER := Response(200, map["Content-Type" := "image/svg+xml"], PLACEHOLDER_SVG)

  /** Paths that get the placeholder when offline. */
  predicate IsImagePath(path: string)
  {
    EndsWith(path, ".jpg") || EndsWith(path, ".png")
  }

  // ---------------------------------------------------------------------
  // Cache lookup across generations

  /** Does the cache called `name` hold an entry for `u`? */
  predicate Holds(caches: map<string, Cache>, name: string, u: Url)
  {
    name in caches && u in caches[name]
  }

  /** The position, in creation order, of the first cache holding `u`. */
  function FirstHolder(names: seq<string>, caches: map<string, Cache>, u: Url): (r: Option<nat>)
    ensures r.Some? ==> (r.value < |names| && Holds(caches, names[r.value], u)
                          && forall j :: 0 <= j < r.value ==> !Holds(caches, names[j], u))
    ensures r.None? ==> forall j :: 0 <= j < |names| ==> !Holds(caches, names[j], u)
  {
    if names == [] then None
    else if Holds(caches, names[0], u) then Some(0)
    else match FirstHolder(names[1..], caches, u)
      case None => None
      case Some(k) => Some(k + 1)
  }

  /** `caches.match(request)`: the entry of the first cache, in creation order, that
      has one, whichever generation that cache belongs to. */
  function MatchAll(names: seq<string>, caches: map<string, Cache>, u: Url): (r: Option<Response>)
    ensures r.Some? <==> exists i :: 0 <= i < |names| && Holds(caches, names[i], u)
    ensures r.Some? ==> exists i :: 0 <= i < |names| && Holds(caches, names[i], u) && r.value == caches[names[i]][u]
  {
    match FirstHolder(names, caches, u)
    case None => None
    case Some(i) => Some(caches[names[i]][u])
  }

  /** Activation keeps the current generation only, with its contents unchanged. */
  function Purged(caches: map<string, Cache>): (r: map<string, Cache>)
    ensures r.Keys == caches.Keys * {CACHE_NAME}
    ensures CACHE_NAME in caches ==> r[CACHE_NAME] == caches[CACHE_NAME]
  {
    map n | n in caches && n == CACHE_NAME :: caches[n]
  }

  /** The origin's CacheStorage: the named caches, in creation order. */
  class CacheStorage {
    var names: seq<string>
    var caches: map<string, Cache>

    /** The current names and contents. */
    function Snap(): Snapshot
      reads this
    {
      Snapshot(names, caches)
    }

    /** The name list lists exactly the existing caches. */
    ghost predicate Valid()
      reads this
    {
      Consistent(Snap())
    }

    constructor ()
      ensures Valid() && names == [] && caches == map[]
    {
      names, caches := [], map[];
    }

    /** `caches.match`, over every cache. */
    function Match(u: Url): (r: Option<Response>)
      reads this
      ensures r.Some? <==> exists n :: n in names && Holds(caches, n, u)
    {
      MatchAll(names, caches, u)
    }

    /** The cache called `name` as `caches.open(name)` would find it: its
        contents if it exists, otherwise a new empty cache. */
    function Contents(name: string): (c: Cache)
      reads this
      ensures name in caches ==> c == caches[name]
      ensures name !in caches ==> c == map[]
    {
      ContentsOf(caches, name)
    }

    /** `caches.open(name)`: creates the cache, at the end of the order, if it is missing. */
    method Open(name: string)
      requires Valid()
      modifies this
      ensures Valid()
      ensures Snap() == Opened(old(Snap()), name)
      ensures caches == old(caches)[name := old(Contents(name))]
      ensures names == if name in old(names) then old(names) else old(names) + [name]
    {
      if name !in caches {
        caches := caches[name := map[]];
        names := names + [name];
      }
    }

    /** `caches.delete(name)`: the other caches keep their creation order. */
    method Delete(name: string) returns (existed: bool)
      requires Valid()
      modifies this
      ensures Valid()
      ensures existed == (name in old(caches))
      ensures caches == old(caches) - {name}
      ensures forall n :: n in names <==> n in old(names) && n != name
      ensures |names| <= |old(names)|
      ensures existed ==> names == Without(old(names), name)
      ensures !existed ==> names == old(names)
    {
      existed := name in caches;
      if existed {
        caches := caches - {name};
        names := Without(names, name);
      }
    }

    /** `cache.put(url, response)` on an open cache: one entry per URL, a later put overwrites. */
    method Put(name: string, u: Url, r: Response)
      requires Valid() && name in caches
      modifies this
      ensures Valid()
      ensures Snap() == WithEntry(old(Snap()), name, u, r)
      ensures caches == old(caches)[name := old(caches)[name][u := r]]
      ensures names == old(names)
    {
      caches := caches[name := caches[name][u := r]];
    }
  }

  /** The list without `x`. */
  function Without(s: seq<string>, x: string): (r: seq<string>)
    ensures forall n :: n in r <==> n in s && n != x
    ensures |r| <= |s|
  {
    if s == [] then []
    else (if s[0] == x then [] else [s[0]]) + Without(s[1..], x)
  }

  /** Removing a name works piecewise over concatenation, so the remaining names
      keep their relative order. */
  lemma {:induction false} WithoutAppend(s: seq<string>, t: seq<string>, x: string)
    ensures Without(s + t, x) == Without(s, x) + Without(t, x)
  {
    if s == [] {
      assert s + t == t;
    } else {
      assert (s + t)[0] == s[0] && (s + t)[1..] == s[1..] + t;
      WithoutAppend(s[1..], t, x);
      AppendAssoc(if s[0] == x then [] else [s[0]], Without(s[1..], x), Without(t, x));
    }
  }

  /** A name other than the removed one is kept in place: the names before it lose
      only the removed one. */
  lemma WithoutKeepsOrder(s: seq<string>, x: string, i: nat)
    requires i < |s| && s[i] != x
    ensures Without(s, x) == Without(s[..i], x) + [s[i]] + Without(s[i + 1..], x)
  {
    assert s == s[..i] + ([s[i]] + s[i + 1..]);
    WithoutAppend(s[..i], [s[i]] + s[i + 1..], x);
    assert ([s[i]] + s[i + 1..])[1..] == s[i + 1..];
  }

  // ---------------------------------------------------------------------
  // The event handlers

  /** Every manifest entry is written relative to the worker's directory. */
  lemma AssetsAreDotRelative()
    ensures forall i :: 0 <= i < |ASSETS_TO_CACHE| ==> StartsWith(ASSETS_TO_CACHE[i], "./") && !StartsWith(ASSETS_TO_CACHE[i], "/")
  {
    forall i | 0 <= i < |ASSETS_TO_CACHE|
      ensures StartsWith(ASSETS_TO_CACHE[i], "./") && !StartsWith(ASSETS_TO_CACHE[i], "/")
    {
      assert ASSETS_TO_CACHE[i][0] == '.' && ASSETS_TO_CACHE[i][1] == '/';
    }
  }

  /** The manifest's URLs, resolved against `dir`, the directory the worker script
      was registered from. */
  function AssetUrls(origin: string, dir: string): (us: seq<Url>)
    ensures |us| == |ASSETS_TO_CACHE|
    ensures forall i :: 0 <= i < |us| ==> us[i] == Url(origin, dir + ASSETS_TO_CACHE[i][2..])
  {
    AssetsAreDotRelative();
    seq(|ASSETS_TO_CACHE|, i requires 0 <= i < |ASSETS_TO_CACHE| => Resolve(origin, dir, ASSETS_TO_CACHE[i]))
  }

  /** The shell holds the directory URL itself, the page, and the catalog at the
      URL the page's own `fetch('data/birds.json')` resolves to. */
  lemma ShellCoversStartup(origin: string, dir: string)
    ensures AssetUrls(origin, dir)[0] == Url(origin, dir)
    ensures AssetUrls(origin, dir)[1] == Url(origin, dir + "index.html")
    ensures Resolve(origin, dir, "data/birds.json") == AssetUrls(origin, dir)[8]
  {
    assert "data/birds.json"[0] == 'd';
    assert ASSETS_TO_CACHE[0][2..] == "";
    assert dir + "" == dir;
  }

  /** Every manifest fetch resolves with a response the cache accepts: the condition
      under which `cache.addAll` stores anything. */
  predicate AllFetchable(urls: seq<Url>, network: Network)
  {
    forall i :: 0 <= i < |urls| ==> Cacheable(network(urls[i]))
  }

  /** `cache.addAll(urls)` once every fetch has succeeded: each response put in
      turn under its URL. */
  function AddAll(c: Cache, urls: seq<Url>, network: Network): Cache
    requires AllFetchable(urls, network)
  {
    if urls == [] then c
    else
      var last := urls[|urls| - 1];
      AddAll(c, urls[..|urls| - 1], network)[last := network(last).response]
  }

  /** After `addAll`, every URL of the list is stored with its response and every
      other entry is as it was. */
  lemma {:induction false} AddAllEffect(c: Cache, urls: seq<Url>, network: Network)
    requires AllFetchable(urls, network)
    ensures AddAll(c, urls, network).Keys == c.Keys + set u | u in urls
    ensures forall u :: u in urls ==> AddAll(c, urls, network)[u] == network(u).response
    ensures forall u :: u in c && u !in urls ==> AddAll(c, urls, network)[u] == c[u]
  {
    if urls != [] {
      var init := urls[..|urls| - 1];
      assert urls == init + [urls[|urls| - 1]];
      AddAllEffect(c, init, network);
    }
  }

  /** The install handler: open CACHE_NAME, then `addAll` the manifest, which stores
      every response or, when any fetch fails, is refused, or the write is rejected
      (`putOk` false), none of them; only a successful `addAll` reaches
      `skipWaiting`, reported as `installed`. */
  method Install(cs: CacheStorage, origin: string, dir: string, network: Network, putOk: bool) returns (installed: bool)
    requires cs.Valid()
    modifies cs
    ensures cs.Valid()
    ensures cs.names == Opened(old(cs.Snap()), CACHE_NAME).names
    ensures installed <==> AllFetchable(AssetUrls(origin, dir), network) && putOk
    ensures installed ==>
      cs.caches == old(cs.caches)[CACHE_NAME := AddAll(old(cs.Contents(CACHE_NAME)), AssetUrls(origin, dir), network)]
    ensures !installed ==> cs.Snap() == Opened(old(cs.Snap()), CACHE_NAME)
  {
    cs.Open(CACHE_NAME);
    installed := CacheAddAll(cs, CACHE_NAME, AssetUrls(origin, dir), network, putOk);
  }

  /** `cache.addAll(urls)` on the open cache `name`: fetch every URL first, and
      store all the responses only if each fetch gave a cacheable response and the
      write is accepted (`putOk`). */
  method CacheAddAll(cs: CacheStorage, name: string, urls: seq<Url>, network: Network, putOk: bool) returns (ok: bool)
    requires cs.Valid() && name in cs.caches
    modifies cs
    ensures cs.Valid() && cs.names == old(cs.names)
    ensures ok <==> AllFetchable(urls, network) && putOk
    ensures ok ==> cs.caches == old(cs.caches)[name := AddAll(old(cs.caches)[name], urls, network)]
    ensures !ok ==> cs.caches == old(cs.caches)
  {
    ok := FetchAll(urls, network);
    if !ok || !putOk {
      return false;
    }
    ghost var start := cs.caches;
    for i := 0 to |urls|
      invariant cs.Valid() && cs.names == old(cs.names) && name in cs.caches
      invariant cs.caches == start[name := AddAll(start[name], urls[..i], network)]
    {
      cs.Put(name, urls[i], network(urls[i]).response);
      assert urls[..i + 1][..i] == urls[..i];
    }
    assert urls[..|urls|] == urls;
  }

  /** The fetch phase of `addAll`: stops at the first fetch that fails or is refused. */
  method FetchAll(urls: seq<Url>, network: Network) returns (ok: bool)
    ensures ok <==> AllFetchable(urls, network)
  {
    for i := 0 to |urls|
      invariant AllFetchable(urls[..i], network)
    {
      var result := network(urls[i]);
      if !Cacheable(result) {
        assert !AllFetchable(urls, network);
        return false;
      }
      assert urls[..i + 1] == urls[..i] + [urls[i]];
    }
    assert urls[..|urls|] == urls;
    ok := true;
  }

  /** The activate handler: delete every cache whose name is not CACHE_NAME. */
  method Activate(cs: CacheStorage)
    requires cs.Valid()
    modifies cs
    ensures cs.Valid()
    ensures cs.caches == Purged(old(cs.caches))
    ensures forall n :: n in cs.names <==> n in old(cs.names) && n == CACHE_NAME
  {
    var keys := cs.names;
    for i := 0 to |keys|
      invariant cs.Valid()
      invariant cs.caches == map n | n in old(cs.caches) && (n == CACHE_NAME || n !in keys[..i]) :: old(cs.caches)[n]
    {
      if keys[i] != CACHE_NAME {
        var _ := cs.Delete(keys[i]);
      }
      assert keys[..i + 1] == keys[..i] + [keys[i]];
    }
    assert keys[..|keys|] == keys;
  }

  /** What the fetch handler does with an intercepted request. */
  datatype FetchOutcome =
    | NotIntercepted                      // the handler returns without respondWith
    | RespondWith(response: Option<Response>)   // None: the promise resolves to undefined

  /** The per-request decision of the fetch handler, given the cache lookup and
      what the network would do. */
  datatype Decision = Decision(outcome: FetchOutcome, usesNetwork: bool, store: bool)

  function FetchDecision(sameOrigin: bool, cached: Option<Response>, net: NetResult, path: string): (d: Decision)
    ensures !sameOrigin ==> d.outcome == NotIntercepted && !d.usesNetwork
    ensures sameOrigin ==> d.outcome.RespondWith?
    ensures d.usesNetwork <==> sameOrigin && cached.None?
    ensures sameOrigin && cached.Some? ==> d.outcome.response == cached
    ensures d.store <==> d.usesNetwork && net.Resolved? && net.response.status == 200
    ensures d.usesNetwork && net.Resolved? ==> d.outcome.response == Some(net.response)
    ensures d.usesNetwork && net.Rejected? && IsImagePath(path) ==> d.outcome.response == Some(PLACEHOLDER)
    ensures d.usesNetwork && net.Rejected? && !IsImagePath(path) ==> d.outcome.response == None
  {
    if !sameOrigin then Decision(NotIntercepted, false, false)
    else if cached.Some? then Decision(RespondWith(cached), false, false)
    else match net
      case Resolved(r) => Decision(RespondWith(Some(r)), true, r.status == 200)
      case Rejected => Decision(RespondWith(if IsImagePath(path) then Some(PLACEHOLDER) else None), true, false)
  }

  /** The placeholder is an inline SVG image. */
  lemma PlaceholderIsSvg()
    ensures "Content-Type" in PLACEHOLDER.headers && PLACEHOLDER.headers["Content-Type"] == "image/svg+xml"
    ensures PLACEHOLDER.status == 200 && IsOk(PLACEHOLDER)
  {
  }

  /** A response the handler stores is one it also returns, and it has status 200. */
  lemma StoredIsReturned(sameOrigin: bool, cached: Option<Response>, net: NetResult, path: string)
    ensures var d := FetchDecision(sameOrigin, cached, net, path);
      d.store ==> net.Resolved? && net.response.status == 200 && d.outcome == RespondWith(Some(net.response)) && cached.None?
  {
  }

  /** Does the fetch handler write `req` back: a same-origin request that no cache
      answers and whose network fetch resolves with status 200. */
  predicate WritesBack(s: Snapshot, origin: string, req: Url, network: Network)
  {
    req.origin == origin && MatchAll(s.names, s.caches, req).None?
    && network(req).Resolved? && network(req).response.status == 200
  }

  /** The caches after the fetch handler has seen `req`: on a write-back CACHE_NAME is
      opened and, unless the put is rejected (`putOk` false), the response stored in it;
      any other request leaves every cache as it was. */
  function AfterFetch(s: Snapshot, origin: string, req: Url, network: Network, putOk: bool): (r: Snapshot)
    ensures !WritesBack(s, origin, req, network) ==> r == s
    ensures WritesBack(s, origin, req, network) ==>
      r == (var o := Opened(s, CACHE_NAME); if putOk then WithEntry(o, CACHE_NAME, req, network(req).response) else o)
    ensures Consistent(s) ==> Consistent(r)
    ensures forall n :: n in s.caches && n != CACHE_NAME ==> n in r.caches && r.caches[n] == s.caches[n]
  {
    if !WritesBack(s, origin, req, network) then s
    else
      var o := Opened(s, CACHE_NAME);
      if putOk then WithEntry(o, CACHE_NAME, req, network(req).response) else o
  }

  /** A written-back response answers the next request for the same URL. */
  lemma WriteBackServesNextTime(s: Snapshot, origin: string, req: Url, network: Network)
    requires Consistent(s) && WritesBack(s, origin, req, network)
    ensures var r := AfterFetch(s, origin, req, network, true);
      MatchAll(r.names, r.caches, req) == Some(network(req).response)
  {
    var r := AfterFetch(s, origin, req, network, true);
    assert forall i :: 0 <= i < |s.names| ==> !Holds(s.caches, s.names[i], req);
    assert forall n :: n in r.caches && n != CACHE_NAME ==> !Holds(r.caches, n, req);
    var i :| 0 <= i < |r.names| && r.names[i] == CACHE_NAME;
    assert Holds(r.caches, r.names[i], req);
  }

  /** The fetch handler: pass cross-origin requests through; answer from any cache;
      otherwise fetch, writing a status-200 response back into CACHE_NAME, and fall
      back to the placeholder for a photo or icon when the network rejects. `fetched`
      says whether the network was used. */
  method HandleFetch(cs: CacheStorage, origin: string, req: Url, network: Network, putOk: bool)
    returns (out: FetchOutcome, fetched: bool)
    requires cs.Valid()
    modifies cs
    ensures cs.Valid()
    ensures var d := FetchDecision(req.origin == origin, old(cs.Match(req)), network(req), req.path);
      out == d.outcome && fetched == d.usesNetwork
    ensures cs.Snap() == AfterFetch(old(cs.Snap()), origin, req, network, putOk)
  {
    if req.origin != origin {
      return NotIntercepted, false;
    }
    var cached := cs.Match(req);
    var net := if cached.None? then network(req) else Rejected;
    var d := FetchDecision(true, cached, net, req.path);
    assert cached.None? ==> d == FetchDecision(true, cached, network(req), req.path);
    out, fetched := d.outcome, d.usesNetwork;
    if d.store {
      cs.Open(CACHE_NAME);
      if putOk {
        cs.Put(CACHE_NAME, req, net.response);
      }
    }
  }

  /** The data of a `message` event. */
  datatype MessageData = NoData | Message(kind: string, url: string)

  /** The message handler: CACHE_FILE opens CACHE_NAME and fetches the URL, resolved
      against the worker's directory, into it when the response is cacheable and the
      put is accepted, ignoring a rejection; SKIP_WAITING asks for `skipWaiting` and
      touches no cache; anything else is ignored. */
  method HandleMessage(cs: CacheStorage, origin: string, dir: string, data: MessageData, network: Network, putOk: bool)
    returns (skipWaiting: bool)
    requires cs.Valid()
    modifies cs
    ensures cs.Valid()
    ensures skipWaiting <==> data.Message? && data.kind == "SKIP_WAITING"
    ensures !(data.Message? && data.kind == "CACHE_FILE") ==> cs.Snap() == old(cs.Snap())
    ensures data.Message? && data.kind == "CACHE_FILE" ==>
      var u := Resolve(origin, dir, data.url);
      var o := Opened(old(cs.Snap()), CACHE_NAME);
      cs.Snap() == if Cacheable(network(u)) && putOk then WithEntry(o, CACHE_NAME, u, network(u).response) else o
  {
    skipWaiting := false;
    if data.Message? && data.kind == "CACHE_FILE" {
      var u := Resolve(origin, dir, data.url);
      cs.Open(CACHE_NAME);
      var result := network(u);
      if Cacheable(result) && putOk {
        cs.Put(CACHE_NAME, u, result.response);
      }
    }
    if data.Message? && data.kind == "SKIP_WAITING" {
      skipWaiting := true;
    }
  }

  // ---------------------------------------------------------------------
  // Properties across handlers

  /** Lookup sees every generation: an entry in any existing cache is served,
      even in a cache other than CACHE_NAME. */
  lemma {:induction false} MatchSeesEveryCache(names: seq<string>, caches: map<string, Cache>, n: string, u: Url)
    requires n in names && Holds(caches, n, u)
    ensures MatchAll(names, caches, u).Some?
  {
    var i :| 0 <= i < |names| && names[i] == n;
    assert Holds(caches, names[i], u);
  }

  /** After activation only CACHE_NAME can answer: entries of any other cache are gone. */
  lemma {:induction false} ActivateLeavesOnlyCurrent(caches: map<string, Cache>, names: seq<string>, u: Url)
    requires forall n :: n in names <==> n in Purged(caches)
    ensures MatchAll(names, Purged(caches), u) ==
      (if CACHE_NAME in caches && u in caches[CACHE_NAME] then Some(caches[CACHE_NAME][u]) else None)
  {
    var r := MatchAll(names, Purged(caches), u);
    if r.Some? {
      var i :| 0 <= i < |names| && Holds(Purged(caches), names[i], u) && r.value == Purged(caches)[names[i]][u];
      assert names[i] in names;
    }
  }
}
