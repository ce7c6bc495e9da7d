/**
 * The service worker of the CastelaSoft landing page (sw.js): install populates the current
 * bucket from the manifest, activate purges every other bucket, fetch applies a cache-first
 * policy per request destination with offline placeholders, the message channel answers
 * version queries and clears the store, and push / notification-click build and route
 * notifications.
 *
 * Each handler that changes the store is a module-level method taking the `Caches` object
 * it updates in place, specified by a pure transition function on `Storage`; the promises of the source are lemmas about those functions.
 * Calls the worker makes for their effect only (`skipWaiting`, `clients.claim`,
 * `postMessage`) are returned as `Event`s.
 */
module ServiceWorker {
  import opened Wrappers
  import opened CacheStorage

  /** The versioned name of the current bucket. */
  const CacheName: string := "castelasoft-v1.1.0"

  /** The resources install stores, in order. */
  const Manifest: seq<Url> := [
    "./",
    "./index.html",
    "./style.css",
    "./script.js",
    "./manifest.json",
    "https://fonts.googleapis.com/css2?family=Inter:wght@300;400;500;600;700&display=swap",
    "https://cdnjs.cloudflare.com/ajax/libs/font-awesome/6.0.0/css/all.min.css",
    "https://cdnjs.cloudflare.com/ajax/libs/font-awesome/6.0.0/webfonts/fa-solid-900.woff2",
    "https://cdnjs.cloudflare.com/ajax/libs/font-awesome/6.0.0/webfonts/fa-brands-400.woff2"
  ]

  /** The app shell every navigation is answered with. */
  const Shell: Url := "./index.html"

  /** The app root notifications open by default. */
  const AppRoot: Url := "./"

  datatype Reply = VersionReply(version: string) | ClearReply(success: bool)

  /** Calls the worker makes for their effect, in the order it makes them. */
  datatype Event = SkipWaiting | ClaimClients | PostReply(reply: Reply)

  // ---------------------------------------------------------------------------------------
  // Install

  datatype InstallStep = InstallStep(store: Storage, skipWaiting: bool)

  /**
   * Install: open the current bucket, `addAll` the manifest, and call `skipWaiting` only when
   * that resolved. A rejection is caught and logged, so install itself always completes.
   */
  function Installing(s: Storage, net: Network): (r: InstallStep)
    requires WellFormed(s)
    ensures WellFormed(r.store) && CacheName in r.store.buckets
    ensures r.store.buckets.Keys == s.buckets.Keys + {CacheName}
    ensures forall n :: n in s.buckets && n != CacheName ==> r.store.buckets[n] == s.buckets[n]
    ensures r.skipWaiting <==> AllStorable(Manifest, net)
    ensures r.skipWaiting ==>
      forall u :: u in Manifest ==> u in r.store.buckets[CacheName] && net(u) == Some(r.store.buckets[CacheName][u])
    ensures !r.skipWaiting ==>
      r.store.buckets[CacheName] == if CacheName in s.buckets then s.buckets[CacheName] else map[]
  {
    InstallStep(AddBatch(Opened(s, CacheName), CacheName, Manifest, net), AllStorable(Manifest, net))
  }

  method Install(caches: Caches, net: Network) returns (events: seq<Event>)
    requires caches.Valid()
    modifies caches
    ensures caches.Valid()
    ensures caches.State() == Installing(old(caches.State()), net).store
    ensures events == if Installing(old(caches.State()), net).skipWaiting then [SkipWaiting] else []
  {
    caches.Open(CacheName);
    var ok := caches.AddAll(CacheName, Manifest, net);
    events := if ok then [SkipWaiting] else [];
  }

  /** Installing twice against the same network leaves the same store as installing once. */
  lemma {:induction false} InstallIdempotent(s: Storage, net: Network)
    requires WellFormed(s)
    ensures Installing(Installing(s, net).store, net).store == Installing(s, net).store
  {
    var s1 := Installing(s, net).store;
    assert Opened(s1, CacheName) == s1;
    AddBatchIdempotent(Opened(s, CacheName), CacheName, Manifest, net);
  }

  // ---------------------------------------------------------------------------------------
  // Activate and clearing

  /** The store once every bucket but the current one is deleted. */
  function Activated(s: Storage): (r: Storage)
    requires WellFormed(s)
    ensures WellFormed(r)
    ensures r.buckets.Keys == s.buckets.Keys * {CacheName}
    ensures CacheName in s.buckets ==> r.buckets[CacheName] == s.buckets[CacheName]
  {
    if CacheName in s.buckets then Storage([CacheName], map[CacheName := s.buckets[CacheName]]) else Empty
  }

  /** Activate: delete each stale bucket by name, then claim the open clients. */
  method Activate(caches: Caches) returns (events: seq<Event>)
    requires caches.Valid()
    modifies caches
    ensures caches.Valid() && caches.State() == Activated(old(caches.State()))
    ensures events == [ClaimClients]
  {
    ghost var s := caches.State();
    var cacheNames := caches.names;
    PurgingStart(s, Some(CacheName));
    for i := 0 to |cacheNames|
      invariant caches.State() == Purging(s, Some(CacheName), i)
    {
      PurgingStep(s, Some(CacheName), i);
      if cacheNames[i] != CacheName {
        var existed := caches.Delete(cacheNames[i]);
      }
    }
    PurgingEnd(s, Some(CacheName));
    events := [ClaimClients];
  }

  /** Delete every bucket, whatever its name. */
  method ClearAll(caches: Caches)
    requires caches.Valid()
    modifies caches
    ensures caches.Valid() && caches.State() == Empty
  {
    ghost var s := caches.State();
    var cacheNames := caches.names;
    PurgingStart(s, None);
    for i := 0 to |cacheNames|
      invariant caches.State() == Purging(s, None, i)
    {
      PurgingStep(s, None, i);
      var existed := caches.Delete(cacheNames[i]);
    }
    PurgingEnd(s, None);
  }

  /** The kept name, if it occurs in ns. */
  function Kept(ns: seq<string>, keep: Option<string>): seq<string>
  {
    if keep.Some? && keep.value in ns then [keep.value] else []
  }

  /**
   * The store while a loop over s.names deletes every name but keep: the first i names have
   * been visited, the rest are untouched.
   */
  ghost function Purging(s: Storage, keep: Option<string>, i: nat): Storage
    requires i <= |s.names|
  {
    Storage(Kept(s.names[..i], keep) + s.names[i..],
            map n | n in s.buckets && (keep == Some(n) || n in s.names[i..]) :: s.buckets[n])
  }

  lemma {:induction false} PurgingStart(s: Storage, keep: Option<string>)
    requires WellFormed(s)
    ensures Purging(s, keep, 0) == s
  {
    assert s.names[0..] == s.names;
    assert s.names[..0] == [];
  }

  lemma {:induction false} PurgingEnd(s: Storage, keep: Option<string>)
    requires WellFormed(s)
    ensures Purging(s, keep, |s.names|) ==
      if keep.Some? && keep.value in s.buckets then Storage([keep.value], map[keep.value := s.buckets[keep.value]])
      else Empty
  {
    assert s.names[..|s.names|] == s.names;
    assert s.names[|s.names|..] == [];
  }

  /** One iteration of the deletion loop: visiting name i deletes it unless it is the kept one. */
  lemma {:induction false} PurgingStep(s: Storage, keep: Option<string>, i: nat)
    requires WellFormed(s) && i < |s.names|
    ensures WellFormed(Purging(s, keep, i))
    ensures keep != Some(s.names[i]) ==> Deleted(Purging(s, keep, i), s.names[i]) == Purging(s, keep, i + 1)
    ensures keep == Some(s.names[i]) ==> Purging(s, keep, i) == Purging(s, keep, i + 1)
  {
    PurgingWellFormed(s, keep, i);
    var ns, x := s.names, s.names[i];
    var kept := Kept(ns[..i], keep);
    assert ns[..i + 1] == ns[..i] + [x];
    assert x !in ns[..i] by {
      forall j | 0 <= j < i ensures ns[j] != x { }
    }
    if keep != Some(x) {
      assert x !in kept;
      StaleNameDropped(ns, i, kept);
      assert Kept(ns[..i + 1], keep) == kept;
      PurgingBucketsStep(s, keep, i);
    } else {
      assert kept == [];
      assert ns[i..] == [x] + ns[i + 1..];
      PurgingBucketsKeep(s, keep, i);
    }
  }

  /** Every visited name but the kept one is gone, the rest are still present. */
  lemma {:induction false} PurgingWellFormed(s: Storage, keep: Option<string>, i: nat)
    requires WellFormed(s) && i <= |s.names|
    ensures WellFormed(Purging(s, keep, i))
  {
    var ns := s.names;
    var p := Purging(s, keep, i);
    var kept := Kept(ns[..i], keep);
    assert ns == ns[..i] + ns[i..];
    assert Distinct(p.names) by {
      forall a, b | 0 <= a < b < |p.names| ensures p.names[a] != p.names[b] {
        if kept != [] && a == 0 {
          var k := IndexIn(ns[..i], kept[0]);
          assert p.names[b] == ns[i + b - 1] && p.names[a] == ns[k];
        } else {
          assert p.names[a] == ns[i + a - |kept|] && p.names[b] == ns[i + b - |kept|];
        }
      }
    }
  }

  /** The buckets after deleting a visited name that is not kept. */
  lemma {:induction false} PurgingBucketsStep(s: Storage, keep: Option<string>, i: nat)
    requires WellFormed(s) && i < |s.names| && keep != Some(s.names[i])
    ensures Purging(s, keep, i).buckets - {s.names[i]} == Purging(s, keep, i + 1).buckets
  {
    var ns, x := s.names, s.names[i];
    assert ns[i..] == [x] + ns[i + 1..];
    assert x !in ns[i + 1..] by {
      forall j | i + 1 <= j < |ns| ensures ns[j] != x { }
    }
  }

  /** Visiting the kept name changes no bucket. */
  lemma {:induction false} PurgingBucketsKeep(s: Storage, keep: Option<string>, i: nat)
    requires WellFormed(s) && i < |s.names| && keep == Some(s.names[i])
    ensures Purging(s, keep, i).buckets == Purging(s, keep, i + 1).buckets
  {
    assert s.names[i..] == [s.names[i]] + s.names[i + 1..];
  }

  /** A position at which x occurs in ns. */
  ghost function IndexIn(ns: seq<string>, x: string): (k: nat)
    requires x in ns
    ensures k < |ns| && ns[k] == x
  {
    var k :| 0 <= k < |ns| && ns[k] == x; k
  }

  /** Deleting ns[i] from prefix + ns[i..] leaves prefix + ns[i + 1..] when the names are distinct. */
  lemma {:induction false} StaleNameDropped(ns: seq<string>, i: int, prefix: seq<string>)
    requires Distinct(ns) && 0 <= i < |ns| && ns[i] !in prefix
    ensures Without(prefix + ns[i..], ns[i]) == prefix + ns[i + 1..]
  {
    assert ns[i..] == [ns[i]] + ns[i + 1..];
    assert prefix + ns[i..] == prefix + [ns[i]] + ns[i + 1..];
    assert ns[i] !in ns[i + 1..] by {
      forall j | i + 1 <= j < |ns| ensures ns[j] != ns[i] { }
    }
    DropOne(prefix, ns[i], ns[i + 1..]);
  }

  /** After activation every lookup is answered by the current bucket alone. */
  lemma {:induction false} ActivatedLookup(s: Storage, url: Url)
    requires WellFormed(s)
    ensures Lookup(Activated(s), url) ==
      if CacheName in s.buckets && url in s.buckets[CacheName] then Some(s.buckets[CacheName][url]) else None
  {
    var a := Activated(s);
    if CacheName in s.buckets {
      assert a.names == [CacheName] && a.names[1..] == [];
      if url !in s.buckets[CacheName] {
        assert Lookup(a, url) == LookupIn(a.names[1..], a.buckets, url);
      }
    } else {
      assert a.names == [];
    }
  }

  // ---------------------------------------------------------------------------------------
  // Messages

  /**
   * The message handler: the three type tests are independent `if`s; a missing message or one
   * of any other type does nothing.
   */
  method HandleMessage(caches: Caches, msgType: Option<string>) returns (events: seq<Event>)
    requires caches.Valid()
    modifies caches
    ensures caches.Valid()
    ensures msgType == Some("SKIP_WAITING") ==> events == [SkipWaiting]
    ensures msgType == Some("GET_VERSION") ==> events == [PostReply(VersionReply(CacheName))]
    ensures msgType == Some("CLEAR_CACHE") ==> events == [PostReply(ClearReply(true))] && caches.State() == Empty
    ensures msgType != Some("CLEAR_CACHE") ==> caches.State() == old(caches.State())
    ensures msgType !in {Some("SKIP_WAITING"), Some("GET_VERSION"), Some("CLEAR_CACHE")} ==> events == []
  {
    events := [];
    if msgType == Some("SKIP_WAITING") {
      events := events + [SkipWaiting];
    }
    if msgType == Some("GET_VERSION") {
      events := events + [PostReply(VersionReply(CacheName))];
    }
    if msgType == Some("CLEAR_CACHE") {
      ClearAll(caches);
      events := events + [PostReply(ClearReply(true))];
    }
  }

  // ---------------------------------------------------------------------------------------
  // Fetch

  /** The destination the browser gives a request; "" and every kind not listed are Other. */
  datatype Destination = Document | Style | Script | Font | Image | Other

  datatype Request = Request(verb: string, url: Url, destination: Destination)

  /** What the fetch handler does with one request. */
  datatype FetchOutcome =
    | NotIntercepted             // no respondWith: the browser handles the request itself
    | Respond(response: Response)
    | RespondUndefined           // respondWith's promise resolves with undefined: a network error for the page
    | RespondRejected            // respondWith's promise rejects: a network error for the page

  datatype FetchStep = FetchStep(outcome: FetchOutcome, store: Storage)

  /** The placeholders built with `new Response(body, {headers})`, whose status defaults to 200. */
  const FallbackCss: Response := Response(200, "text/css", "/* Fallback CSS */")
  const FallbackJs: Response := Response(200, "application/javascript", "// Fallback JS")
  const OfflineImage: Response := Response(200, "image/svg+xml",
    "<svg xmlns=\"http://www.w3.org/2000/svg\" width=\"200\" height=\"200\" viewBox=\"0 0 200 200\">"
    + "<rect width=\"200\" height=\"200\" fill=\"#f0f0f0\"/>"
    + "<text x=\"100\" y=\"100\" text-anchor=\"middle\" fill=\"#999\">Offline</text></svg>")

  /** The style/script branch's catch: a placeholder of the request's kind. */
  function StyleScriptFallback(d: Destination): FetchOutcome
  {
    if d == Style then Respond(FallbackCss)
    else if d == Script then Respond(FallbackJs)
    else RespondUndefined
  }

  /** The last branch's catch: a placeholder for images only. */
  function ImageFallback(d: Destination): FetchOutcome
  {
    if d == Image then Respond(OfflineImage) else RespondUndefined
  }

  /** The miss path's write: a status-200 response goes into the current bucket under the URL. */
  function Remember(s: Storage, url: Url, resp: Response): Storage
    requires WellFormed(s)
  {
    if resp.status == 200 then PutEntry(Opened(s, CacheName), CacheName, url, resp) else s
  }

  /** Cache first by request URL; on a miss fetch, remember, and answer; onFailure when fetch rejects. */
  function CacheFirst(s: Storage, url: Url, net: Network, onFailure: FetchOutcome): FetchStep
    requires WellFormed(s)
  {
    match Lookup(s, url)
      case Some(hit) => FetchStep(Respond(hit), s)
      case None =>
        match net(url)
          case Some(resp) => FetchStep(Respond(resp), Remember(s, url, resp))
          case None => FetchStep(onFailure, s)
  }

  /**
   * The fetch handler. Only a status-200 response fetched on a miss is ever written, into
   * the current bucket, under the request URL, and it is also the answer.
   */
  function Fetched(s: Storage, req: Request, net: Network): (r: FetchStep)
    requires WellFormed(s)
    ensures WellFormed(r.store)
    ensures r.outcome == NotIntercepted <==> req.verb != "GET"
    ensures req.verb != "GET" ==> r.store == s
    ensures r.store != s ==>
      && Lookup(s, req.url).None?
      && r.outcome.Respond? && r.outcome.response.status == 200
      && r.store == PutEntry(Opened(s, CacheName), CacheName, req.url, r.outcome.response)
  {
    if req.verb != "GET" then FetchStep(NotIntercepted, s)
    else match req.destination
      case Document =>
        (match Lookup(s, Shell)
          case Some(shell) => FetchStep(Respond(shell), s)
          case None =>
            match net(req.url)
              case Some(resp) => FetchStep(Respond(resp), s)
              case None =>
                // the catch looks the shell up again, in the same store
                match Lookup(s, Shell)
                  case Some(shell) => FetchStep(Respond(shell), s)
                  case None => FetchStep(RespondUndefined, s))
      case Style => CacheFirst(s, req.url, net, StyleScriptFallback(req.destination))
      case Script => CacheFirst(s, req.url, net, StyleScriptFallback(req.destination))
      case Font => CacheFirst(s, req.url, net, RespondRejected)
      case _ => CacheFirst(s, req.url, net, ImageFallback(req.destination))
  }

  method HandleFetch(caches: Caches, req: Request, net: Network) returns (outcome: FetchOutcome)
    requires caches.Valid()
    modifies caches
    ensures caches.Valid()
    ensures FetchStep(outcome, caches.State()) == Fetched(old(caches.State()), req, net)
  {
    if req.verb != "GET" {
      return NotIntercepted;
    }
    if req.destination == Document {
      var shell := caches.Match(Shell);
      if shell.Some? {
        return Respond(shell.value);
      }
      var resp := net(req.url);
      if resp.Some? {
        return Respond(resp.value);
      }
      shell := caches.Match(Shell);
      return match shell case Some(cached) => Respond(cached) case None => RespondUndefined;
    }
    var hit := caches.Match(req.url);
    if hit.Some? {
      return Respond(hit.value);
    }
    var resp := net(req.url);
    if resp.None? {
      return match req.destination
        case Style => StyleScriptFallback(req.destination)
        case Script => StyleScriptFallback(req.destination)
        case Font => RespondRejected
        case _ => ImageFallback(req.destination);
    }
    if resp.value.status == 200 {
      caches.Open(CacheName);
      caches.Put(CacheName, req.url, resp.value);
    }
    return Respond(resp.value);
  }

  /**
   * A navigation is answered with the cached shell whenever there is one, whatever URL was
   * asked for; otherwise with the network's answer for the URL itself. It never writes.
   */
  lemma {:induction false} NavigationServesShell(s: Storage, req: Request, net: Network)
    requires WellFormed(s) && req.verb == "GET" && req.destination == Document
    ensures Fetched(s, req, net).store == s
    ensures Lookup(s, Shell).Some? ==> Fetched(s, req, net).outcome == Respond(Lookup(s, Shell).value)
    ensures Lookup(s, Shell).None? && net(req.url).Some? ==> Fetched(s, req, net).outcome == Respond(net(req.url).value)
    ensures Lookup(s, Shell).None? && net(req.url).None? ==> Fetched(s, req, net).outcome == RespondUndefined
  {
  }

  /** A cached sub-resource is answered from the cache, whatever the network would say. */
  lemma {:induction false} CacheHitServed(s: Storage, req: Request, net: Network)
    requires WellFormed(s) && req.verb == "GET" && req.destination != Document
    requires Lookup(s, req.url).Some?
    ensures Fetched(s, req, net) == FetchStep(Respond(Lookup(s, req.url).value), s)
  {
  }

  /**
   * On a miss every fetched response is the answer; a status-200 one is then what the store
   * holds for the URL, any other status leaves the store as it was.
   */
  lemma {:induction false} CacheMissFetched(s: Storage, req: Request, net: Network)
    requires WellFormed(s) && req.verb == "GET" && req.destination != Document
    requires Lookup(s, req.url).None? && net(req.url).Some?
    ensures Fetched(s, req, net).outcome == Respond(net(req.url).value)
    ensures net(req.url).value.status == 200 ==>
      Lookup(Fetched(s, req, net).store, req.url) == net(req.url)
      && net(req.url) == Some(Fetched(s, req, net).store.buckets[CacheName][req.url])
    ensures net(req.url).value.status != 200 ==> Fetched(s, req, net).store == s
  {
    var resp := net(req.url).value;
    if resp.status == 200 {
      StoredIsFound(s, req.url, resp);
    }
  }

  /** After a miss writes resp, the URL is held by the current bucket alone, so lookup finds resp. */
  lemma {:induction false} StoredIsFound(s: Storage, url: Url, resp: Response)
    requires WellFormed(s) && Lookup(s, url).None?
    ensures Lookup(PutEntry(Opened(s, CacheName), CacheName, url, resp), url) == Some(resp)
  {
    var s1 := PutEntry(Opened(s, CacheName), CacheName, url, resp);
    LookupMiss(s, url);
    LookupOnlyHolder(s1, url, CacheName);
  }

  /** When the network fails on a miss the store is unchanged and the answer depends on the kind. */
  lemma {:induction false} OfflineMiss(s: Storage, req: Request, net: Network)
    requires WellFormed(s) && req.verb == "GET" && req.destination != Document
    requires Lookup(s, req.url).None? && net(req.url).None?
    ensures Fetched(s, req, net).store == s
    ensures req.destination == Style ==> Fetched(s, req, net).outcome == Respond(FallbackCss)
    ensures req.destination == Script ==> Fetched(s, req, net).outcome == Respond(FallbackJs)
    ensures req.destination == Image ==> Fetched(s, req, net).outcome == Respond(OfflineImage)
    ensures req.destination == Font ==> Fetched(s, req, net).outcome == RespondRejected
    ensures req.destination == Other ==> Fetched(s, req, net).outcome == RespondUndefined
  {
  }

  /** A sub-resource stored by one fetch is served from the cache by the next, with no network. */
  lemma {:induction false} SecondFetchHits(s: Storage, req: Request, net: Network, later: Network)
    requires WellFormed(s) && req.verb == "GET" && req.destination != Document
    requires Lookup(s, req.url).None? && net(req.url).Some? && net(req.url).value.status == 200
    ensures var s1 := Fetched(s, req, net).store;
      Fetched(s1, req, later) == FetchStep(Respond(net(req.url).value), s1)
  {
    StoredIsFound(s, req.url, net(req.url).value);
  }

  /**
   * Once install has succeeded and activate has run, every manifest resource requested as a
   * sub-resource, and every navigation, is answered from the cache with no network at all.
   */
  lemma {:induction false} InstalledWorksOffline(s: Storage, net: Network, req: Request, offline: Network)
    requires WellFormed(s) && AllStorable(Manifest, net)
    requires req.verb == "GET" && (req.destination == Document || req.url in Manifest)
    ensures var active := Activated(Installing(s, net).store);
      && Fetched(active, req, offline).store == active
      && Fetched(active, req, offline).outcome ==
           Respond((if req.destination == Document then net(Shell) else net(req.url)).value)
  {
    var installed := Installing(s, net).store;
    var active := Activated(installed);
    assert Shell in Manifest;
    ActivatedLookup(installed, Shell);
    ActivatedLookup(installed, req.url);
  }

  // ---------------------------------------------------------------------------------------
  // Push and notification click

  /** The parts of the notification that a push can change. */
  datatype Notification = Notification(title: string, body: string, url: Url)

  const DefaultNotification: Notification :=
    Notification("CastelaSoft", "Nueva actualización disponible", AppRoot)

  /** What `JSON.parse` of the payload produced; only string fields are modelled. */
  datatype Json =
    | JsonObject(title: Option<string>, body: Option<string>, url: Option<string>)
    | JsonNull     // reading a field of null throws
    | JsonOther    // any other primitive: every field read is undefined

  /** The push payload: none, or its text and the parse of that text (None when it is not JSON). */
  datatype PushData = NoData | Payload(text: string, json: Option<Json>)

  /** A string field is truthy when present and non-empty. */
  predicate Truthy(field: Option<string>)
  {
    field.Some? && field.value != ""
  }

  /** The push handler's merge: fields are overwritten one by one, as the handler does. */
  function PushNotification(data: PushData): (n: Notification)
    ensures n.title != DefaultNotification.title ==>
      data.Payload? && data.json.Some? && data.json.value.JsonObject? && data.json.value.title == Some(n.title)
    ensures n.url != AppRoot ==>
      data.Payload? && data.json.Some? && data.json.value.JsonObject? && data.json.value.url == Some(n.url)
    ensures n.body != DefaultNotification.body ==>
      data.Payload? &&
      (n.body == data.text || (data.json.Some? && data.json.value.JsonObject? && data.json.value.body == Some(n.body)))
  {
    var n := DefaultNotification;
    match data
      case NoData => n
      case Payload(text, json) =>
        match json
          case None => n.(body := text)        // parse failure: the raw text becomes the body
          case Some(JsonNull) => n.(body := text)
          case Some(JsonOther) => n
          case Some(JsonObject(title, body, url)) =>
            var n := if Truthy(title) then n.(title := title.value) else n;
            var n := if Truthy(body) then n.(body := body.value) else n;
            if Truthy(url) then n.(url := url.value) else n
  }

  /**
   * Without a JSON object nothing is overridden from fields: no payload and a JSON primitive
   * keep every default, while a payload that is not JSON, or is `null` (whose field read
   * throws into the same catch), becomes the body as raw text.
   */
  lemma {:induction false} PushWithoutObject(text: string)
    ensures PushNotification(NoData) == DefaultNotification
    ensures PushNotification(Payload(text, None)) == DefaultNotification.(body := text)
    ensures PushNotification(Payload(text, Some(JsonNull))) == DefaultNotification.(body := text)
    ensures PushNotification(Payload(text, Some(JsonOther))) == DefaultNotification
  {
  }

  /** A JSON object overrides exactly the fields it gives a non-empty string, and keeps the rest. */
  lemma {:induction false} PushOverrides(text: string, title: Option<string>, body: Option<string>, url: Option<string>)
    ensures var n := PushNotification(Payload(text, Some(JsonObject(title, body, url))));
      && (n.title == if Truthy(title) then title.value else DefaultNotification.title)
      && (n.body == if Truthy(body) then body.value else DefaultNotification.body)
      && (n.url == if Truthy(url) then url.value else AppRoot)
  {
  }

  /** The window a click opens, if any; the notification is closed in every case. */
  function ClickTarget(action: string, n: Notification): (target: Option<Url>)
    ensures target.None? <==> action == "close"
    ensures action == "explore" && n.url != "" ==> target == Some(n.url)
    ensures target.Some? && target.value != AppRoot ==> action == "explore" && target.value == n.url
  {
    if action == "explore" then Some(if n.url != "" then n.url else AppRoot)
    else if action == "close" then None
    else Some(AppRoot)
  }

  /**
   * Following a push, "explore" opens the payload's URL when it gave a non-empty one and the
   * app root otherwise; any action other than "explore" and "close" opens the app root,
   * whatever the payload said.
   */
  lemma {:induction false} ClickAfterPush(data: PushData, action: string)
    ensures action == "explore" ==>
      ClickTarget(action, PushNotification(data)) ==
        Some(if data.Payload? && data.json.Some? && data.json.value.JsonObject? && Truthy(data.json.value.url)
             then data.json.value.url.value else AppRoot)
    ensures action != "explore" && action != "close" ==> ClickTarget(action, PushNotification(data)) == Some(AppRoot)
  {
  }
}
