# CastelaSoft landing page: offline caching and page state, in Dafny

This project models the logic of the CastelaSoft landing page. That page is a static marketing
site that installs as an app.

The service worker (`sw.js`) is the only part with real decisions:
- install stores a fixed nine-URL manifest in the bucket named `castelasoft-v1.1.0`;
- activate deletes every other bucket;
- every GET request is routed by its destination: navigations get the cached app shell
  `./index.html`; styles, scripts, fonts and everything else are served cache-first, and a
  status-200 response fetched on a miss is stored; when the network fails, styles, scripts and
  images get offline placeholders;
- the message channel answers `SKIP_WAITING`, `GET_VERSION` and `CLEAR_CACHE`;
- a push payload is merged into the default notification, and a click on the notification
  opens a window chosen by the action.

The page script (`script.js`) contributes five small stateful or pure pieces:
- the contact form's all-fields-required check;
- the offline message queue, appended to while offline and flushed on the `online` event;
- the deferred install prompt;
- the digit extraction that decides whether a statistic's counter starts;
- the help chatbot's topic answers and its reset loop.

## Structure

- `wrappers.dfy`: module `Wrappers`, the `Option` type.
- `cache_storage.dfy`: module `CacheStorage`, the browser's cache storage:
  - bucket names are kept in creation order, next to a map from name to bucket;
  - a bucket maps a request URL to a response (status, content type, body);
  - lookups search every bucket in creation order (section 5.5 of the W3C Service Workers
    specification), while writes name one bucket;
  - `addAll` is all-or-nothing and accepts only ok, non-206 responses (section 5.4 of the
    same specification).

  Pure functions on the `Storage` value are the specification. The class `Caches` is the
  store updated in place; each of its methods is tied to one of those functions.
- `service_worker.dfy`: module `ServiceWorker`:
  - each handler that changes the store (`Install`, `Activate`, `HandleMessage`,
    `HandleFetch`) is a module-level method that takes the `Caches` object and updates it in
    place; it is specified by a pure transition function (`Installing`, `Activated`,
    `Fetched`);
  - push merging and click routing are pure functions;
  - calls made only for their effect (`skipWaiting`, `clients.claim`, `postMessage`) are
    returned as `Event`s;
  - the network is a function from URL to an optional response, where `None` means `fetch`
    rejects.
- `page_script.dfy`: module `PageScript`, a class `Page` holding the form values, the queued
  messages, the saved install event, whether the install banner is shown, and the last toast.
- `stats.dfy`: module `Stats`, digit extraction, parsing and decimal rendering.
- `chatbot.dfy`: module `Chatbot`, the topic answers and a class `ChatWidget` over the chat
  body's children.

Three behaviours of the code worth noting:
- A failed install does not leave the store untouched. `caches.open` has already created the
  current bucket, so an empty bucket with the current name may remain (sw.js:18-21).
- A failed install is not a failed install event. The rejection of `addAll` is caught and
  logged (sw.js:27-29), so the install step completes; only `skipWaiting` is skipped.
- Deleting a bucket never fails in the model, so what a failed `caches.delete` would do to
  activation is not shown.

## Model

| member | source | states |
|---|---|---|
| `CacheStorage.Lookup` | sw.js:78 | definition of `caches.match` over the whole store; specified by the `Caches.Match`, `LookupInFirst`, `LookupMiss`, `LookupInSound` and `LookupOnlyHolder` rows |
| `CacheStorage.Caches.Match` | sw.js:78 | the loop over buckets in creation order returns exactly `Lookup`: the entry of the first bucket that holds the URL |
| `CacheStorage.LookupMiss` | sw.js:67 | on a well-formed store a lookup misses exactly when no bucket at all holds the URL |
| `CacheStorage.LookupInFirst` | sw.js:112 | the lookup answers from the first bucket in creation order that holds the URL |
| `CacheStorage.LookupInSound` | sw.js:130 | whatever a lookup returns is stored under that URL in some bucket |
| `CacheStorage.LookupOnlyHolder` | sw.js:78 | when a single bucket holds the URL, the lookup returns that bucket's entry |
| `CacheStorage.Opened` | sw.js:18 | `caches.open` makes the named bucket exist (empty if it was new) and changes no existing bucket |
| `CacheStorage.OpenedLookup` | sw.js:87-88 | opening a bucket never changes what any lookup finds |
| `CacheStorage.PutEntry` | sw.js:89 | `cache.put` adds or replaces one entry of one bucket; every other entry and bucket is unchanged |
| `CacheStorage.Deleted` | sw.js:42 | `caches.delete` removes that bucket and its name; the others keep their contents |
| `CacheStorage.Storable` | sw.js:21 | definition of the responses `addAll` accepts: an ok status (200-299) other than 206; used by the `FetchAll` and `Installing` rows |
| `CacheStorage.FetchAll` | sw.js:21 | the `addAll` batch exists iff every URL fetches with an ok, non-206 status; it then holds exactly those URLs with the fetched responses |
| `CacheStorage.AddBatch` | sw.js:21 | `addAll` adds every URL with its response, or leaves the store exactly as it was; other buckets are untouched |
| `CacheStorage.AddBatchIdempotent` | sw.js:21 | adding the same batch twice gives the same store as adding it once |
| `CacheStorage.Caches.Open` | sw.js:18 | the store after the call is `Opened` of the store before |
| `CacheStorage.Caches.Put` | sw.js:87-89 | the store after the call is `PutEntry` of the store before |
| `CacheStorage.Caches.Delete` | sw.js:42 | the store after the call is `Deleted` of the store before, and the answer says whether the bucket existed |
| `CacheStorage.Caches.AddAll` | sw.js:21 | the store after the call is `AddBatch` of the store before, and the answer is true iff the whole manifest was storable |
| `ServiceWorker.Installing` | sw.js:15-31 | skipWaiting iff every manifest URL fetched with a storable response; then every manifest URL is in the current bucket with its response; otherwise the current bucket is exactly what it was (or empty if new); other buckets are untouched |
| `ServiceWorker.Install` | sw.js:15-31 | the new store is `Installing`'s, and the only event is `SkipWaiting`, emitted exactly on success; no error escapes |
| `ServiceWorker.InstallIdempotent` | sw.js:17-22 | installing twice against the same network gives the same store as installing once |
| `ServiceWorker.Activated` | sw.js:37-45 | the surviving bucket names are the old names intersected with {the current name}, and the current bucket's contents are untouched |
| `ServiceWorker.Activate` | sw.js:34-51 | the loop deletes each stale bucket by name and leaves `Activated` of the old store; then the one event is `ClaimClients` |
| `ServiceWorker.PurgingStep` | sw.js:39-44 | one pass of the deletion loop deletes the visited name unless it is the kept one |
| `ServiceWorker.ActivatedLookup` | sw.js:37-45 | after activation every lookup is answered by the current bucket alone |
| `ServiceWorker.ClearAll` | sw.js:254-259 | deleting every listed name leaves no bucket at all |
| `ServiceWorker.HandleMessage` | sw.js:241-265 | `SKIP_WAITING` emits skipWaiting; `GET_VERSION` replies with `castelasoft-v1.1.0`; `CLEAR_CACHE` empties the store and then replies success; any other or missing message does nothing and the store changes only for `CLEAR_CACHE` |
| `ServiceWorker.StyleScriptFallback` | sw.js:94-106 | definition of the style/script catch; specified by the `OfflineMiss` row |
| `ServiceWorker.ImageFallback` | sw.js:143-151 | definition of the last branch's catch; specified by the `OfflineMiss` row |
| `ServiceWorker.Remember` | sw.js:84-91 | definition of the miss path's write; specified by the `Fetched`, `CacheMissFetched` and `StoredIsFound` rows |
| `ServiceWorker.CacheFirst` | sw.js:77-153 | definition of the cache-first routine the style, script, font and other branches share; specified by the `CacheHitServed`, `CacheMissFetched`, `OfflineMiss` and `SecondFetchHits` rows |
| `ServiceWorker.Fetched` | sw.js:54-155 | a request is left to the browser iff it is not GET, and then nothing changes; the store changes only after a lookup miss, and then exactly by putting the returned status-200 response into the current bucket under the request URL |
| `ServiceWorker.HandleFetch` | sw.js:54-155 | the answer and the new store are exactly those of `Fetched` |
| `ServiceWorker.NavigationServesShell` | sw.js:64-74 | a navigation gets the cached `./index.html` whenever there is one, whatever URL was asked for; otherwise the network's answer for the original request, or undefined; it never writes |
| `ServiceWorker.CacheHitServed` | sw.js:77-82 | a cached style, script, font or other resource is returned from the cache whatever the network says, and the store is unchanged |
| `ServiceWorker.CacheMissFetched` | sw.js:83-93 | on a miss the fetched response is returned whatever its status; a 200 one is then what the store holds for the URL, any other leaves the store unchanged |
| `ServiceWorker.StoredIsFound` | sw.js:87-89 | after a miss writes a response, a lookup of the URL finds exactly that response |
| `ServiceWorker.OfflineMiss` | sw.js:94-151 | with no network on a miss, style gets the `text/css` fallback, script the `application/javascript` one, image the `image/svg+xml` placeholder, font a rejection and other kinds undefined; the store is unchanged |
| `ServiceWorker.SecondFetchHits` | sw.js:77-93 | a resource stored by one fetch is served from the cache by the next one, with any network |
| `ServiceWorker.InstalledWorksOffline` | sw.js:17-155 | after a successful install and an activation, every navigation and every manifest resource is answered from the cache with no network, and nothing is written |
| `ServiceWorker.PushNotification` | sw.js:174-212 | the title and URL differ from the defaults only when a JSON object gave them; the body differs only when it is the raw text (unparseable or null payload) or a JSON object's body |
| `ServiceWorker.PushWithoutObject` | sw.js:202-211 | no payload and a JSON primitive keep every default; a payload that is not JSON or is `null` (its field read throws into the same catch) keeps the defaults but takes the raw text as the body |
| `ServiceWorker.PushOverrides` | sw.js:202-211 | a JSON object overrides exactly the fields it gives a non-empty string and keeps the defaults for the others |
| `ServiceWorker.ClickTarget` | sw.js:225-237 | nothing is opened iff the action is `close`; `explore` opens the notification's URL when it is non-empty; a window other than `./` is opened only for `explore`, and it is the notification's URL |
| `ServiceWorker.ClickAfterPush` | sw.js:205-236 | after a push, `explore` opens the payload's non-empty URL or `./`; every other action except `close` opens `./` whatever the payload said |
| `PageScript.Complete` | script.js:260 | definition of the all-fields check (every field non-empty); specified by the `Page.Submit` row |
| `PageScript.Page.Submit` | script.js:249-276 | with any field empty, only the error toast is shown: nothing is queued and the form is not reset; a complete form is reset; online it leaves the queue alone, offline it appends exactly one stamped record |
| `PageScript.Page.StoreOfflineMessage` | script.js:281-288 | the queue becomes the old queue followed by the one new record |
| `PageScript.Page.OnOnline` | script.js:291-303 | the messages sent are exactly the old queue, in order; the queue is then empty; a toast counting them appears iff there were any |
| `PageScript.Page.ShowNotification` | script.js:149-161 | the toast shows the given text and kind |
| `PageScript.Page.OnBeforeInstallPrompt` | script.js:81-85 | the event is kept and the banner shown |
| `PageScript.Page.HideInstallPrompt` | script.js:119-125 | the banner is hidden |
| `PageScript.Page.OnAppInstalled` | script.js:88-92 | the banner is hidden and the kept event dropped |
| `PageScript.Page.InstallApp` | script.js:127-135 | the banner is always hidden; the prompt is shown iff an event was kept, and afterwards none is |
| `PageScript.Page.DownloadApp` | script.js:141-147 | the install path is taken iff an event was kept; otherwise the install hint toast is shown and the banner stays as it was |
| `Stats.DigitsOnly` | script.js:227 | the extraction yields only digit characters and is no longer than the text |
| `Stats.DigitsOnlyConcat` | script.js:227 | the digits of a concatenation are the digits of each part, in order |
| `Stats.DigitsOnlyOfDigits` | script.js:227 | a string of digits is kept whole |
| `Stats.DigitsOnlyOfNonDigits` | script.js:227 | a string without digits yields the empty string |
| `Stats.DigitsOnlyNonZero` | script.js:227 | extraction neither adds nor drops a digit other than 0 |
| `Stats.Value` | script.js:227 | definition of the decimal value of a digit string; specified by the `ValueZero` and `ValueOfDecimal` rows |
| `Stats.ParseDigits` | script.js:227 | definition of `parseInt` on the extracted digits, with NaN as none for the empty string; specified by the `CounterTarget` and `CounterStartsIff` rows |
| `Stats.ValueZero` | script.js:227-228 | a digit string parses to 0 exactly when it has no digit other than 0 |
| `Stats.CounterTarget` | script.js:226-230 | a counter target, when there is one, is positive |
| `Stats.CounterStartsIff` | script.js:226-230 | a counter starts exactly when the stat's text contains a digit other than 0 |
| `Stats.Decimal` | script.js:301 | the decimal rendering of a count is a non-empty string of digits with no leading zero unless the count is 0 |
| `Stats.ValueOfDecimal` | script.js:227 | parsing the decimal rendering of n gives n back |
| `Stats.CounterOfRendered` | script.js:226-230 | a stat written as a positive number followed by text without digits animates to exactly that number |
| `Chatbot.OptionMessage` | script.js:476-502 | the answer is non-empty exactly for `login`, `solicitud`, `estado` and `soporte` |
| `Chatbot.ChatWidget.HandleOption` | script.js:476-527 | the topic's answer (empty for an unknown key) and a back-to-menu row are appended in that order, and the options are hidden |
| `Chatbot.ChatWidget.ResetChat` | script.js:528-534 | children are removed from the end until at most two remain; what remains is the old first children in order; the options are shown |
| `Chatbot.ChatWidget.ChooseThenBack` | script.js:515-534 | choosing a topic and pressing back leaves the first two children of the extended body |

## Left out

- Promise scheduling and the detached `cache.put` (sw.js:87-90): the write happens in the
  same sequential step as the answer. Races between concurrent requests are not modelled.
- Response bodies as single-use streams and the `clone()` before caching: responses are values.
- URL resolution: URLs are compared as strings, and relative manifest entries are taken as
  already resolved. Vary headers and match options are not modelled.
- A cache lookup, open or delete that throws. The navigation branch's `.catch` is modelled
  only for a rejected network fetch, so its second shell lookup always misses.
- `addAll`'s rejection of a request list with duplicate URLs. The manifest has none.
- The `sync` handler (sw.js:158-168), the `appinstalled` and `appupdatefound` logging
  handlers, and all console logging.
- The notification's fixed options (icon, badge, vibration pattern, actions, `dateOfArrival`).
- The unconditional `event.notification.close()` on a click.
- A message whose reply port is missing.
- ServiceWorker.PushNotification: only string-valued JSON fields are modelled. A number or
  boolean field would be stored as that value, not as text.
- Stats.CounterTarget: `parseInt` is exact here. The source's floating-point result loses
  precision beyond 2^53.
- `animateCounter`, scrolling, parallax, ripple, hover and intersection-observer effects.
  These rely on layout, timers and floating point.
- Service worker registration, the online/offline indicator, the navigation menu, `showDemo`
  and the page-side `clearCache` (script.js:430-442, the same deletion loop as `ClearAll`).
- JSON and local-storage serialisation of the queue, and the `Date` timestamps. A timestamp
  is a parameter.
- Awaiting the install prompt's `userChoice`: the saved event is dropped right after the prompt.
- Chat scrolling and HTML rendering of the answers.
