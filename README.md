# AsyncImageView request queue, modelled in Dafny

This project models the loading core of the Swift library AsyncImageView, in
`AsyncImageView/AsyncImageView.swift`:

- `AsyncImageConnection` is one load request for one URL. It has two flags,
  `loading` and `cancelled`, a fetch handle and a byte buffer. Its
  transitions are `start`, `cancel`, the three connection callbacks,
  `processDataInBackground`, `cacheImage` and `loadFailedWithError`. A
  transition may write the finished image to the shared image cache, and may
  post one "finished" or one "failed" notification. A finished, not-cancelled
  `cacheImage` does both; a cancelled request does neither.
- `AsyncImageLoader` owns the ordered array `connections` and edits it in
  place:
  - `loadImageWithURL` inserts a new request in front of the first entry
    that is not loading.
  - `updateQueue` is one admission pass that starts idle requests, with at
    most `concurrentLoads = 2` fetches per pass.
  - `imageLoaded`, `imageFailed` and the three `cancelLoadingURL` overloads
    cancel and remove matching entries, scanning backwards.
  - The two `cancelLoadingImages` overloads cancel without removing.
  - The two `URLForTarget` overloads return the last matching entry's URL.

## Layout

The code is split into five modules:

- `image_types.dfy` (module `ImageTypes`) holds the value types:
  - URLs, images, errors and notifications;
  - a `Platform` value for the library calls the code makes but does not
    implement: image decoding, the redraw, `UIImage(named:)` and the bundle's
    resource path;
  - the bundle-or-cache lookup of `cachedImage` and the `storeInCache`
    decision;
  - the shared cache (`ImageCache`, a class over a `map`);
  - the notification log (`NotificationCenter`, a class whose `posted`
    sequence grows by one per notification).
- `request_state.dfy` (module `RequestState`) gives a request's mutable fields
  as a value, `ConnState`, and each transition as a function on that value.
  The transitions that touch the cache or post return an `Outcome`: the new
  state, the cache write and the notifications posted.
- `connection.dfy` (module `Connections`) is the class
  `AsyncImageConnection`. Its fields are updated step by step, and each method
  is proved to have exactly the effect the matching `RequestState` function
  describes.
- `queue_model.dfy` (module `QueueModel`) describes the queue operations as
  values:
  - the match predicates;
  - `Keep`, what a removal scan leaves;
  - `FirstIdle`, where an insertion goes;
  - `LastMatch`, what a reverse lookup finds;
  - `Plan` and `PassStates`, what one admission pass starts.
  It also proves their properties: order preservation, exact-match removal,
  the per-pass bound, and fetches started in queue order.
- `loader.dfy` (module `Loader`) is the class `AsyncImageLoader`, with
  `connections` a `seq` that its methods reassign and the loops of the source
  as `while` loops. Each method is proved against the `QueueModel` functions.

Several calls are not modelled as concurrency:

- The `dispatch_sync` in `processDataInBackground` is a synchronous step.
- The `dispatch_async` of a cached image in `start` becomes an entry in the
  request's `scheduled` sequence. `RunScheduledDelivery` later runs it.
- Posting a notification appends it to the log. A caller hands the logged
  notification to `ImageLoaded` or `ImageFailed`, in place of the observer
  registration.

## Model

| member | source | states |
|---|---|---|
| ImageTypes.ResolveImage | AsyncImageView/AsyncImageView.swift:69-80 | a URL whose path starts with the bundle's resource path always yields the bundled image; any other URL yields an image exactly when the cache holds it, and then yields that entry |
| ImageTypes.StoreInCache | AsyncImageView/AsyncImageView.swift:97-102 | the intended store decision, the one every operation uses: every URL except a bundled resource; it stores every URL the test as written stores, and everything when the resource path is empty |
| ImageTypes.StoreInCacheAsWritten | AsyncImageView/AsyncImageView.swift:97-102 | the store decision as the code writes it: it stores only URLs no resource path could claim as bundled; no operation uses it |
| RequestState.StoredImageIsFound | AsyncImageView/AsyncImageView.swift:96-105 | the write `cacheImage` makes with the intended store test is what the next lookup of the URL finds, and for a bundled resource it leaves the cache as it was |
| RequestState.StoreInCacheAsWrittenMissesNetworkImage | AsyncImageView/AsyncImageView.swift:98-101 | with the test as written, an ordinary web image (`/a.png`) is not stored and the next lookup misses, while the write `cacheImage` makes stores it |
| ImageTypes.ImageCache.constructor | AsyncImageView/AsyncImageView.swift:222-225 | the shared cache starts empty |
| ImageTypes.ImageCache.SetObject | AsyncImageView/AsyncImageView.swift:104 | the cache maps the key to the image, other entries unchanged |
| ImageTypes.ImageCache.RemoveAllObjects | AsyncImageView/AsyncImageView.swift:226-228 | the memory-warning handler leaves the cache empty |
| ImageTypes.NotificationCenter.Post | AsyncImageView/AsyncImageView.swift:115 | the log grows by exactly the posted notification |
| RequestState.StartStep | AsyncImageView/AsyncImageView.swift:167-194 | a request loading and not cancelled is left as it is; any other ends loading and not cancelled, with either the found image's delivery scheduled or a fetch issued; the buffer is untouched |
| RequestState.StartIsIdempotent | AsyncImageView/AsyncImageView.swift:167-170 | starting a request twice is the same as starting it once |
| RequestState.CancelStep | AsyncImageView/AsyncImageView.swift:196-201 | cancel sets `cancelled`, drops the fetch and the buffer, and leaves `loading` and scheduled deliveries unchanged |
| RequestState.ResponseStep | AsyncImageView/AsyncImageView.swift:145-147 | a response replaces the buffer by an empty one and changes nothing else |
| RequestState.ChunkStep | AsyncImageView/AsyncImageView.swift:149-151 | a chunk is appended to an existing buffer; with no buffer it is dropped; nothing else changes |
| RequestState.ReceiveAllAppends | AsyncImageView/AsyncImageView.swift:149-151 | a run of chunks appends their concatenation, in arrival order, to an existing buffer, and changes nothing else |
| RequestState.ResponseThenChunks | AsyncImageView/AsyncImageView.swift:145-151 | after a response, the buffer is exactly the chunks received since, in order |
| RequestState.ChunksWithoutBufferDropped | AsyncImageView/AsyncImageView.swift:149-151 | chunks arriving before any response leave the request unchanged |
| RequestState.CacheImageOutcome | AsyncImageView/AsyncImageView.swift:94-120 | a cancelled request writes nothing, posts nothing and clears both flags; any other clears `loading` and posts exactly one finished notification with its URL and image; the cache is written exactly when the request has a URL and a cache and `StoreInCache` holds, with that image under that URL |
| RequestState.FailOutcome | AsyncImageView/AsyncImageView.swift:86-92 | both flags cleared, no cache write, exactly one failed notification with the URL and the error |
| RequestState.ProcessOutcome | AsyncImageView/AsyncImageView.swift:122-143 | a cancelled request posts nothing and writes nothing; bytes that do not decode post one failure with the "Invalid image data" error and write nothing; bytes that decode post one finished notification with the redrawn image and write that image under the URL when the request has a URL and a cache and `StoreInCache` holds; both flags end cleared and the fetch, buffer and scheduled deliveries are unchanged |
| RequestState.FinishLoadingOutcome | AsyncImageView/AsyncImageView.swift:153-159 | the fetch and the buffer are dropped and the scheduled deliveries kept; without a buffer nothing else happens; with one, both flags end cleared and a cancelled request posts and writes nothing, undecodable bytes post the "Invalid image data" failure with no write, and decodable bytes post the finished notification with the redrawn image and make the cache write `processDataInBackground` makes |
| RequestState.FailWithErrorOutcome | AsyncImageView/AsyncImageView.swift:161-165 | fetch and buffer dropped, scheduled deliveries kept, both flags cleared, one failed notification with the transport's error, no cache write |
| RequestState.CancelledCompletionDiscarded | AsyncImageView/AsyncImageView.swift:122-143 | a completion that arrives after `cancel` writes nothing, posts nothing and consumes the cancellation, whatever the bytes |
| Connections.AsyncImageConnection.constructor | AsyncImageView/AsyncImageView.swift:59-67 | the identity fields are the arguments, and the request is idle, not cancelled, with no fetch and no buffer |
| Connections.AsyncImageConnection.CachedImage | AsyncImageView/AsyncImageView.swift:69-80 | the bundled image for a URL under the resource root; otherwise, with a cache, the entry for the URL exactly when the cache holds one; with no cache, nothing |
| Connections.AsyncImageConnection.IsInCache | AsyncImageView/AsyncImageView.swift:82-84 | a request is "in cache" exactly when its URL is a bundled resource or the cache holds it |
| Connections.AsyncImageConnection.LoadFailedWithError | AsyncImageView/AsyncImageView.swift:86-92 | the state, the cache and the log change exactly as `FailOutcome` says |
| Connections.AsyncImageConnection.CacheImage | AsyncImageView/AsyncImageView.swift:94-120 | the state, the cache and the log change exactly as `CacheImageOutcome` says |
| Connections.AsyncImageConnection.ProcessDataInBackground | AsyncImageView/AsyncImageView.swift:122-143 | the state, the cache and the log change exactly as `ProcessOutcome` says |
| Connections.AsyncImageConnection.ConnectionDidReceiveResponse | AsyncImageView/AsyncImageView.swift:145-147 | the new state is `ResponseStep` of the old |
| Connections.AsyncImageConnection.ConnectionDidReceiveData | AsyncImageView/AsyncImageView.swift:149-151 | the new state is `ChunkStep` of the old |
| Connections.AsyncImageConnection.ConnectionDidFinishLoading | AsyncImageView/AsyncImageView.swift:153-159 | the state, the cache and the log change exactly as `FinishLoadingOutcome` says |
| Connections.AsyncImageConnection.ConnectionDidFailWithError | AsyncImageView/AsyncImageView.swift:161-165 | the state, the cache and the log change exactly as `FailWithErrorOutcome` says |
| Connections.AsyncImageConnection.Start | AsyncImageView/AsyncImageView.swift:167-194 | the new state is `StartStep` of the old, given what `cachedImage` finds |
| Connections.AsyncImageConnection.RunScheduledDelivery | AsyncImageView/AsyncImageView.swift:182-184 | the oldest scheduled delivery leaves the schedule and runs `cacheImage` with its image |
| Connections.AsyncImageConnection.Cancel | AsyncImageView/AsyncImageView.swift:196-201 | the new state is `CancelStep` of the old |
| QueueModel.KeyMatches | AsyncImageView/AsyncImageView.swift:261 | the intended match, the one every loader operation uses: URL keys need URL equality, so it matches only where the code as written matches, and the target and selector keys (:366, :377, :387, :397) agree with the code |
| QueueModel.KeyMatchesAsWritten | AsyncImageView/AsyncImageView.swift:289 | the match as the code writes it (also :261, :335, :345, :355): any request with a URL matches a URL key, whatever its URL; no loader operation uses it |
| QueueModel.UrlMatchAsWrittenIgnoresUrl | AsyncImageView/AsyncImageView.swift:261 | the URL match as written holds between requests for two different URLs |
| QueueModel.UrlMatchAsWrittenTakesWholeQueue | AsyncImageView/AsyncImageView.swift:352-360 | as written, a URL-keyed scan matches every queued request; with URL equality, exactly the requests for that URL |
| QueueModel.Keep | AsyncImageView/AsyncImageView.swift:259-280 | a removal scan leaves only entries that do not match, and every entry that does not match survives |
| QueueModel.KeepAppend | AsyncImageView/AsyncImageView.swift:259-280 | removal works part by part, so the survivors keep their original order |
| QueueModel.KeepNoMatch | AsyncImageView/AsyncImageView.swift:259-280 | a scan that matches nothing leaves the queue as it was |
| QueueModel.KeepIdempotent | AsyncImageView/AsyncImageView.swift:259-280 | a second removal with the same key removes nothing |
| QueueModel.KeepDistinct | AsyncImageView/AsyncImageView.swift:259-280 | removal keeps the queue free of duplicates |
| QueueModel.FirstIdle | AsyncImageView/AsyncImageView.swift:318-328 | the insertion index: every entry before it is loading, and the entry at it (if any) is not |
| QueueModel.InsertedQueue | AsyncImageView/AsyncImageView.swift:318-328 | inserting a new request keeps the queue duplicate-free and puts its state and slot between the old ones |
| QueueModel.LastMatch | AsyncImageView/AsyncImageView.swift:384-392 | no index when nothing matches; otherwise a matching index after which nothing matches |
| QueueModel.Used | AsyncImageView/AsyncImageView.swift:243-253 | the pass counter never exceeds the budget |
| QueueModel.Plan | AsyncImageView/AsyncImageView.swift:242-254 | a pass never starts an entry already loading, and starts every idle entry whose image is at hand |
| QueueModel.PassStates | AsyncImageView/AsyncImageView.swift:242-254 | after a pass, loading entries are unchanged, started entries are loading and not cancelled, and all others are unchanged |
| QueueModel.PlanBound | AsyncImageView/AsyncImageView.swift:243-250 | one pass starts at most `budget` idle entries that need a fetch |
| QueueModel.PlanInOrder | AsyncImageView/AsyncImageView.swift:244-250 | fetches are started in queue order: if a later idle entry needing a fetch is started, so is every earlier one |
| QueueModel.PlanSaturates | AsyncImageView/AsyncImageView.swift:244-250 | an idle entry needing a fetch is left waiting only once the pass has started `budget` fetches before it |
| QueueModel.FrontIdleStarts | AsyncImageView/AsyncImageView.swift:244-250 | an idle entry with only loading entries in front of it is started by the pass |
| QueueModel.PassIgnoresRunningLoads | AsyncImageView/AsyncImageView.swift:243-250 | the budget is per pass: with two fetches already running, a pass still starts a third |
| Loader.AsyncImageLoader.constructor | AsyncImageView/AsyncImageView.swift:233-240 | a new loader has an empty queue and uses the given cache |
| Loader.AsyncImageLoader.UpdateQueue | AsyncImageView/AsyncImageView.swift:242-254 | the queue's states after the pass are `PassStates` of the states and slots before it |
| Loader.AsyncImageLoader.AdmitEntry | AsyncImageView/AsyncImageView.swift:245-251 | one entry: the counter grows exactly when an idle entry needing a fetch is admitted under the budget, and only that entry is started, exactly when `Admits` says so |
| Loader.AsyncImageLoader.CancelAndRemove | AsyncImageView/AsyncImageView.swift:259-280 | the queue becomes `Keep` of the old one, each matching entry is cancelled, and the survivors' states and slots are unchanged |
| Loader.AsyncImageLoader.RemoveMatching | AsyncImageView/AsyncImageView.swift:259-280 | the backward scan: queue becomes `Keep`, matches cancelled, others untouched |
| Loader.AsyncImageLoader.CancelEntry | AsyncImageView/AsyncImageView.swift:273 | cancelling one entry of a duplicate-free queue changes that entry only |
| Loader.AsyncImageLoader.CancelMatching | AsyncImageView/AsyncImageView.swift:362-371 | every matching entry is cancelled and stays queued; the others are untouched |
| Loader.AsyncImageLoader.ImageLoaded | AsyncImageView/AsyncImageView.swift:256-282 | the requests for the finished URL are cancelled and removed, the survivors keep their order, and one pass runs over them |
| Loader.AsyncImageLoader.ImageFailed | AsyncImageView/AsyncImageView.swift:284-300 | the same for the failed URL |
| Loader.AsyncImageLoader.RemoveThenUpdate | AsyncImageView/AsyncImageView.swift:259-281 | removal followed by one pass over the survivors, whose states before the pass are their states before the removal |
| Loader.AsyncImageLoader.LoadImageWithURL | AsyncImageView/AsyncImageView.swift:302-330 | on a cache hit the queue is unchanged and the target's requests with that selector are cancelled; on a miss the queue grows by one fresh request at `FirstIdle`, old entries keep their order, the new request is started, and all states are those of one pass |
| Loader.AsyncImageLoader.LoadUncached | AsyncImageView/AsyncImageView.swift:314-329 | the miss branch: insertion at `FirstIdle`, order kept, the new request started by the following pass |
| Loader.AsyncImageLoader.Enqueue | AsyncImageView/AsyncImageView.swift:317-328 | the new request sits at `FirstIdle` of the old states, with the old entries before and after it in order and only loading entries in front |
| Loader.AsyncImageLoader.CancelLoadingURLTargetAction | AsyncImageView/AsyncImageView.swift:332-340 | the requests for that URL, target and selector are cancelled and removed; the rest stay in order, untouched |
| Loader.AsyncImageLoader.CancelLoadingURLTarget | AsyncImageView/AsyncImageView.swift:342-350 | the requests for that URL and target are cancelled and removed; the rest stay in order, untouched |
| Loader.AsyncImageLoader.CancelLoadingURL | AsyncImageView/AsyncImageView.swift:352-360 | the requests for that URL are cancelled and removed; the rest stay in order, untouched |
| Loader.AsyncImageLoader.CancelLoadingImagesAction | AsyncImageView/AsyncImageView.swift:362-371 | the target's requests with that selector are cancelled and stay queued |
| Loader.AsyncImageLoader.CancelLoadingImages | AsyncImageView/AsyncImageView.swift:373-382 | all of the target's requests are cancelled and stay queued |
| Loader.AsyncImageLoader.URLForTargetAction | AsyncImageView/AsyncImageView.swift:384-392 | the URL of the last entry for the target and selector, or none when none matches |
| Loader.AsyncImageLoader.URLForTarget | AsyncImageView/AsyncImageView.swift:394-402 | the URL of the target's last entry, or none when none matches |
| Loader.AsyncImageLoader.FindLast | AsyncImageView/AsyncImageView.swift:385-391 | the backward scan returns the URL of the `LastMatch` entry, or none |

## Left out

- CacheImage, ProcessDataInBackground, ConnectionDidFinishLoading,
  RunScheduledDelivery, CacheImageOutcome, ProcessOutcome and
  FinishLoadingOutcome write the cache by the intended test `StoreInCache`,
  and StoredImageIsFound is stated about that write (see "## Findings"). The store test as the code writes it (:98-101), which
  caches nothing for a URL with a path, exists only as `StoreInCacheAsWritten`
  and `StoredAsWritten`, with the lemma `StoreInCacheAsWrittenMissesNetworkImage`.
- ImageLoaded, ImageFailed, CancelLoadingURLTargetAction, CancelLoadingURLTarget
  and CancelLoadingURL match by URL equality (`KeyMatches`, see "## Findings").
  The match as the code writes it (:261, :289, :335, :345, :355), under which
  they cancel and remove every queued request, exists only as
  `KeyMatchesAsWritten`, with the lemmas `UrlMatchAsWrittenIgnoresUrl` and
  `UrlMatchAsWrittenTakesWholeQueue`.

- `NSURLConnection` setup, run-loop scheduling and the 60-second timeout
  (:188-193, :211) are network I/O. Issuing a fetch is the `fetching` flag, and
  the connection callbacks are methods the caller invokes in any order.
- The dispatch queues are not modelled as concurrency:
  - `dispatch_sync` at :123-142 is one synchronous step.
  - `dispatch_async` at :182 is a scheduled delivery that the caller runs
    with `RunScheduledDelivery`.
  - The empty block dispatched at :307 does nothing and is not modelled.
- The order of the main queue across different requests is not modelled.
- Notification broadcast and observer registration (:89, :115, :234-239,
  :405) are not modelled. Posting appends to a log; the loader's two handlers
  take the notification as a parameter.
- The fields of the finished notification are not modelled as a dictionary.
  Its `AsyncImageCacheKey` entry is a `hasCache` flag.
- The success and failure callbacks are never modelled as delivered, because
  the calls are commented out in the source (:276, :293, :308). Nothing in the
  model claims an image or an error reaches the target.
- `UIImage(data:)`, the redraw into a bitmap context, `UIImage(named:)` and the
  main bundle's resource path are fields of `Platform`, with no contracts.
  The force-unwraps of the bundled image (:74) and of the resource path (:99)
  are taken to succeed.
- The `fileURL` checks at :70 and :98 compare an optional `Bool` with `nil`,
  which holds for every request with a URL. The model follows that reading:
  the bundle test looks at the URL's path only, and `Url` has no `fileURL` flag.
- `NSString.hasPrefix` is modelled on characters (an empty prefix never
  matches). Unicode normalisation is not modelled.
- The singletons `sharedLoader` and `defaultCache` (:215-230) are left out;
  the loader is built with an explicit cache and log.
- `loadingTimeout` is not modelled.
- The `isLoading` and `isCancelled` accessors (:203-204) are plain field
  reads; the model reads the fields.
- The `UIImageView` extension and the `AsyncImageView` view class (:409-481)
  are UI and not modelled.
- Traps on force-unwraps become preconditions:
  - `imageLoaded` requires the finished URL in the notification (:258).
  - `cacheImage` requires an image on its not-cancelled branch (:108).
  - `start` requires a URL whenever it does anything (:175-176).
  - The request methods that post a failure require a URL (:90).
- `concurrentLoads` is a `UInt` and the pass counter cannot overflow below it,
  so unbounded `nat` is used.
- Only the loader's own queue is modelled. Notifications from requests the
  loader did not create reach the handlers only if the caller passes them.
- The specification's bound of at most `concurrentLoads` loading requests at
  any time is not what the code does. `updateQueue` counts only the fetches
  it starts in the current pass. The model follows the code and proves the
  per-pass bound (`PlanBound`). `PassIgnoresRunningLoads` shows that a third
  fetch starts while two are running.

## Findings

| source | as written | input that shows it | evidently intended | confidence | as-written member | corrected member |
|---|---|---|---|---|---|---|
| AsyncImageView/AsyncImageView.swift:261 | the URL match `connection.URL?.isEqual(URL) != nil` (also :289 and :355, and the optional used as a condition at :335 and :345) holds for every request that has a URL | a finished load of `http://example.com/a.png` matches a queued request for `http://example.com/b.png`, so `imageLoaded` removes and cancels the whole queue | match requests whose URL equals the notified URL | high (not executed) | QueueModel.UrlMatchAsWrittenIgnoresUrl | QueueModel.Keep |
| AsyncImageView/AsyncImageView.swift:98-101 | `absoluteURL?.path?.hasPrefix(resourcePath) != nil` holds for every URL with a path, so `storeInCache` is false for ordinary web images | `http://example.com/a.png` with path `/a.png` and resource path `/app/Bundle` is never cached, so the next lookup misses | store every image except bundled resources, the ones `cachedImage` reads from the bundle | high (not executed) | RequestState.StoreInCacheAsWrittenMissesNetworkImage | RequestState.StoredImageIsFound |
