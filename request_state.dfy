/** The state of one load request (`AsyncImageConnection`) as a value, and what
    each of its transitions does to that state, to the shared cache and to the
    notification log. The class in `Connections` is proved against these. */
module RequestState {
  import opened ImageTypes

  /** The request's mutable fields. `fetching` says whether the `connection`
      field holds an issued fetch; `scheduled` holds the cached images whose
      delivery `start` has dispatched to the main queue and that have not run. */
  datatype ConnState = ConnState(
    loading: bool,
    cancelled: bool,
    fetching: bool,
    data: Option<Bytes>,
    scheduled: seq<Image>)

  /** A request as `init` leaves it. */
  const Initial: ConnState := ConnState(false, false, false, None, [])

  /** A write to the shared cache. */
  datatype CacheWrite = CacheWrite(key: Url, image: Image)

  /** The effect of one transition: the new state, the cache write it makes (if
      any) and the notifications it posts, in order. */
  datatype Outcome = Outcome(state: ConnState, write: Option<CacheWrite>, posted: seq<Notification>)

  function ApplyWrite(entries: map<Url, Image>, w: Option<CacheWrite>): map<Url, Image>
  {
    if w.Some? then entries[w.value.key := w.value.image] else entries
  }

  /** `start`, given what `cachedImage` finds for the URL. A request already
      loading and not cancelled is left alone; any other ends loading and not
      cancelled, with the found image's delivery scheduled or a fetch issued. */
  function StartStep(s: ConnState, hit: Option<Image>): (r: ConnState)
    ensures r.loading && !r.cancelled
    ensures s.loading && !s.cancelled ==> r == s
    ensures r.data == s.data
    ensures !(s.loading && !s.cancelled) && hit.Some? ==>
      r.scheduled == s.scheduled + [hit.value] && r.fetching == s.fetching
    ensures !(s.loading && !s.cancelled) && hit.None? ==>
      r.fetching && r.scheduled == s.scheduled
  {
    if s.loading && !s.cancelled then s
    else
      var s' := s.(loading := true, cancelled := false);
      if hit.Some? then s'.(scheduled := s'.scheduled + [hit.value])
      else s'.(fetching := true)
  }

  /** `cancel`: marks the request cancelled, drops the fetch and the buffer,
      and leaves `loading` and any scheduled delivery as they were. */
  function CancelStep(s: ConnState): (r: ConnState)
    ensures r.cancelled && !r.fetching && r.data.None?
    ensures r.loading == s.loading && r.scheduled == s.scheduled
  {
    s.(cancelled := true, fetching := false, data := None)
  }

  /** `connection(_:didReceiveResponse:)`: a fresh, empty buffer. */
  function ResponseStep(s: ConnState): (r: ConnState)
    ensures r.data == Some([])
    ensures r.(data := s.data) == s
  {
    s.(data := Some([]))
  }

  /** `connection(_:didReceiveData:)`: the chunk is appended to the buffer; with
      no buffer (no response yet) the optional chaining drops it. */
  function ChunkStep(s: ConnState, chunk: Bytes): (r: ConnState)
    ensures s.data.Some? ==> r.data == Some(s.data.value + chunk)
    ensures s.data.None? ==> r == s
    ensures r.(data := s.data) == s
  {
    if s.data.Some? then s.(data := Some(s.data.value + chunk)) else s
  }

  /** The chunks of a response, one after another. */
  function ReceiveAll(s: ConnState, chunks: seq<Bytes>): ConnState
    decreases chunks
  {
    if chunks == [] then s else ReceiveAll(ChunkStep(s, chunks[0]), chunks[1..])
  }

  function Concat(chunks: seq<Bytes>): Bytes
  {
    if chunks == [] then [] else chunks[0] + Concat(chunks[1..])
  }

  /** Chunks are appended to an existing buffer in arrival order, and nothing
      else about the request changes. */
  lemma {:induction false} ReceiveAllAppends(s: ConnState, chunks: seq<Bytes>)
    requires s.data.Some?
    ensures ReceiveAll(s, chunks) == s.(data := Some(s.data.value + Concat(chunks)))
    decreases chunks
  {
    if chunks == [] {
      assert s.data.value + Concat(chunks) == s.data.value;
    } else {
      var s1 := ChunkStep(s, chunks[0]);
      ReceiveAllAppends(s1, chunks[1..]);
      assert s.data.value + Concat(chunks) == (s.data.value + chunks[0]) + Concat(chunks[1..]);
    }
  }

  /** After a response, the buffer holds exactly the chunks received since, in
      order, whatever it held before the response. */
  lemma ResponseThenChunks(s: ConnState, chunks: seq<Bytes>)
    ensures ReceiveAll(ResponseStep(s), chunks).data == Some(Concat(chunks))
  {
    ReceiveAllAppends(ResponseStep(s), chunks);
    assert [] + Concat(chunks) == Concat(chunks);
  }

  /** Chunks that arrive with no buffer are dropped. */
  lemma {:induction false} ChunksWithoutBufferDropped(s: ConnState, chunks: seq<Bytes>)
    requires s.data.None?
    ensures ReceiveAll(s, chunks) == s
    decreases chunks
  {
    if chunks != [] {
      ChunksWithoutBufferDropped(ChunkStep(s, chunks[0]), chunks[1..]);
    }
  }

  /** `cacheImage`. A cancelled request writes nothing, posts nothing and has
      both flags reset. Any other stops loading, posts exactly one finished
      notification carrying its URL, and writes the image to the cache when it
      has a URL and a cache and `StoreInCache` holds. The image must be
      present on that branch: the code force-unwraps it. */
  function CacheImageOutcome(s: ConnState, url: Option<Url>, target: Target, hasCache: bool,
                             resourcePath: string, image: Option<Image>): (o: Outcome)
    requires !s.cancelled ==> image.Some?
    ensures s.cancelled ==>
      o.write.None? && o.posted == [] && !o.state.loading && !o.state.cancelled
    ensures !s.cancelled ==>
      !o.state.loading && !o.state.cancelled
      && o.posted == [LoadDidFinish(target, image.value, url, hasCache)]
    ensures o.write.Some? <==>
      !s.cancelled && url.Some? && hasCache && StoreInCache(url.value, resourcePath)
    ensures o.write.Some? ==> o.write.value == CacheWrite(url.value, image.value)
    ensures o.state.(loading := s.loading, cancelled := s.cancelled) == s
  {
    if !s.cancelled then
      var write :=
        if url.Some? && hasCache && StoreInCache(url.value, resourcePath)
        then Some(CacheWrite(url.value, image.value)) else None;
      Outcome(s.(loading := false), write, [LoadDidFinish(target, image.value, url, hasCache)])
    else
      Outcome(s.(loading := false, cancelled := false), None, [])
  }

  /** The write `cacheImage` makes is what the next lookup finds: a finished
      network image is found under its URL, and a bundled resource leaves the
      cache as it was. */
  lemma StoredImageIsFound(p: Platform, s: ConnState, entries: map<Url, Image>, u: Url,
                           target: Target, img: Image)
    requires !s.cancelled
    ensures var o := CacheImageOutcome(s, Some(u), target, true, p.resourcePath, Some(img));
      !IsBundlePath(u, p.resourcePath) ==> ResolveImage(p, u, ApplyWrite(entries, o.write)) == Some(img)
    ensures var o := CacheImageOutcome(s, Some(u), target, true, p.resourcePath, Some(img));
      IsBundlePath(u, p.resourcePath) ==> ApplyWrite(entries, o.write) == entries
  {
  }

  /** With the store test as the code writes it, an image fetched from an
      ordinary web URL is never stored, so a lookup right after still misses;
      the write `cacheImage` makes stores it. */
  lemma StoreInCacheAsWrittenMissesNetworkImage(p: Platform)
    requires p.resourcePath == "/app/Bundle"
    ensures var u := Url("http://example.com/a.png", Some("/a.png"));
      var o := CacheImageOutcome(Initial, Some(u), None, true, p.resourcePath, Some(Image(1)));
      StoreInCache(u, p.resourcePath)
      && !StoreInCacheAsWritten(u)
      && ResolveImage(p, u, StoredAsWritten(map[], u, Image(1))) == None
      && ResolveImage(p, u, ApplyWrite(map[], o.write)) == Some(Image(1))
  {
    var u := Url("http://example.com/a.png", Some("/a.png"));
    assert !HasPrefix("/a.png", "/app/Bundle") by {
      assert "/app/Bundle"[2] != "/a.png"[2];
    }
  }

  /** `loadFailedWithError`: both flags reset, no cache write, exactly one
      failed notification with the URL and the error. */
  function FailOutcome(s: ConnState, url: Url, target: Target, error: LoadError): (o: Outcome)
    ensures !o.state.loading && !o.state.cancelled
    ensures o.write.None? && o.posted == [LoadDidFail(target, url, error)]
    ensures o.state.(loading := s.loading, cancelled := s.cancelled) == s
  {
    Outcome(s.(loading := false, cancelled := false), None, [LoadDidFail(target, url, error)])
  }

  /** The cache write that follows a successful decode: the redrawn image under
      the request's URL, when it has a URL and a cache and `StoreInCache` holds. */
  function DecodedWrite(url: Option<Url>, hasCache: bool, p: Platform, bytes: Bytes): Option<CacheWrite>
    requires p.decode(bytes).Some?
  {
    if url.Some? && hasCache && StoreInCache(url.value, p.resourcePath)
    then Some(CacheWrite(url.value, p.redraw(p.decode(bytes).value))) else None
  }

  /** `processDataInBackground`. A cancelled request discards the bytes through
      the cancelled branch of `cacheImage`. Otherwise bytes that decode are
      redrawn and finish the request; bytes that do not fail it with
      `InvalidImageData`, which needs the URL (force-unwrapped). */
  function ProcessOutcome(s: ConnState, url: Option<Url>, target: Target, hasCache: bool,
                          p: Platform, bytes: Bytes): (o: Outcome)
    requires !s.cancelled && p.decode(bytes).None? ==> url.Some?
    ensures s.cancelled ==>
      o.write.None? && o.posted == [] && !o.state.loading && !o.state.cancelled
    ensures !s.cancelled && p.decode(bytes).None? ==>
      o.write.None? && o.posted == [LoadDidFail(target, url.value, InvalidImageData)]
    ensures !s.cancelled && p.decode(bytes).Some? ==>
      o.posted == [LoadDidFinish(target, p.redraw(p.decode(bytes).value), url, hasCache)]
      && o.write == DecodedWrite(url, hasCache, p, bytes)
    ensures !o.state.loading && !o.state.cancelled
    ensures o.state.(loading := s.loading, cancelled := s.cancelled) == s
  {
    if !s.cancelled then
      var image := p.decode(bytes);
      if image.Some? then
        CacheImageOutcome(s, url, target, hasCache, p.resourcePath, Some(p.redraw(image.value)))
      else
        FailOutcome(s, url.value, target, InvalidImageData)
    else
      CacheImageOutcome(s, url, target, hasCache, p.resourcePath, None)
  }

  /** `connectionDidFinishLoading`: the buffered bytes, if any, are processed,
      then the fetch and the buffer are dropped. */
  function FinishLoadingOutcome(s: ConnState, url: Option<Url>, target: Target, hasCache: bool,
                                p: Platform): (o: Outcome)
    requires s.data.Some? && !s.cancelled && p.decode(s.data.value).None? ==> url.Some?
    ensures !o.state.fetching && o.state.data.None? && o.state.scheduled == s.scheduled
    ensures s.data.None? ==>
      o.write.None? && o.posted == [] && o.state == s.(fetching := false)
    ensures s.data.Some? ==> !o.state.loading && !o.state.cancelled
    ensures s.data.Some? && s.cancelled ==> o.write.None? && o.posted == []
    ensures s.data.Some? && !s.cancelled && p.decode(s.data.value).None? ==>
      o.write.None? && o.posted == [LoadDidFail(target, url.value, InvalidImageData)]
    ensures s.data.Some? && !s.cancelled && p.decode(s.data.value).Some? ==>
      o.posted == [LoadDidFinish(target, p.redraw(p.decode(s.data.value).value), url, hasCache)]
      && o.write == DecodedWrite(url, hasCache, p, s.data.value)
  {
    if s.data.Some? then
      var o := ProcessOutcome(s, url, target, hasCache, p, s.data.value);
      o.(state := o.state.(fetching := false, data := None))
    else
      Outcome(s.(fetching := false, data := None), None, [])
  }

  /** `connection(_:didFailWithError:)`: the fetch and the buffer are dropped,
      then the request fails with the transport's error. */
  function FailWithErrorOutcome(s: ConnState, url: Url, target: Target, error: LoadError): (o: Outcome)
    ensures !o.state.fetching && o.state.data.None? && o.state.scheduled == s.scheduled
    ensures !o.state.loading && !o.state.cancelled
    ensures o.write.None? && o.posted == [LoadDidFail(target, url, error)]
  {
    FailOutcome(s.(fetching := false, data := None), url, target, error)
  }

  /** A completion that arrives after `cancel` leaves no trace: whatever the
      bytes, the cache is not written and nothing is posted, and the
      cancellation is consumed. */
  lemma CancelledCompletionDiscarded(s: ConnState, url: Option<Url>, target: Target,
                                     hasCache: bool, p: Platform, bytes: Bytes, image: Image)
    ensures var o := ProcessOutcome(CancelStep(s), url, target, hasCache, p, bytes);
      o.write.None? && o.posted == [] && !o.state.cancelled
    ensures var o := CacheImageOutcome(CancelStep(s), url, target, hasCache, p.resourcePath, Some(image));
      o.write.None? && o.posted == [] && !o.state.cancelled
  {
  }

  /** Once started, a request that has not been cancelled ignores further
      starts: starting twice is starting once. */
  lemma StartIsIdempotent(s: ConnState, hit: Option<Image>, hit': Option<Image>)
    ensures StartStep(StartStep(s, hit), hit') == StartStep(s, hit)
  {
  }
}
