/** `AsyncImageConnection`: one load request for one URL. Its identity (URL,
    cache, target, callbacks) is fixed at construction; its flags, fetch and
    buffer change step by step. Each method is proved to have exactly the
    effect the matching function of `RequestState` describes. */
module Connections {
  import opened ImageTypes
  import opened RequestState

  class AsyncImageConnection {
    const url: Option<Url>
    const cache: ImageCache?
    const target: Target
    const success: Action
    const failure: Action
    /** Where notifications are posted, in place of the default center. */
    const center: NotificationCenter
    /** The image decoder and bundle the request uses. */
    const platform: Platform

    var loading: bool
    var cancelled: bool
    /** Whether the `connection` field holds an issued fetch. */
    var fetching: bool
    var data: Option<Bytes>
    /** Deliveries of a cached image dispatched to the main queue, not yet run. */
    var scheduled: seq<Image>

    ghost function State(): ConnState
      reads this
    {
      ConnState(loading, cancelled, fetching, data, scheduled)
    }

    /** The transition `o` happened: the request is in `o.state`, the cache
        received `o.write` and the log grew by `o.posted`. */
    twostate predicate Took(o: Outcome)
      reads this, cache, center
    {
      State() == o.state
      && center.posted == old(center.posted) + o.posted
      && (cache != null ==> cache.entries == ApplyWrite(old(cache.entries), o.write))
    }

    constructor (url: Option<Url>, cache: ImageCache?, target: Target, success: Action,
                 failure: Action, center: NotificationCenter, platform: Platform)
      ensures this.url == url && this.cache == cache && this.target == target
      ensures this.success == success && this.failure == failure
      ensures this.center == center && this.platform == platform
      ensures State() == Initial
    {
      this.url := url;
      this.cache := cache;
      this.target := target;
      this.success := success;
      this.failure := failure;
      this.center := center;
      this.platform := platform;
      loading := false;
      cancelled := false;
      fetching := false;
      data := None;
      scheduled := [];
    }

    /** `cachedImage`: the bundled image or the cache entry for the URL, which
        the code force-unwraps. */
    function CachedImage(): (r: Option<Image>)
      requires url.Some?
      reads cache
      ensures IsBundlePath(url.value, platform.resourcePath) ==>
        r == Some(platform.bundleImage(url.value.path.value[|platform.resourcePath|..]))
      ensures !IsBundlePath(url.value, platform.resourcePath) && cache == null ==> r.None?
      ensures !IsBundlePath(url.value, platform.resourcePath) && cache != null ==>
        (r.Some? <==> url.value in cache.entries)
        && (r.Some? ==> r.value == cache.entries[url.value])
    {
      ResolveImage(platform, url.value, if cache == null then map[] else cache.entries)
    }

    /** `isInCache`: a bundled resource always counts as cached; any other URL
        counts exactly when the cache holds it. */
    function IsInCache(): (r: bool)
      requires url.Some?
      reads cache
      ensures r <==> IsBundlePath(url.value, platform.resourcePath)
                     || (cache != null && url.value in cache.entries)
    {
      CachedImage().Some?
    }

    method LoadFailedWithError(error: LoadError)
      requires url.Some?
      modifies this, center
      ensures Took(FailOutcome(old(State()), url.value, target, error))
    {
      loading := false;
      cancelled := false;
      center.Post(LoadDidFail(target, url.value, error));
    }

    /** On the not-cancelled branch the image is force-unwrapped, so it must be
        there. */
    method CacheImage(image: Option<Image>)
      requires !cancelled ==> image.Some?
      modifies this, cache, center
      ensures Took(CacheImageOutcome(old(State()), url, target, cache != null,
                                     platform.resourcePath, image))
    {
      if !cancelled {
        if image.Some? && url.Some? {
          var storeInCache := StoreInCache(url.value, platform.resourcePath);
          if storeInCache && cache != null {
            cache.SetObject(image.value, url.value);
          }
        }
        loading := false;
        center.Post(LoadDidFinish(target, image.value, url, cache != null));
      } else {
        loading := false;
        cancelled := false;
      }
    }

    /** The decode runs synchronously on a private queue, so it is one step here. */
    method ProcessDataInBackground(bytes: Bytes)
      requires !cancelled && platform.decode(bytes).None? ==> url.Some?
      modifies this, cache, center
      ensures Took(ProcessOutcome(old(State()), url, target, cache != null, platform, bytes))
    {
      if !cancelled {
        var image := platform.decode(bytes);
        if image.Some? {
          CacheImage(Some(platform.redraw(image.value)));
        } else {
          LoadFailedWithError(InvalidImageData);
        }
      } else {
        CacheImage(None);
      }
    }

    method ConnectionDidReceiveResponse()
      modifies this
      ensures State() == ResponseStep(old(State()))
    {
      data := Some([]);
    }

    method ConnectionDidReceiveData(chunk: Bytes)
      modifies this
      ensures State() == ChunkStep(old(State()), chunk)
    {
      if data.Some? {
        data := Some(data.value + chunk);
      }
    }

    method ConnectionDidFinishLoading()
      requires data.Some? && !cancelled && platform.decode(data.value).None? ==> url.Some?
      modifies this, cache, center
      ensures Took(FinishLoadingOutcome(old(State()), url, target, cache != null, platform))
    {
      if data.Some? {
        ProcessDataInBackground(data.value);
      }
      fetching := false;
      data := None;
    }

    method ConnectionDidFailWithError(error: LoadError)
      requires url.Some?
      modifies this, center
      ensures Took(FailWithErrorOutcome(old(State()), url.value, target, error))
    {
      fetching := false;
      data := None;
      LoadFailedWithError(error);
    }

    /** A restart of a request with no URL reaches `cacheImage(nil)` on its
        not-cancelled branch, which force-unwraps the image, so the URL must be
        there whenever `start` does anything. */
    method Start()
      requires !(loading && !cancelled) ==> url.Some?
      modifies this
      ensures State() == StartStep(old(State()), if url.Some? then old(CachedImage()) else None)
    {
      if loading && !cancelled {
        return;
      }
      loading := true;
      cancelled := false;
      var image := CachedImage();
      if image.Some? {
        scheduled := scheduled + [image.value];
        return;
      }
      fetching := true;
    }

    /** The block `start` dispatched to the main queue for a cached image. */
    method RunScheduledDelivery()
      requires |scheduled| > 0
      modifies this, cache, center
      ensures Took(CacheImageOutcome(old(State()).(scheduled := old(scheduled)[1..]), url, target,
                                     cache != null, platform.resourcePath, Some(old(scheduled)[0])))
    {
      var image := scheduled[0];
      scheduled := scheduled[1..];
      CacheImage(Some(image));
    }

    method Cancel()
      modifies this
      ensures State() == CancelStep(old(State()))
    {
      cancelled := true;
      fetching := false;
      data := None;
    }
  }
}
