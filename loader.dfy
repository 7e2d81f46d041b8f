/** `AsyncImageLoader`: the ordered queue of load requests, edited in place.
    New requests go in front of the idle ones, one admission pass starts
    requests under a per-pass limit, finished and failed loads remove their
    requests, and targets can cancel or look up their requests. */
module Loader {
  import opened ImageTypes
  import opened RequestState
  import opened Connections
  import opened QueueModel

  class AsyncImageLoader {
    const cache: ImageCache
    /** Where the requests post, in place of the default center. */
    const center: NotificationCenter
    const platform: Platform
    /** How many requests that need a fetch one pass may start. */
    const concurrentLoads: nat := 2

    var connections: seq<AsyncImageConnection>

    /** Every queued request is queued once, has a URL and shares the loader's cache. */
    ghost predicate Valid()
      reads this
    {
      Distinct(connections)
      && forall c | c in connections :: c.url.Some? && c.cache == cache
    }

    constructor (cache: ImageCache, center: NotificationCenter, platform: Platform)
      ensures Valid()
      ensures this.cache == cache && this.center == center && this.platform == platform
      ensures connections == []
    {
      this.cache := cache;
      this.center := center;
      this.platform := platform;
      connections := [];
    }

    /** One admission pass. Entries already loading are not touched; every idle
        entry whose image is at hand is started; idle entries that need a fetch
        are started in queue order while fewer than `concurrentLoads` have been
        started in this pass (see `Plan` and its lemmas). */
    method UpdateQueue()
      requires Valid()
      modifies connections
      ensures Valid()
      ensures StatesOf(connections) ==
        PassStates(old(StatesOf(connections)), old(SlotsOf(connections, cache.entries)), concurrentLoads)
    {
      ghost var states := StatesOf(connections);
      ghost var slots := SlotsOf(connections, cache.entries);
      ghost var plan := Plan(slots, concurrentLoads);
      var count: nat := 0;
      var i := 0;
      while i < |connections|
        invariant 0 <= i <= |connections|
        invariant count == Used(slots[..i], concurrentLoads)
        invariant forall j | 0 <= j < |connections| ::
          connections[j].State() == if j < i && plan[j] then StartStep(states[j], HitOf(slots[j])) else states[j]
      {
        var connection := connections[i];
        UsedStep(slots, i, concurrentLoads);
        count := AdmitEntry(connection, count, connections, i);
        i := i + 1;
      }
      PassStatesFrom(StatesOf(connections), states, slots, concurrentLoads);
    }

    /** The body of the pass for entry `i`: `count` is the number of fetches the
        pass has started so far. Only that entry changes. */
    method AdmitEntry(connection: AsyncImageConnection, count: nat,
                      ghost q: seq<AsyncImageConnection>, ghost i: nat) returns (count': nat)
      requires i < |q| && q[i] == connection && Distinct(q)
      requires connection.url.Some? && connection.cache == cache
      modifies connection
      ensures var slot := SlotOf(old(connection.State()), connection.CachedImage());
        count' == (if slot.IdleUncached? && count < concurrentLoads then count + 1 else count)
        && forall j | 0 <= j < |q| ::
             q[j].State() ==
               if j == i && Admits(slot, count, concurrentLoads) then StartStep(old(q[j].State()), HitOf(slot))
               else old(q[j].State())
    {
      count' := count;
      if !connection.loading {
        if connection.IsInCache() {
          connection.Start();
        } else if count < concurrentLoads {
          count' := count + 1;
          connection.Start();
        }
      }
    }

    /** The backward scan shared by `imageLoaded`, `imageFailed` and the
        `cancelLoadingURL` overloads: every matching entry is cancelled and
        removed, and the others stay, in order and untouched, so the
        survivors' states and slots are those they had in the queue before. */
    method CancelAndRemove(key: MatchKey)
      requires Valid()
      modifies this, connections
      ensures Valid()
      ensures connections == Keep(old(connections), key)
      ensures forall c | c in old(connections) ::
        c.State() == if Matches(c, key) then CancelStep(old(c.State())) else old(c.State())
      ensures StatesOf(connections) == old(StatesOf(Keep(connections, key)))
      ensures SlotsOf(connections, cache.entries) == old(SlotsOf(Keep(connections, key), cache.entries))
    {
      ghost var kept := Keep(connections, key);
      ghost var keptStates := StatesOf(kept);
      ghost var keptSlots := SlotsOf(kept, cache.entries);
      RemoveMatching(key);
      forall j | 0 <= j < |kept|
        ensures kept[j].State() == keptStates[j]
      {
        assert kept[j] in old(connections);
      }
    }

    /** The loop of `CancelAndRemove`. */
    method RemoveMatching(key: MatchKey)
      requires Valid()
      modifies this, connections
      ensures Valid()
      ensures connections == Keep(old(connections), key)
      ensures forall c | c in old(connections) ::
        c.State() == if Matches(c, key) then CancelStep(old(c.State())) else old(c.State())
    {
      ghost var q := connections;
      var i := |connections|;
      while i > 0
        invariant 0 <= i <= |q|
        invariant connections == q[..i] + Keep(q[i..], key)
        invariant forall j | 0 <= j < |q| ::
          q[j].State() == if i <= j && Matches(q[j], key) then CancelStep(old(q[j].State())) else old(q[j].State())
      {
        i := i - 1;
        RemovalStep(q, i, key, connections);
        var connection := connections[i];
        if Matches(connection, key) {
          CancelEntry(connection, q, i);
          connections := connections[..i] + connections[i + 1..];
        }
      }
      RemovalDone(q, key);
      KeepDistinct(q, key);
    }

    /** `cancel` on entry `i` of a duplicate-free queue: only that entry changes. */
    static method CancelEntry(connection: AsyncImageConnection, ghost q: seq<AsyncImageConnection>, ghost i: nat)
      requires i < |q| && q[i] == connection && Distinct(q)
      modifies connection
      ensures forall j | 0 <= j < |q| ::
        q[j].State() == if j == i then CancelStep(old(q[j].State())) else old(q[j].State())
    {
      connection.Cancel();
    }

    /** The backward scan of `cancelLoadingImages`: matching entries are
        cancelled and stay queued. */
    method CancelMatching(key: MatchKey)
      requires Valid()
      modifies connections
      ensures Valid()
      ensures forall c | c in connections ::
        c.State() == if Matches(c, key) then CancelStep(old(c.State())) else old(c.State())
    {
      var i := |connections|;
      while i > 0
        invariant 0 <= i <= |connections|
        invariant forall c | c in connections ::
          c.State() == if Matches(c, key) && c in connections[i..] then CancelStep(old(c.State())) else old(c.State())
      {
        i := i - 1;
        assert connections[i..] == [connections[i]] + connections[i + 1..];
        var connection := connections[i];
        if Matches(connection, key) {
          connection.Cancel();
        }
      }
      assert connections[0..] == connections;
    }

    /** Removes the requests a finished load matches, then runs a pass over the
        survivors, which the removal left untouched. The success callback is
        not called (the call is commented out). */
    method ImageLoaded(n: Notification)
      requires Valid()
      requires n.LoadDidFinish? && n.finishedUrl.Some?
      modifies this, connections
      ensures Valid()
      ensures connections == Keep(old(connections), ByUrl(n.finishedUrl.value))
      ensures forall c | c in old(connections) && Matches(c, ByUrl(n.finishedUrl.value)) ::
        c.State() == CancelStep(old(c.State()))
      ensures StatesOf(connections) ==
        PassStates(old(StatesOf(Keep(connections, ByUrl(n.finishedUrl.value)))),
                   old(SlotsOf(Keep(connections, ByUrl(n.finishedUrl.value)), cache.entries)),
                   concurrentLoads)
    {
      var url := n.finishedUrl.value;
      RemoveThenUpdate(ByUrl(url));
    }

    /** Removes the requests a failed load matches, then runs a pass. The failure
        callback is not called (the call is commented out). */
    method ImageFailed(n: Notification)
      requires Valid()
      requires n.LoadDidFail?
      modifies this, connections
      ensures Valid()
      ensures connections == Keep(old(connections), ByUrl(n.failedUrl))
      ensures forall c | c in old(connections) && Matches(c, ByUrl(n.failedUrl)) ::
        c.State() == CancelStep(old(c.State()))
      ensures StatesOf(connections) ==
        PassStates(old(StatesOf(Keep(connections, ByUrl(n.failedUrl)))),
                   old(SlotsOf(Keep(connections, ByUrl(n.failedUrl)), cache.entries)),
                   concurrentLoads)
    {
      var url := n.failedUrl;
      RemoveThenUpdate(ByUrl(url));
    }

    /** The common body of `imageLoaded` and `imageFailed`. */
    method RemoveThenUpdate(key: MatchKey)
      requires Valid()
      modifies this, connections
      ensures Valid()
      ensures connections == Keep(old(connections), key)
      ensures forall c | c in old(connections) && Matches(c, key) ::
        c.State() == CancelStep(old(c.State()))
      ensures StatesOf(connections) ==
        PassStates(old(StatesOf(Keep(connections, key))),
                   old(SlotsOf(Keep(connections, key), cache.entries)),
                   concurrentLoads)
    {
      CancelAndRemove(key);
      assert forall j | 0 <= j < |connections| :: connections[j] in old(connections);
      UpdateQueue();
    }

    /** On a cache hit, cancels the target's requests with the same success
        selector (they stay queued) and queues nothing; the callback dispatched
        to the main queue has an empty body. On a miss, inserts a fresh request
        in front of the first entry that is not loading (or at the end), then
        runs a pass. */
    method LoadImageWithURL(url: Url, target: Target, success: Action, failure: Action)
      requires Valid()
      modifies this, connections
      ensures Valid()
      ensures url in old(cache.entries) ==>
        connections == old(connections)
        && forall c | c in connections ::
             c.State() == if Matches(c, ByTargetAction(target, success))
                          then CancelStep(old(c.State())) else old(c.State())
      ensures url !in old(cache.entries) ==>
        var k := FirstIdle(old(StatesOf(connections)));
        |connections| == |old(connections)| + 1
        && connections[..k] == old(connections)[..k]
        && connections[k + 1..] == old(connections)[k..]
        && fresh(connections[k])
        && connections[k].State().loading && !connections[k].State().cancelled
        && connections[k].url == Some(url) && connections[k].target == target
        && connections[k].success == success && connections[k].failure == failure
        && StatesOf(connections) ==
             PassStates(old(StatesOf(connections))[..k] + [Initial] + old(StatesOf(connections))[k..],
                        old(SlotsOf(connections, cache.entries))[..k]
                          + [SlotOf(Initial, ResolveImage(platform, url, old(cache.entries)))]
                          + old(SlotsOf(connections, cache.entries))[k..],
                        concurrentLoads)
    {
      var image := if url in cache.entries then Some(cache.entries[url]) else None;
      if image.Some? {
        CancelMatching(ByTargetAction(target, success));
        return;
      }

      ghost var k := LoadUncached(url, target, success, failure);
    }

    /** The cache-miss branch of `loadImageWithURL`: a new request is queued in
        front of the idle entries and the pass that follows starts it. */
    method LoadUncached(url: Url, target: Target, success: Action, failure: Action) returns (ghost k: nat)
      requires Valid()
      modifies this, connections
      ensures Valid()
      ensures k == FirstIdle(old(StatesOf(connections)))
      ensures k <= |old(connections)| && |connections| == |old(connections)| + 1
      ensures connections == old(connections)[..k] + [connections[k]] + old(connections)[k..]
      ensures fresh(connections[k])
      ensures connections[k].State().loading && !connections[k].State().cancelled
      ensures connections[k].url == Some(url) && connections[k].target == target
      ensures connections[k].success == success && connections[k].failure == failure
      ensures StatesOf(connections) ==
        PassStates(old(StatesOf(connections))[..k] + [Initial] + old(StatesOf(connections))[k..],
                   old(SlotsOf(connections, cache.entries))[..k]
                     + [SlotOf(Initial, ResolveImage(platform, url, old(cache.entries)))]
                     + old(SlotsOf(connections, cache.entries))[k..],
                   concurrentLoads)
    {
      ghost var states := StatesOf(connections);
      ghost var slots := SlotsOf(connections, cache.entries);
      var connection := new AsyncImageConnection(Some(url), cache, target, success, failure, center, platform);
      assert connection !in connections;
      k := Enqueue(connection);
      ghost var inserted := StatesOf(connections);
      ghost var insertedSlots := SlotsOf(connections, cache.entries);
      assert inserted == states[..k] + [Initial] + states[k..];
      assert insertedSlots == slots[..k] + [SlotOf(Initial, ResolveImage(platform, url, cache.entries))] + slots[k..];
      FrontIdleStarted(inserted, insertedSlots, concurrentLoads, k);
      UpdateQueue();
      assert StatesOf(connections) == PassStates(inserted, insertedSlots, concurrentLoads);
      assert StatesOf(connections)[k] == connections[k].State();
    }

    /** The insertion of `loadImageWithURL`: the new request goes in front of the
        first entry that is not loading, or at the end. Returns where it went. */
    method Enqueue(connection: AsyncImageConnection) returns (ghost k: nat)
      requires Valid() && connection !in connections
      requires connection.url.Some? && connection.cache == cache && connection.platform == platform
      modifies this
      ensures Valid()
      ensures k == FirstIdle(old(StatesOf(connections))) && k <= |old(connections)|
      ensures connections == old(connections)[..k] + [connection] + old(connections)[k..]
      ensures StatesOf(connections) ==
        old(StatesOf(connections))[..k] + [connection.State()] + old(StatesOf(connections))[k..]
      ensures SlotsOf(connections, cache.entries) ==
        old(SlotsOf(connections, cache.entries))[..k]
          + [SlotOf(connection.State(), ResolveImage(platform, connection.url.value, cache.entries))]
          + old(SlotsOf(connections, cache.entries))[k..]
      ensures forall j | 0 <= j < k :: SlotsOf(connections, cache.entries)[j].Busy?
      ensures forall j | 0 <= j < |connections| :: connections[j] in old(connections) || connections[j] == connection
    {
      ghost var q := connections;
      ghost var states := StatesOf(connections);
      var added := false;
      var i := 0;
      while i < |connections|
        invariant 0 <= i <= |q| && connections == q
        invariant forall j | 0 <= j < i :: states[j].loading
      {
        if !connections[i].loading {
          connections := connections[..i] + [connection] + connections[i..];
          added := true;
          break;
        }
        i := i + 1;
      }
      if !added {
        assert q + [connection] == q[..i] + [connection] + q[i..];
        connections := connections + [connection];
      }
      FirstIdleAt(states, i);
      InsertedQueue(q, i, connection, cache.entries);
      k := i;
      forall j | 0 <= j < k
        ensures SlotsOf(connections, cache.entries)[j].Busy?
      {
        assert connections[j] == q[j] && q[j].State() == states[j];
      }
    }

    /** `cancelLoadingURL(_:target:action:)`. No pass follows. */
    method CancelLoadingURLTargetAction(url: Url, target: Target, action: Action)
      requires Valid()
      modifies this, connections
      ensures Valid()
      ensures connections == Keep(old(connections), ByUrlTargetAction(url, target, action))
      ensures forall c | c in old(connections) ::
        c.State() == if Matches(c, ByUrlTargetAction(url, target, action))
                     then CancelStep(old(c.State())) else old(c.State())
    {
      CancelAndRemove(ByUrlTargetAction(url, target, action));
    }

    /** `cancelLoadingURL(_:target:)`. No pass follows. */
    method CancelLoadingURLTarget(url: Url, target: Target)
      requires Valid()
      modifies this, connections
      ensures Valid()
      ensures connections == Keep(old(connections), ByUrlTarget(url, target))
      ensures forall c | c in old(connections) ::
        c.State() == if Matches(c, ByUrlTarget(url, target))
                     then CancelStep(old(c.State())) else old(c.State())
    {
      CancelAndRemove(ByUrlTarget(url, target));
    }

    /** `cancelLoadingURL(_:)`. No pass follows. */
    method CancelLoadingURL(url: Url)
      requires Valid()
      modifies this, connections
      ensures Valid()
      ensures connections == Keep(old(connections), ByUrl(url))
      ensures forall c | c in old(connections) ::
        c.State() == if Matches(c, ByUrl(url)) then CancelStep(old(c.State())) else old(c.State())
    {
      CancelAndRemove(ByUrl(url));
    }

    /** `cancelLoadingImages(_:action:)`: the target's requests with that success
        selector are cancelled and stay queued. */
    method CancelLoadingImagesAction(target: Target, action: Action)
      requires Valid()
      modifies connections
      ensures Valid()
      ensures forall c | c in connections ::
        c.State() == if Matches(c, ByTargetAction(target, action))
                     then CancelStep(old(c.State())) else old(c.State())
    {
      CancelMatching(ByTargetAction(target, action));
    }

    /** `cancelLoadingImages(_:)`: all of the target's requests are cancelled and
        stay queued. */
    method CancelLoadingImages(target: Target)
      requires Valid()
      modifies connections
      ensures Valid()
      ensures forall c | c in connections ::
        c.State() == if Matches(c, ByTarget(target)) then CancelStep(old(c.State())) else old(c.State())
    {
      CancelMatching(ByTarget(target));
    }

    /** `URLForTarget(_:action:)`: the URL of the most recently queued request of
        the target with that success selector, or none. */
    method URLForTargetAction(target: Target, action: Action) returns (url: Option<Url>)
      ensures var m := LastMatch(connections, ByTargetAction(target, action));
        url == if m.Some? then connections[m.value].url else None
    {
      url := FindLast(ByTargetAction(target, action));
    }

    /** `URLForTarget(_:)`: the URL of the target's most recently queued request,
        or none. */
    method URLForTarget(target: Target) returns (url: Option<Url>)
      ensures var m := LastMatch(connections, ByTarget(target));
        url == if m.Some? then connections[m.value].url else None
    {
      url := FindLast(ByTarget(target));
    }

    /** The backward scan both `URLForTarget` overloads run: it returns at the
        first match from the end. */
    method FindLast(key: MatchKey) returns (url: Option<Url>)
      ensures var m := LastMatch(connections, key);
        url == if m.Some? then connections[m.value].url else None
    {
      var i := |connections|;
      while i > 0
        invariant 0 <= i <= |connections|
        invariant forall j | i <= j < |connections| :: !Matches(connections[j], key)
      {
        i := i - 1;
        var connection := connections[i];
        if Matches(connection, key) {
          return connection.url;
        }
      }
      return None;
    }
  }
}
