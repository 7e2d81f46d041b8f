/** The loader's queue as values: which entries a removal or cancellation
    matches, what a removal leaves, where a new request goes, what a reverse
    lookup finds and which idle requests one admission pass starts. */
module QueueModel {
  import opened ImageTypes
  import opened RequestState
  import opened Connections

  /** What a lookup, cancellation or removal matches on: the URL alone
      (`imageLoaded`, `imageFailed`, `cancelLoadingURL(_:)`), the URL with the
      target, or with the target and the success selector (the other
      `cancelLoadingURL` overloads), the target alone, or the target with the
      success selector (`cancelLoadingImages`, `URLForTarget`). */
  datatype MatchKey =
    | ByUrl(url: Url)
    | ByUrlTarget(url: Url, target: Target)
    | ByUrlTargetAction(url: Url, target: Target, action: Action)
    | ByTarget(target: Target)
    | ByTargetAction(target: Target, action: Action)

  /** The match with URL equality, as the loader evidently means it. */
  predicate KeyMatches(url: Option<Url>, target: Target, success: Action, key: MatchKey): (r: bool)
    ensures r ==> KeyMatchesAsWritten(url, target, success, key)
    ensures (key.ByTarget? || key.ByTargetAction?) ==> (r <==> KeyMatchesAsWritten(url, target, success, key))
    ensures key.ByUrl? ==> (r <==> url == Some(key.url))
    ensures key.ByUrlTarget? ==> (r <==> url == Some(key.url) && target == key.target)
    ensures key.ByUrlTargetAction? ==>
      (r <==> url == Some(key.url) && target == key.target && success == key.action)
  {
    match key
    case ByUrl(u) => url == Some(u)
    case ByUrlTarget(u, t) => url == Some(u) && target == t
    case ByUrlTargetAction(u, t, a) => url == Some(u) && target == t && success == a
    case ByTarget(t) => target == t
    case ByTargetAction(t, a) => target == t && success == a
  }

  /** The match as the code writes it: `URL?.isEqual(URL) != nil`, or the same
      optional used as a condition, holds for every entry that has a URL. */
  predicate KeyMatchesAsWritten(url: Option<Url>, target: Target, success: Action, key: MatchKey): (r: bool)
    ensures url.Some? && key.ByUrl? ==> r
    ensures url.None? && !key.ByTarget? && !key.ByTargetAction? ==> !r
  {
    match key
    case ByUrl(_) => url.Some?
    case ByUrlTarget(_, t) => url.Some? && target == t
    case ByUrlTargetAction(_, t, a) => url.Some? && target == t && success == a
    case ByTarget(t) => target == t
    case ByTargetAction(t, a) => target == t && success == a
  }

  predicate Matches(c: AsyncImageConnection, key: MatchKey)
  {
    KeyMatches(c.url, c.target, c.success, key)
  }

  predicate MatchesAsWritten(c: AsyncImageConnection, key: MatchKey)
  {
    KeyMatchesAsWritten(c.url, c.target, c.success, key)
  }

  /** A finished load of one URL, matched as written, also matches a request
      for a different URL. */
  lemma UrlMatchAsWrittenIgnoresUrl()
    ensures var a := Url("http://example.com/a.png", Some("/a.png"));
      var b := Url("http://example.com/b.png", Some("/b.png"));
      KeyMatchesAsWritten(Some(a), None, None, ByUrl(b))
      && !KeyMatches(Some(a), None, None, ByUrl(b))
  {
    var a := Url("http://example.com/a.png", Some("/a.png"));
    var b := Url("http://example.com/b.png", Some("/b.png"));
    assert a.absoluteString[19] != b.absoluteString[19];
  }

  /** As written, every URL-keyed removal takes every queued request that has a
      URL, whatever URL it names: the whole queue, since the loader only queues
      requests with URLs. With URL equality, exactly the requests for that URL. */
  lemma UrlMatchAsWrittenTakesWholeQueue(q: seq<AsyncImageConnection>, u: Url)
    requires forall c | c in q :: c.url.Some?
    ensures forall c | c in q :: MatchesAsWritten(c, ByUrl(u))
    ensures forall c | c in q :: Matches(c, ByUrl(u)) <==> c.url == Some(u)
  {
  }

  predicate Distinct(q: seq<AsyncImageConnection>)
  {
    forall i, j | 0 <= i < j < |q| :: q[i] != q[j]
  }

  /** The entries a removal scan leaves, in their original order. */
  function Keep(q: seq<AsyncImageConnection>, key: MatchKey): (r: seq<AsyncImageConnection>)
    ensures |r| <= |q|
    ensures forall c | c in r :: c in q && !Matches(c, key)
    ensures forall c | c in q && !Matches(c, key) :: c in r
  {
    if q == [] then []
    else if Matches(q[0], key) then Keep(q[1..], key)
    else [q[0]] + Keep(q[1..], key)
  }

  /** Removal works piece by piece: the survivors of a concatenation are the
      survivors of each part, one part after the other, so order is kept. */
  lemma {:induction false} KeepAppend(a: seq<AsyncImageConnection>, b: seq<AsyncImageConnection>, key: MatchKey)
    ensures Keep(a + b, key) == Keep(a, key) + Keep(b, key)
  {
    if a == [] {
      assert a + b == b;
    } else {
      assert (a + b)[1..] == a[1..] + b;
      KeepAppend(a[1..], b, key);
    }
  }

  /** A queue nothing in which matches is left exactly as it was. */
  lemma {:induction false} KeepNoMatch(q: seq<AsyncImageConnection>, key: MatchKey)
    requires forall c | c in q :: !Matches(c, key)
    ensures Keep(q, key) == q
  {
    if q != [] {
      KeepNoMatch(q[1..], key);
      assert [q[0]] + q[1..] == q;
    }
  }

  /** A second removal with the same key finds nothing more to remove. */
  lemma {:induction false} KeepIdempotent(q: seq<AsyncImageConnection>, key: MatchKey)
    ensures Keep(Keep(q, key), key) == Keep(q, key)
  {
    if q != [] {
      KeepIdempotent(q[1..], key);
      if !Matches(q[0], key) {
        var r := [q[0]] + Keep(q[1..], key);
        assert r[0] == q[0] && r[1..] == Keep(q[1..], key);
      }
    }
  }

  lemma {:induction false} KeepDistinct(q: seq<AsyncImageConnection>, key: MatchKey)
    requires Distinct(q)
    ensures Distinct(Keep(q, key))
  {
    if q != [] {
      KeepDistinct(q[1..], key);
      if !Matches(q[0], key) {
        assert q[0] !in q[1..];
        var r := [q[0]] + Keep(q[1..], key);
        forall i, j | 0 <= i < j < |r| ensures r[i] != r[j] {
          if i == 0 {
            assert r[j] in Keep(q[1..], key);
          }
        }
      }
    }
  }

  /** One step of the backward removal scan: with `cs` the queue once the
      entries after `i` have been scanned, entry `i` is still `q[i]`, and
      removing it when it matches (keeping it otherwise) gives the queue once
      the entries from `i` on have been scanned. */
  lemma RemovalStep(q: seq<AsyncImageConnection>, i: nat, key: MatchKey, cs: seq<AsyncImageConnection>)
    requires i < |q| && cs == q[..i + 1] + Keep(q[i + 1..], key)
    ensures i < |cs| && cs[i] == q[i]
    ensures Matches(q[i], key) ==> cs[..i] + cs[i + 1..] == q[..i] + Keep(q[i..], key)
    ensures !Matches(q[i], key) ==> cs == q[..i] + Keep(q[i..], key)
  {
    var rest := Keep(q[i + 1..], key);
    KeepCons(q[i..], key);
    assert q[i..][1..] == q[i + 1..];
    assert q[..i + 1] == q[..i] + [q[i]];
    if Matches(q[i], key) {
      assert cs[..i] == q[..i];
      assert cs[i + 1..] == rest;
    } else {
      assert Keep(q[i..], key) == [q[i]] + rest;
      assert (q[..i] + [q[i]]) + rest == q[..i] + ([q[i]] + rest);
    }
  }

  /** `Keep` on a non-empty queue, one entry at a time. */
  lemma KeepCons(q: seq<AsyncImageConnection>, key: MatchKey)
    requires q != []
    ensures Keep(q, key) == if Matches(q[0], key) then Keep(q[1..], key) else [q[0]] + Keep(q[1..], key)
  {
  }

  lemma RemovalDone(q: seq<AsyncImageConnection>, key: MatchKey)
    ensures q[..0] + Keep(q[0..], key) == Keep(q, key)
  {
    assert q[0..] == q;
  }

  /** Where `loadImageWithURL` inserts: the index of the first entry that is not
      loading, or the end. */
  function FirstIdle(states: seq<ConnState>): (k: nat)
    ensures k <= |states|
    ensures forall j | 0 <= j < k :: states[j].loading
    ensures k < |states| ==> !states[k].loading
  {
    if states == [] || !states[0].loading then 0
    else 1 + FirstIdle(states[1..])
  }

  /** The index of the last matching entry, if any: `URLForTarget` scans from
      the end, so the most recently queued match wins. */
  function LastMatch(q: seq<AsyncImageConnection>, key: MatchKey): (r: Option<nat>)
    ensures r.None? <==> forall j | 0 <= j < |q| :: !Matches(q[j], key)
    ensures r.Some? ==> r.value < |q| && Matches(q[r.value], key)
    ensures r.Some? ==> forall j | r.value < j < |q| :: !Matches(q[j], key)
  {
    if q == [] then None
    else if Matches(q[|q| - 1], key) then Some(|q| - 1)
    else LastMatch(q[..|q| - 1], key)
  }

  /** How one admission pass sees an entry: loading, idle with an image at hand
      (bundled or cached), or idle and in need of a fetch. */
  datatype Slot = Busy | IdleCached(image: Image) | IdleUncached

  function SlotOf(s: ConnState, hit: Option<Image>): Slot
  {
    if s.loading then Busy
    else if hit.Some? then IdleCached(hit.value)
    else IdleUncached
  }

  /** What `start` finds in the cache for an entry in this slot. */
  function HitOf(slot: Slot): Option<Image>
  {
    if slot.IdleCached? then Some(slot.image) else None
  }

  /** The pass counter after a scan of `slots`: one more for each idle entry
      that needs a fetch, while below the budget. */
  function Used(slots: seq<Slot>, budget: nat): (n: nat)
    ensures n <= budget
  {
    if slots == [] then 0
    else
      var n := Used(slots[..|slots| - 1], budget);
      if slots[|slots| - 1].IdleUncached? && n < budget then n + 1 else n
  }

  /** Whether the pass starts an entry in `slot` when `used` fetches have been
      started before it. */
  predicate Admits(slot: Slot, used: nat, budget: nat)
  {
    slot.IdleCached? || (slot.IdleUncached? && used < budget)
  }

  /** Which entries one `updateQueue` pass starts. */
  function Plan(slots: seq<Slot>, budget: nat): (p: seq<bool>)
    ensures |p| == |slots|
    ensures forall i | 0 <= i < |slots| && slots[i].Busy? :: !p[i]
    ensures forall i | 0 <= i < |slots| && slots[i].IdleCached? :: p[i]
  {
    seq(|slots|, i requires 0 <= i < |slots| => Admits(slots[i], Used(slots[..i], budget), budget))
  }

  /** The states of the queue after a pass that starts the entries `Plan` picks. */
  function PassStates(states: seq<ConnState>, slots: seq<Slot>, budget: nat): (r: seq<ConnState>)
    requires |states| == |slots|
    ensures |r| == |states|
    ensures forall i | 0 <= i < |states| && slots[i].Busy? :: r[i] == states[i]
    ensures forall i | 0 <= i < |states| && Plan(slots, budget)[i] :: r[i].loading && !r[i].cancelled
    ensures forall i | 0 <= i < |states| && !Plan(slots, budget)[i] :: r[i] == states[i]
  {
    var p := Plan(slots, budget);
    seq(|states|, i requires 0 <= i < |states| =>
      if p[i] then StartStep(states[i], HitOf(slots[i])) else states[i])
  }

  /** A queue whose every entry is what the pass makes of it is the pass's result. */
  lemma PassStatesFrom(r: seq<ConnState>, states: seq<ConnState>, slots: seq<Slot>, budget: nat)
    requires |r| == |states| == |slots|
    requires forall j | 0 <= j < |r| ::
      r[j] == if Plan(slots, budget)[j] then StartStep(states[j], HitOf(slots[j])) else states[j]
    ensures r == PassStates(states, slots, budget)
  {
  }

  /** How many idle entries that need a fetch the plan `p` starts. */
  function UncachedStarted(slots: seq<Slot>, p: seq<bool>): nat
    requires |p| == |slots|
  {
    if slots == [] then 0
    else
      UncachedStarted(slots[..|slots| - 1], p[..|p| - 1])
      + (if slots[|slots| - 1].IdleUncached? && p[|p| - 1] then 1 else 0)
  }

  /** One more step of the pass counter, and the decision it makes. */
  lemma UsedStep(slots: seq<Slot>, i: nat, budget: nat)
    requires i < |slots|
    ensures Used(slots[..i + 1], budget) ==
      if slots[i].IdleUncached? && Used(slots[..i], budget) < budget
      then Used(slots[..i], budget) + 1 else Used(slots[..i], budget)
    ensures Plan(slots, budget)[i] == Admits(slots[i], Used(slots[..i], budget), budget)
  {
    assert slots[..i + 1][..i] == slots[..i];
  }

  /** A plan decides each entry from what came before it only. */
  lemma PlanPrefix(slots: seq<Slot>, budget: nat, n: nat)
    requires n <= |slots|
    ensures Plan(slots, budget)[..n] == Plan(slots[..n], budget)
  {
    forall i | 0 <= i < n
      ensures Plan(slots, budget)[i] == Plan(slots[..n], budget)[i]
    {
      assert slots[..n][..i] == slots[..i];
    }
  }

  /** One pass starts at most `budget` idle entries that need a fetch; entries
      already loading are not counted. */
  lemma {:induction false} PlanBound(slots: seq<Slot>, budget: nat)
    ensures UncachedStarted(slots, Plan(slots, budget)) == Used(slots, budget)
    ensures UncachedStarted(slots, Plan(slots, budget)) <= budget
  {
    if slots != [] {
      var n := |slots| - 1;
      var p := Plan(slots, budget);
      PlanPrefix(slots, budget, n);
      PlanBound(slots[..n], budget);
      assert p[..|p| - 1] == Plan(slots[..n], budget);
    }
  }

  lemma {:induction false} UsedMonotone(slots: seq<Slot>, budget: nat, i: nat, j: nat)
    requires i <= j <= |slots|
    ensures Used(slots[..i], budget) <= Used(slots[..j], budget)
    decreases j - i
  {
    if i < j {
      UsedMonotone(slots, budget, i, j - 1);
      assert slots[..j][..j - 1] == slots[..j - 1];
    }
  }

  /** Fetches are started in queue order: an idle entry that needs a fetch is
      started whenever a later one is. */
  lemma PlanInOrder(slots: seq<Slot>, budget: nat, i: nat, j: nat)
    requires i < j < |slots|
    requires slots[i].IdleUncached? && slots[j].IdleUncached?
    requires Plan(slots, budget)[j]
    ensures Plan(slots, budget)[i]
  {
    UsedMonotone(slots, budget, i, j);
  }

  /** An idle entry that needs a fetch is left waiting only when the pass has
      already started `budget` such entries before it. */
  lemma PlanSaturates(slots: seq<Slot>, budget: nat, j: nat)
    requires j < |slots| && slots[j].IdleUncached?
    requires !Plan(slots, budget)[j]
    ensures UncachedStarted(slots[..j], Plan(slots, budget)[..j]) == budget
  {
    PlanPrefix(slots, budget, j);
    PlanBound(slots[..j], budget);
  }

  /** Entries that are all loading leave the pass counter at zero. */
  lemma {:induction false} UsedOverBusy(slots: seq<Slot>, budget: nat, k: nat)
    requires k <= |slots|
    requires forall j | 0 <= j < k :: slots[j].Busy?
    ensures Used(slots[..k], budget) == 0
    decreases k
  {
    if k > 0 {
      UsedOverBusy(slots, budget, k - 1);
      assert slots[..k][..k - 1] == slots[..k - 1];
    }
  }

  /** An idle entry with only loading entries in front of it is started by the
      pass, whether or not its image is at hand. This is where
      `loadImageWithURL` puts a new request. */
  lemma FrontIdleStarts(slots: seq<Slot>, budget: nat, k: nat)
    requires budget > 0 && k < |slots| && !slots[k].Busy?
    requires forall j | 0 <= j < k :: slots[j].Busy?
    ensures Plan(slots, budget)[k]
  {
    UsedOverBusy(slots, budget, k);
  }

  /** The same, for the entry's state after the pass. */
  lemma FrontIdleStarted(states: seq<ConnState>, slots: seq<Slot>, budget: nat, k: nat)
    requires |states| == |slots|
    requires budget > 0 && k < |slots| && !slots[k].Busy?
    requires forall j | 0 <= j < k :: slots[j].Busy?
    ensures PassStates(states, slots, budget)[k].loading && !PassStates(states, slots, budget)[k].cancelled
  {
    FrontIdleStarts(slots, budget, k);
  }

  /** The budget is per pass: with two requests already loading, a pass with a
      budget of two still starts a third. */
  lemma PassIgnoresRunningLoads(running: ConnState, idle: ConnState)
    requires running.loading && !running.cancelled && !idle.loading
    ensures var r := PassStates([running, running, idle], [Busy, Busy, IdleUncached], 2);
      r[0].loading && r[1].loading && r[2].loading && r[2].fetching
  {
    var slots := [Busy, Busy, IdleUncached];
    assert [Busy][..0] == [];
    assert Used([Busy], 2) == 0;
    assert [Busy, Busy][..1] == [Busy];
    assert Used([Busy, Busy], 2) == 0;
    assert slots[..2] == [Busy, Busy];
  }

  /** The states of the queued requests, in queue order. */
  ghost function StatesOf(q: seq<AsyncImageConnection>): (r: seq<ConnState>)
    reads q
    ensures |r| == |q|
  {
    seq(|q|, i requires 0 <= i < |q| reads q => q[i].State())
  }

  /** How an admission pass over `q` sees each entry, with cache contents `entries`. */
  ghost function SlotsOf(q: seq<AsyncImageConnection>, entries: map<Url, Image>): (r: seq<Slot>)
    reads q
    ensures |r| == |q|
  {
    seq(|q|, i requires 0 <= i < |q| reads q =>
      SlotOf(q[i].State(), if q[i].url.Some? then ResolveImage(q[i].platform, q[i].url.value, entries) else None))
  }

  /** A request inserted at `k`: the queue stays duplicate-free, and its states
      and slots are the old ones with the new request's in between. */
  lemma InsertedQueue(q: seq<AsyncImageConnection>, k: nat, c: AsyncImageConnection,
                      entries: map<Url, Image>)
    requires k <= |q| && Distinct(q) && c !in q
    ensures Distinct(q[..k] + [c] + q[k..])
    ensures forall j | 0 <= j < |q| + 1 :: (q[..k] + [c] + q[k..])[j] in q || (q[..k] + [c] + q[k..])[j] == c
    ensures StatesOf(q[..k] + [c] + q[k..]) == StatesOf(q)[..k] + [c.State()] + StatesOf(q)[k..]
    ensures SlotsOf(q[..k] + [c] + q[k..], entries) ==
      SlotsOf(q, entries)[..k]
        + [SlotOf(c.State(), if c.url.Some? then ResolveImage(c.platform, c.url.value, entries) else None)]
        + SlotsOf(q, entries)[k..]
  {
    var r := q[..k] + [c] + q[k..];
    forall i, j | 0 <= i < j < |r| ensures r[i] != r[j] {
      if j == k {
        assert r[i] in q;
      } else if i == k {
        assert r[j] in q;
      } else {
        var i' := if i < k then i else i - 1;
        var j' := if j < k then j else j - 1;
        assert r[i] == q[i'] && r[j] == q[j'] && i' < j';
      }
    }
    forall j | 0 <= j < |r| ensures r[j] in q || r[j] == c {
      if j < k { assert r[j] == q[j]; } else if j > k { assert r[j] == q[j - 1]; }
    }
  }

  /** The scan of `loadImageWithURL` stops at the first entry that is not
      loading, or runs to the end. */
  lemma FirstIdleAt(states: seq<ConnState>, i: nat)
    requires i <= |states|
    requires forall j | 0 <= j < i :: states[j].loading
    requires i < |states| ==> !states[i].loading
    ensures FirstIdle(states) == i
  {
  }
}
