/** Dispatch of pod events to cache operations. */
module PodHandler {
  import opened Model
  import opened DesiredState
  import opened Incremental
  import opened CacheState
  import DesiredStateCache

  function NamespaceOf(e: Event): string {
    match e
    case Added(pod) => pod.id.namespace
    case Updated(prior, next) => prior.id.namespace
    case Deleted(pod) => pod.id.namespace
  }

  /** The mapping matches the pod before or after the event. */
  predicate Concerns(m: Mapping, e: Event) {
    match e
    case Added(pod) => MatchSet(m, pod.labels) != {}
    case Updated(prior, next) => MatchSet(m, prior.labels) != {} || MatchSet(m, next.labels) != {}
    case Deleted(pod) => MatchSet(m, pod.labels) != {}
  }

  /** What one listed mapping does to the cache: nothing if it does not match the pod, an
      invalidation if its spec is invalid, else the incremental operation. */
  ghost function React(c: Cache, m: Mapping, e: Event): Cache {
    if !Concerns(m, e) then c
    else if !WellFormedRefs(m) then Apply(c, Invalidate(m.key))
    else match e
      case Added(pod) => Apply(c, AddPod(m, pod))
      case Deleted(pod) => Apply(c, DeletePod(m, pod))
      case Updated(prior, next) =>
        if MatchSet(m, next.labels) == {} then Apply(c, DeletePod(m, prior))
        else if MatchSet(m, prior.labels) == {} then Apply(c, AddPod(m, next))
        else if UpdateAccepted(c, m) then Apply(c, UpdatePod(m, prior, next))
        else Apply(Apply(c, UpdatePod(m, prior, next)), Invalidate(m.key))
  }

  ghost function Dispatch(c: Cache, ms: seq<Mapping>, e: Event): Cache
    decreases |ms|
  {
    if ms == [] then c else React(Dispatch(c, ms[..|ms| - 1], e), ms[|ms| - 1], e)
  }

  /** The handler: `None` means the mappings of the namespace could not be listed. */
  ghost function Handle(c: Cache, listed: Option<seq<Mapping>>, e: Event): Cache {
    if listed.None? then Apply(c, InvalidateNamespace(NamespaceOf(e))) else Dispatch(c, listed.value, e)
  }

  class PodToMappingEventHandler {
    const cache: DesiredStateCache.DesiredStateCache

    constructor (cache: DesiredStateCache.DesiredStateCache)
      ensures this.cache == cache
    {
      this.cache := cache;
    }

    /** Applies one event to every listed mapping it concerns. */
    method On(listed: Option<seq<Mapping>>, e: Event)
      modifies cache
      ensures cache.View() == Handle(old(cache.View()), listed, e)
    {
      if listed.None? {
        cache.InvalidateNamespace(NamespaceOf(e));
        return;
      }
      var ms := listed.value;
      for k := 0 to |ms|
        invariant cache.View() == Dispatch(old(cache.View()), ms[..k], e)
      {
        assert ms[..k + 1][..k] == ms[..k];
        OnOne(ms[k], e);
      }
      assert ms[..|ms|] == ms;
    }

    method OnOne(m: Mapping, e: Event)
      modifies cache
      ensures cache.View() == React(old(cache.View()), m, e)
    {
      if !Concerns(m, e) {
        return;
      }
      if !WellFormedRefs(m) {
        cache.Invalidate(m.key);
        return;
      }
      match e
      case Added(pod) => cache.OnPodAdd(m, pod);
      case Deleted(pod) => cache.OnPodDelete(m, pod);
      case Updated(prior, next) =>
        if MatchSet(m, next.labels) == {} {
          cache.OnPodDelete(m, prior);
        } else if MatchSet(m, prior.labels) == {} {
          cache.OnPodAdd(m, next);
        } else {
          var ok := cache.OnPodUpdate(m, prior, next);
          if !ok {
            cache.Invalidate(m.key);
          }
        }
    }
  }

  // ---------------------------------------------------------------- the reaction of a mapping

  /** What an event does to the cached artifacts of a mapping. */
  ghost function AfterReaction(a: Artifacts, m: Mapping, e: Event): Artifacts {
    if !Concerns(m, e) then a
    else match e
      case Added(pod) => AfterAdd(a, m, pod)
      case Deleted(pod) => AfterDelete(a, m, pod)
      case Updated(prior, next) =>
        if MatchSet(m, next.labels) == {} then AfterDelete(a, m, prior)
        else if MatchSet(m, prior.labels) == {} then AfterAdd(a, m, next)
        else AfterUpdate(a, m, prior, next)
  }

  /** The update finds only another generation cached. */
  predicate Refused(c: Cache, m: Mapping, e: Event) {
    e.Updated? && MatchSet(m, e.prior.labels) != {} && MatchSet(m, e.next.labels) != {} && !UpdateAccepted(c, m)
  }

  /** Every reaction bumps the version and mutates the entry; a refused one then invalidates. */
  lemma {:induction false} ReactShape(c: Cache, m: Mapping, e: Event)
    requires Concerns(m, e) && WellFormedRefs(m)
    ensures var d := OnEvent(c, m, AfterReaction(ArtsAt(c, m), m, e));
            React(c, m, e) == if Refused(c, m, e) then Apply(d, Invalidate(m.key)) else d
  {
  }

  /** The entry of a mapping undergoes the reaction. */
  lemma {:induction false} ReactIsReaction(c: Cache, m: Mapping, e: Event)
    requires Slot(m) in c.entries && WellFormedRefs(m)
    ensures EntryAt(React(c, m, e), Slot(m)) == Some(c.entries[Slot(m)].(arts := AfterReaction(c.entries[Slot(m)].arts, m, e)))
  {
    if Concerns(m, e) {
      ReactShape(c, m, e);
      EventEntry(c, m, AfterReaction(ArtsAt(c, m), m, e), Slot(m));
    }
  }

  ghost predicate Unselected(m: Mapping, pod: Pod) {
    forall rule :: rule in m.rules ==> !Selects(rule.selector, pod.labels)
  }

  /** A pod that no rule selects, before or after, leaves cache and fences alone. */
  lemma {:induction false} UnselectedIsSilent(c: Cache, m: Mapping, e: Event)
    requires match e
             case Added(pod) => Unselected(m, pod)
             case Deleted(pod) => Unselected(m, pod)
             case Updated(prior, next) => Unselected(m, prior) && Unselected(m, next)
    ensures React(c, m, e) == c
  {
  }

  // ---------------------------------------------------------------- locality

  function EntryAt(c: Cache, ck: CacheKey): Option<Entry> {
    if ck in c.entries then Some(c.entries[ck]) else None
  }

  /** The two caches agree on everything the fences and entries of `key` hold. */
  ghost predicate SameAt(c: Cache, d: Cache, key: Key) {
    Version(c, key) == Version(d, key) && Epoch(c, key) == Epoch(d, key) &&
    forall ck: CacheKey :: ck.key == key ==> EntryAt(c, ck) == EntryAt(d, ck)
  }

  lemma {:induction false} EventEntry(c: Cache, m: Mapping, after: Artifacts, ck: CacheKey)
    ensures EntryAt(OnEvent(c, m, after), ck) ==
            if ck == Slot(m) && ck in c.entries then Some(c.entries[ck].(arts := after)) else EntryAt(c, ck)
  {
  }

  lemma {:induction false} EventElsewhere(c: Cache, m: Mapping, after: Artifacts, key: Key)
    requires m.key != key
    ensures SameAt(c, OnEvent(c, m, after), key)
  {
    EventFences(c, m, after, key);
    forall ck: CacheKey | ck.key == key ensures EntryAt(c, ck) == EntryAt(OnEvent(c, m, after), ck) {
      EventEntry(c, m, after, ck);
    }
  }

  lemma {:induction false} EvictElsewhere(c: Cache, key: Key, other: Key)
    requires key != other
    ensures SameAt(c, Apply(c, Invalidate(other)), key)
  {
  }

  lemma {:induction false} SameAtTransitive(a: Cache, b: Cache, c: Cache, key: Key)
    requires SameAt(a, b, key) && SameAt(b, c, key)
    ensures SameAt(a, c, key)
  {
  }

  /** Reacting touches only the mapping's own key. */
  lemma {:induction false} ReactElsewhere(c: Cache, m: Mapping, e: Event, key: Key)
    requires m.key != key
    ensures SameAt(c, React(c, m, e), key)
  {
    if Concerns(m, e) {
      if WellFormedRefs(m) {
        var after := AfterReaction(ArtsAt(c, m), m, e);
        ReactShape(c, m, e);
        EventElsewhere(c, m, after, key);
        EvictElsewhere(OnEvent(c, m, after), key, m.key);
        SameAtTransitive(c, OnEvent(c, m, after), React(c, m, e), key);
      } else {
        EvictElsewhere(c, key, m.key);
      }
    }
  }

  lemma {:induction false} EventCongruent(c: Cache, d: Cache, m: Mapping, after: Artifacts)
    requires SameAt(c, d, m.key)
    ensures SameAt(OnEvent(c, m, after), OnEvent(d, m, after), m.key)
  {
    EventFences(c, m, after, m.key);
    EventFences(d, m, after, m.key);
    forall ck: CacheKey | ck.key == m.key ensures EntryAt(OnEvent(c, m, after), ck) == EntryAt(OnEvent(d, m, after), ck) {
      EventEntry(c, m, after, ck);
      EventEntry(d, m, after, ck);
    }
  }

  lemma {:induction false} EvictCongruent(c: Cache, d: Cache, key: Key)
    requires SameAt(c, d, key)
    ensures SameAt(Apply(c, Invalidate(key)), Apply(d, Invalidate(key)), key)
  {
  }

  lemma {:induction false} AcceptCongruent(c: Cache, d: Cache, m: Mapping)
    requires SameAt(c, d, m.key)
    ensures UpdateAccepted(c, m) == UpdateAccepted(d, m) && ArtsAt(c, m) == ArtsAt(d, m)
  {
    assert Slot(m).key == m.key;
    assert EntryAt(c, Slot(m)) == EntryAt(d, Slot(m));
    if ck :| ck in c.entries && ck.key == m.key { assert EntryAt(c, ck) == EntryAt(d, ck); }
    if ck :| ck in d.entries && ck.key == m.key { assert EntryAt(c, ck) == EntryAt(d, ck); }
  }

  /** Reacting depends only on the mapping's own key. */
  lemma {:induction false} ReactCongruent(c: Cache, d: Cache, m: Mapping, e: Event)
    requires SameAt(c, d, m.key)
    ensures SameAt(React(c, m, e), React(d, m, e), m.key)
  {
    if Concerns(m, e) {
      if WellFormedRefs(m) {
        AcceptCongruent(c, d, m);
        var after := AfterReaction(ArtsAt(c, m), m, e);
        ReactShape(c, m, e);
        ReactShape(d, m, e);
        EventCongruent(c, d, m, after);
        EvictCongruent(OnEvent(c, m, after), OnEvent(d, m, after), m.key);
      } else {
        EvictCongruent(c, d, m.key);
      }
    }
  }

  ghost predicate DistinctKeys(ms: seq<Mapping>) {
    forall a, b :: 0 <= a < b < |ms| ==> ms[a].key != ms[b].key
  }

  lemma {:induction false} DispatchElsewhere(c: Cache, ms: seq<Mapping>, e: Event, key: Key)
    requires forall m :: m in ms ==> m.key != key
    ensures SameAt(c, Dispatch(c, ms, e), key)
    decreases |ms|
  {
    if ms != [] {
      var front, last := ms[..|ms| - 1], ms[|ms| - 1];
      DispatchElsewhere(c, front, e, key);
      assert last in ms;
      ReactElsewhere(Dispatch(c, front, e), last, e, key);
      SameAtTransitive(c, Dispatch(c, front, e), Dispatch(c, ms, e), key);
    }
  }

  /** For each listed mapping, dispatching to all of them is, on its key, reacting alone. */
  lemma {:induction false} DispatchAt(c: Cache, ms: seq<Mapping>, e: Event, n: nat)
    requires DistinctKeys(ms) && n < |ms|
    ensures SameAt(React(c, ms[n], e), Dispatch(c, ms, e), ms[n].key)
    decreases |ms|
  {
    var front, last := ms[..|ms| - 1], ms[|ms| - 1];
    var before := Dispatch(c, front, e);
    if n == |front| {
      DispatchElsewhere(c, front, e, last.key);
      ReactCongruent(c, before, last, e);
    } else {
      DispatchAt(c, front, e, n);
      ReactElsewhere(before, last, e, ms[n].key);
      SameAtTransitive(React(c, ms[n], e), before, Dispatch(c, ms, e), ms[n].key);
    }
  }
}
