/** Pod events, mapping changes, cache operations and any number of reconciles, interleaved:
    what the cache serves, and what reaches the diff, is always a full recompute. */
module CacheProtocol {
  import opened Model
  import opened DesiredState
  import opened Incremental
  import opened CacheState
  import opened PodHandler

  /** How far a reconcile has come in resolving the desired state. */
  datatype Stage =
    | Reading
    | Fenced(forced: bool, version: nat, epoch: nat)
    | Listed(forced: bool, version: nat, epoch: nat, arts: Artifacts)
    | Conflicted(forced: bool)
    | Retrying
    | Refenced(version: nat, epoch: nat)
    | Relisted(version: nat, epoch: nat, arts: Artifacts)
    | Resolved(arts: Artifacts)
    | AtDiff(arts: Artifacts)
    | Requeued

  /** A reconcile: the mapping object it read, the instant it started, its stage, and whether
      it took its state from a clobbered entry. */
  datatype Thread = Thread(m: Mapping, start: nat, stage: Stage, misled: bool)

  /** `history` holds the pod set of every instant so far, the current one last; `issued`
      every mapping object the API server ever stored; `clobbered` those that a clobbering pod
      event has hit since they were last published. */
  datatype World = World(
    history: seq<Pods>,
    live: map<Key, Mapping>,
    issued: set<Mapping>,
    clobbered: set<Mapping>,
    cache: Cache,
    threads: map<nat, Thread>)

  ghost predicate Started(w: World) {
    |w.history| > 0
  }

  ghost function Now(w: World): Pods
    requires Started(w)
  {
    w.history[|w.history| - 1]
  }

  /** `mappingStillCurrent`: the stored object still has this UID and generation. */
  ghost predicate Current(w: World, m: Mapping) {
    m.key in w.live && w.live[m.key].uid == m.uid && w.live[m.key].generation == m.generation
  }

  // ---------------------------------------------------------------- steps

  datatype Step =
    | PodEvent(e: Event, listed: Option<seq<Mapping>>)
    | StoreMapping(m: Mapping)
    | RemoveMapping(key: Key)
    | CacheOp(op: Op)
    | Start(tid: nat, m: Mapping)
    | Fence(tid: nat, forced: bool)
    | ListPods(tid: nat, arts: Artifacts)
    | TryPublish(tid: nat)
    | Reread(tid: nat)
    | Refence(tid: nat)
    | RelistPods(tid: nat, arts: Artifacts)
    | Republish(tid: nat)
    | Gate(tid: nat)
    | Abandon(tid: nat)

  /** The event fits the pod set it is about to change. */
  ghost predicate Fits(P: Pods, e: Event) {
    match e
    case Added(pod) => pod.id !in P
    case Updated(prior, next) => prior.id == next.id && next.id in P && P[next.id] == prior
    case Deleted(pod) => pod.id in P && P[pod.id] == pod
  }

  ghost function PodsAfter(P: Pods, e: Event): Pods {
    match e
    case Added(pod) => P[pod.id := pod]
    case Updated(_, next) => P[next.id := next]
    case Deleted(pod) => P - {pod.id}
  }

  /** The reaction of the mapping to the event takes a prefix from a target that still needs it. */
  ghost predicate Clobbers(m: Mapping, P: Pods, e: Event) {
    Concerns(m, e) &&
    match e
    case Added(_) => false
    case Deleted(pod) => DeleteClobbers(m, P - {pod.id}, pod)
    case Updated(prior, next) =>
      if MatchSet(m, next.labels) == {} then DeleteClobbers(m, P - {prior.id}, prior)
      else MatchSet(m, prior.labels) != {} && UpdateClobbers(m, P - {next.id}, ChangeOf(m, prior, next))
  }

  /** A listing of the live mappings of a namespace, in any order. */
  ghost predicate ListsNamespace(ms: seq<Mapping>, live: map<Key, Mapping>, namespace: string) {
    DistinctKeys(ms) &&
    (forall m :: m in ms ==> m.key.namespace == namespace && m.key in live && live[m.key] == m) &&
    (forall key :: key in live && key.namespace == namespace ==> live[key] in ms)
  }

  /** A stored object is new: a new generation of the live incarnation, or, when the name is
      free, an incarnation with a UID never used before. */
  ghost predicate Fresh(w: World, m: Mapping) {
    m.uid != "" && m.generation >= 1 &&
    if m.key in w.live then
      m.uid == w.live[m.key].uid && forall x :: x in w.issued && x.key == m.key && x.uid == m.uid ==> x.generation < m.generation
    else
      forall x :: x in w.issued && x.key == m.key ==> x.uid != m.uid
  }

  /** The artifacts are a full recompute over the pods of this instant. */
  ghost predicate Recomputed(arts: Artifacts, m: Mapping, P: Pods) {
    Tracks(arts, m, P) && Covers(arts.desired, [m], P)
  }

  /** The pods of the mapping's namespace, which is all a reconcile lists. */
  ghost function InScope(m: Mapping, P: Pods): Pods {
    map id | id in P && P[id].id.namespace == m.key.namespace :: P[id]
  }

  /** Listing only the namespace of the mapping computes the same artifacts. */
  lemma {:induction false} NamespaceListing(arts: Artifacts, m: Mapping, P: Pods)
    ensures Recomputed(arts, m, InScope(m, P)) <==> Recomputed(arts, m, P)
  {
    var Q := InScope(m, P);
    assert SamePods(m, Q, P);
    SameTracking(m, Q, P);
    SameCounters(m, Q, P);
    assert CountsAre(arts.counts, m, Q) <==> CountsAre(arts.counts, m, P);
    forall key ensures WantedByAny([m], Q, key) == WantedByAny([m], P, key) {
      assert KeyFeeders(m, Q, key) == KeyFeeders(m, P, key);
      WantedByAnyOne(m, Q, key);
      WantedByAnyOne(m, P, key);
    }
  }

  ghost predicate Enabled(w: World, s: Step) {
    Started(w) &&
    match s
    case PodEvent(e, listed) =>
      Fits(Now(w), e) && (listed.Some? ==> ListsNamespace(listed.value, w.live, NamespaceOf(e)))
    case StoreMapping(m) => Fresh(w, m)
    case RemoveMapping(key) => true
    case CacheOp(op) => op.Invalidate? || op.InvalidateNamespace? || op.DeleteKey?
    case Start(tid, m) => tid !in w.threads && m in w.issued && WellFormedRefs(m)
    case Fence(tid, _) => tid in w.threads && w.threads[tid].stage.Reading?
    case ListPods(tid, arts) => tid in w.threads && w.threads[tid].stage.Fenced? && Recomputed(arts, w.threads[tid].m, Now(w))
    case TryPublish(tid) => tid in w.threads && w.threads[tid].stage.Listed?
    case Reread(tid) => tid in w.threads && w.threads[tid].stage.Conflicted?
    case Refence(tid) => tid in w.threads && w.threads[tid].stage.Retrying?
    case RelistPods(tid, arts) => tid in w.threads && w.threads[tid].stage.Refenced? && Recomputed(arts, w.threads[tid].m, Now(w))
    case Republish(tid) => tid in w.threads && w.threads[tid].stage.Relisted?
    case Gate(tid) => tid in w.threads && w.threads[tid].stage.Resolved?
    case Abandon(tid) => tid in w.threads && !w.threads[tid].stage.AtDiff?
  }

  ghost function Move(w: World, tid: nat, stage: Stage): World
    requires tid in w.threads
  {
    w.(threads := w.threads[tid := w.threads[tid].(stage := stage)])
  }

  /** The cache serves the reconcile. */
  ghost function Hit(w: World, tid: nat): World
    requires tid in w.threads && Lookup(w.cache, w.threads[tid].m).Some?
  {
    var t := w.threads[tid];
    w.(threads := w.threads[tid := t.(stage := Resolved(Lookup(w.cache, t.m).value), misled := t.m in w.clobbered)])
  }

  /** A publish that commits. */
  ghost function Committed(w: World, m: Mapping, arts: Artifacts, version: nat, epoch: nat): World {
    w.(cache := Apply(w.cache, Publish(m, arts, version, epoch)), clobbered := w.clobbered - {m})
  }

  ghost function Do(w: World, s: Step): World
    requires Enabled(w, s)
  {
    match s
    case PodEvent(e, listed) =>
      w.(history := w.history + [PodsAfter(Now(w), e)], cache := Handle(w.cache, listed, e),
         clobbered := w.clobbered + set m | m in w.issued && Clobbers(m, Now(w), e))
    case StoreMapping(m) => w.(live := w.live[m.key := m], issued := w.issued + {m})
    case RemoveMapping(key) => w.(live := w.live - {key})
    case CacheOp(op) => w.(cache := Apply(w.cache, op))
    case Start(tid, m) => w.(threads := w.threads[tid := Thread(m, |w.history| - 1, Reading, false)])
    case Fence(tid, forced) =>
      var m := w.threads[tid].m;
      if !forced && Lookup(w.cache, m).Some? then Hit(w, tid)
      else Move(w, tid, Fenced(forced, Version(w.cache, m.key), Epoch(w.cache, m.key)))
    case ListPods(tid, arts) =>
      var f := w.threads[tid].stage;
      Move(w, tid, Listed(f.forced, f.version, f.epoch, arts))
    case TryPublish(tid) =>
      var m, f := w.threads[tid].m, w.threads[tid].stage;
      if Commits(w.cache, m, f.version, f.epoch) then
        Move(Committed(w, m, f.arts, f.version, f.epoch), tid, Resolved(f.arts))
      else Move(w, tid, Conflicted(f.forced))
    case Reread(tid) =>
      var m, f := w.threads[tid].m, w.threads[tid].stage;
      if !f.forced && Lookup(w.cache, m).Some? then Hit(w, tid)
      else Move(w, tid, Retrying)
    case Refence(tid) =>
      var m := w.threads[tid].m;
      Move(w, tid, Refenced(Version(w.cache, m.key), Epoch(w.cache, m.key)))
    case RelistPods(tid, arts) =>
      var f := w.threads[tid].stage;
      Move(w, tid, Relisted(f.version, f.epoch, arts))
    case Republish(tid) =>
      var m, f := w.threads[tid].m, w.threads[tid].stage;
      if Commits(w.cache, m, f.version, f.epoch) then
        Move(Committed(w, m, f.arts, f.version, f.epoch), tid, Resolved(f.arts))
      else Move(w, tid, Requeued)
    case Gate(tid) =>
      if Current(w, w.threads[tid].m) then Move(w, tid, AtDiff(w.threads[tid].stage.arts)) else Move(w, tid, Requeued)
    case Abandon(tid) => Move(w, tid, Requeued)
  }

  // ---------------------------------------------------------------- the invariant

  ghost predicate Registered(w: World) {
    (forall key :: key in w.live ==> w.live[key].key == key && w.live[key] in w.issued) &&
    (forall m :: m in w.issued ==> m.uid != "" && m.generation >= 1) &&
    (forall m, n :: m in w.issued && n in w.issued && Slot(m) == Slot(n) && m.uid == n.uid ==> m == n)
  }

  ghost predicate Filed(w: World) {
    forall ck :: ck in w.cache.entries ==>
      Slot(w.cache.entries[ck].mapping) == ck && w.cache.entries[ck].mapping in w.issued && WellFormedRefs(w.cache.entries[ck].mapping)
  }

  /** The entry of a current mapping that is not clobbered is the recompute of the pods of this instant. */
  ghost predicate EntryFresh(w: World, m: Mapping)
    requires Started(w)
  {
    OneSpelling(m) && m !in w.clobbered && Current(w, m) && Slot(m) in w.cache.entries && w.cache.entries[Slot(m)].mapping == m ==>
      Parity(w.cache.entries[Slot(m)].arts, m, Now(w))
  }

  /** The state is the recompute of the pods at some instant since the reconcile started. */
  ghost predicate Seen(w: World, t: Thread, arts: Artifacts) {
    exists n :: t.start <= n < |w.history| && Parity(arts, t.m, w.history[n])
  }

  /** While the fences of a listed recompute hold and its mapping is current, it is fresh. */
  ghost predicate FlightFresh(w: World, t: Thread, version: nat, epoch: nat, arts: Artifacts)
    requires Started(w)
  {
    OneSpelling(t.m) && Current(w, t.m) && version == Version(w.cache, t.m.key) && epoch == Epoch(w.cache, t.m.key) ==>
      Parity(arts, t.m, Now(w))
  }

  ghost predicate FencesBehind(w: World, t: Thread, version: nat, epoch: nat) {
    version <= Version(w.cache, t.m.key) && epoch <= Epoch(w.cache, t.m.key)
  }

  ghost predicate ThreadOk(w: World, t: Thread)
    requires Started(w)
  {
    t.m in w.issued && WellFormedRefs(t.m) && t.start < |w.history| && (t.misled ==> !RulesSeparated(t.m)) &&
    match t.stage
    case Fenced(_, version, epoch) => FencesBehind(w, t, version, epoch)
    case Refenced(version, epoch) => FencesBehind(w, t, version, epoch)
    case Listed(_, version, epoch, arts) =>
      FencesBehind(w, t, version, epoch) && FlightFresh(w, t, version, epoch, arts) && (OneSpelling(t.m) ==> Seen(w, t, arts))
    case Relisted(version, epoch, arts) =>
      FencesBehind(w, t, version, epoch) && FlightFresh(w, t, version, epoch, arts) && (OneSpelling(t.m) ==> Seen(w, t, arts))
    case Resolved(arts) => OneSpelling(t.m) && !t.misled && Current(w, t.m) ==> Seen(w, t, arts)
    case AtDiff(arts) => OneSpelling(t.m) && !t.misled ==> Seen(w, t, arts)
    case _ => true
  }

  ghost predicate Inv(w: World) {
    Started(w) && Keyed(Now(w)) && Registered(w) && Filed(w) &&
    (forall m :: m in w.clobbered ==> !RulesSeparated(m)) &&
    (forall m :: m in w.issued ==> EntryFresh(w, m)) &&
    (forall tid :: tid in w.threads ==> ThreadOk(w, w.threads[tid]))
  }

  // ---------------------------------------------------------------- what every step keeps

  /** The mapping is current and nothing fenced off its recomputes. */
  ghost predicate Quiet(w: World, w': World, m: Mapping) {
    Current(w, m) && Version(w'.cache, m.key) == Version(w.cache, m.key)
  }

  /** The world only moves forward: history grows, objects stay issued, a superseded mapping
      never becomes current again, fences rise, and while they do not rise for a current
      mapping, what was its recompute still is. */
  ghost predicate Advances(w: World, w': World)
    requires Started(w)
  {
    Started(w') && w.history <= w'.history && w.issued <= w'.issued &&
    (forall m :: m in w.issued && Current(w', m) ==> Current(w, m)) &&
    (forall key :: Version(w'.cache, key) >= Version(w.cache, key)) &&
    (forall key :: Epoch(w'.cache, key) >= Epoch(w.cache, key)) &&
    (forall m, arts :: m in w.issued && Quiet(w, w', m) && Parity(arts, m, Now(w)) ==> Parity(arts, m, Now(w')))
  }

  lemma {:induction false} ThreadAdvances(w: World, w': World, t: Thread)
    requires Started(w) && Advances(w, w') && ThreadOk(w, t)
    ensures ThreadOk(w', t)
  {
    SeenAdvances(w, w', t);
  }

  lemma {:induction false} SeenAdvances(w: World, w': World, t: Thread)
    requires Started(w) && Advances(w, w')
    ensures forall arts :: Seen(w, t, arts) ==> Seen(w', t, arts)
  {
    forall arts | Seen(w, t, arts) ensures Seen(w', t, arts) {
      var n :| t.start <= n < |w.history| && Parity(arts, t.m, w.history[n]);
      assert w'.history[n] == w.history[n];
    }
  }

  lemma {:induction false} CurrentIsLive(w: World, m: Mapping)
    requires Registered(w) && m in w.issued && Current(w, m)
    ensures w.live[m.key] == m
  {
    assert Slot(w.live[m.key]) == Slot(m);
  }

  /** What the cache serves for a current mapping that is not clobbered is the recompute of this instant. */
  lemma {:induction false} ServedIsFresh(w: World, m: Mapping)
    requires Inv(w) && m in w.issued && OneSpelling(m) && m !in w.clobbered && Current(w, m) && Lookup(w.cache, m).Some?
    ensures Parity(Lookup(w.cache, m).value, m, Now(w))
  {
    var entry := w.cache.entries[Slot(m)];
    assert entry.mapping == m;
    assert EntryFresh(w, m);
  }

  ghost predicate Grows(c: Cache, d: Cache) {
    (forall key :: Version(d, key) >= Version(c, key)) && (forall key :: Epoch(d, key) >= Epoch(c, key))
  }

  lemma {:induction false} ApplyGrows(c: Cache, op: Op)
    ensures Grows(c, Apply(c, op))
  {
    forall key { FencesGrow(c, op, key); }
  }

  /** The entries of `d` are entries of `c`, of the same mappings. */
  ghost predicate Refiles(c: Cache, d: Cache) {
    forall ck :: ck in d.entries ==> ck in c.entries && d.entries[ck].mapping == c.entries[ck].mapping
  }

  ghost predicate OnlyRemoves(c: Cache, d: Cache) {
    forall ck :: ck in d.entries ==> ck in c.entries && d.entries[ck] == c.entries[ck]
  }

  /** A step that leaves the pods alone advances the world. */
  lemma {:induction false} StillAdvances(w: World, w': World)
    requires Started(w) && w'.history == w.history && w.issued <= w'.issued && Grows(w.cache, w'.cache)
    requires forall m :: m in w.issued && Current(w', m) ==> Current(w, m)
    ensures Advances(w, w')
  {
  }

  /** Entries that are only removed stay fresh. */
  lemma {:induction false} EntriesStay(w: World, w': World)
    requires Inv(w) && w'.history == w.history && w'.issued == w.issued && w'.clobbered == w.clobbered
    requires forall m :: m in w.issued && Current(w', m) ==> Current(w, m)
    requires OnlyRemoves(w.cache, w'.cache)
    ensures forall m :: m in w'.issued ==> EntryFresh(w', m)
  {
    forall m | m in w'.issued ensures EntryFresh(w', m) {
      assert EntryFresh(w, m);
      assert Now(w') == Now(w);
    }
  }

  lemma {:induction false} ThreadsAdvance(w: World, w': World)
    requires Inv(w) && Advances(w, w')
    ensures forall tid :: tid in w.threads ==> ThreadOk(w', w.threads[tid])
  {
    forall tid | tid in w.threads ensures ThreadOk(w', w.threads[tid]) {
      assert ThreadOk(w, w.threads[tid]);
      ThreadAdvances(w, w', w.threads[tid]);
    }
  }

  lemma {:induction false} RefiledIsFiled(w: World, w': World)
    requires Filed(w) && Refiles(w.cache, w'.cache) && w.issued <= w'.issued
    ensures Filed(w')
  {
  }

  /** What remains to show of a step that moves no reconcile. */
  lemma {:induction false} EnvironmentKeeps(w: World, w': World)
    requires Inv(w) && Advances(w, w') && Keyed(Now(w')) && Registered(w') && Filed(w')
    requires forall m :: m in w'.issued ==> EntryFresh(w', m)
    requires w'.threads == w.threads && forall m :: m in w'.clobbered ==> !RulesSeparated(m)
    ensures Inv(w')
  {
    ThreadsAdvance(w, w');
  }

  // ---------------------------------------------------------------- steps of one reconcile

  /** A reconcile moves to a state whose claim holds. */
  lemma {:induction false} ThreadMoves(w: World, tid: nat, t: Thread)
    requires Inv(w) && tid in w.threads && ThreadOk(w, t)
    ensures Inv(w.(threads := w.threads[tid := t]))
  {
    var w' := w.(threads := w.threads[tid := t]);
    StillAdvances(w, w');
    EntriesStay(w, w');
    ThreadsAdvance(w, w');
    ThreadAdvances(w, w', t);
    assert Filed(w');
  }

  lemma {:induction false} MoveKeeps(w: World, tid: nat, stage: Stage)
    requires Inv(w) && tid in w.threads && ThreadOk(w, w.threads[tid].(stage := stage))
    ensures Inv(Move(w, tid, stage))
  {
    ThreadMoves(w, tid, w.threads[tid].(stage := stage));
  }

  /** A publish whose fences still hold stores a fresh recompute. */
  lemma {:induction false} PublishKeeps(w: World, m: Mapping, arts: Artifacts, version: nat, epoch: nat)
    requires Inv(w) && m in w.issued && WellFormedRefs(m) && Commits(w.cache, m, version, epoch)
    requires OneSpelling(m) && Current(w, m) ==> Parity(arts, m, Now(w))
    ensures Inv(Committed(w, m, arts, version, epoch))
  {
    PublishReplaces(w.cache, m, arts, version, epoch);
    ReplaceKeeps(w, Apply(w.cache, Publish(m, arts, version, epoch)), m, arts);
  }

  lemma {:induction false} PublishReplaces(c: Cache, m: Mapping, arts: Artifacts, version: nat, epoch: nat)
    requires Commits(c, m, version, epoch)
    ensures var d := Apply(c, Publish(m, arts, version, epoch));
            Grows(c, d) && forall ck :: ck in d.entries ==> EntryAt(d, ck) == if ck == Slot(m) then Some(Entry(m, arts)) else EntryAt(c, ck)
  {
    var d := AfterPublish(c, m, arts, version, epoch);
    ApplyGrows(c, Publish(m, arts, version, epoch));
    forall ck | ck in d.entries ensures EntryAt(d, ck) == (if ck == Slot(m) then Some(Entry(m, arts)) else EntryAt(c, ck)) {
      PublishedEntries(c, m, arts, version, epoch, ck);
    }
  }

  /** Storing one fresh entry, and otherwise only removing entries, keeps the invariant. */
  lemma {:induction false} ReplaceKeeps(w: World, c: Cache, m: Mapping, arts: Artifacts)
    requires Inv(w) && m in w.issued && WellFormedRefs(m) && Grows(w.cache, c)
    requires OneSpelling(m) && Current(w, m) ==> Parity(arts, m, Now(w))
    requires forall ck :: ck in c.entries ==> EntryAt(c, ck) == if ck == Slot(m) then Some(Entry(m, arts)) else EntryAt(w.cache, ck)
    ensures Inv(w.(cache := c, clobbered := w.clobbered - {m}))
  {
    var w' := w.(cache := c, clobbered := w.clobbered - {m});
    StillAdvances(w, w');
    assert Filed(w') by {
      forall ck | ck in c.entries
        ensures Slot(c.entries[ck].mapping) == ck && c.entries[ck].mapping in w.issued && WellFormedRefs(c.entries[ck].mapping)
      {
        assert EntryAt(c, ck) == if ck == Slot(m) then Some(Entry(m, arts)) else EntryAt(w.cache, ck);
      }
    }
    forall x | x in w'.issued ensures EntryFresh(w', x) {
      ReplacedFresh(w, c, m, arts, x);
    }
    EnvironmentKeeps(w, w');
  }

  lemma {:induction false} ReplacedFresh(w: World, c: Cache, m: Mapping, arts: Artifacts, x: Mapping)
    requires Started(w) && EntryFresh(w, x)
    requires OneSpelling(m) && Current(w, m) ==> Parity(arts, m, Now(w))
    requires Slot(x) in c.entries ==>
               EntryAt(c, Slot(x)) == if Slot(x) == Slot(m) then Some(Entry(m, arts)) else EntryAt(w.cache, Slot(x))
    ensures EntryFresh(w.(cache := c, clobbered := w.clobbered - {m}), x)
  {
  }

  /** The cached state resolves a reconcile: it is the recompute of this very instant. */
  lemma {:induction false} HitKeeps(w: World, tid: nat)
    requires Inv(w) && tid in w.threads && Lookup(w.cache, w.threads[tid].m).Some?
    ensures Inv(Hit(w, tid))
  {
    var t, arts := w.threads[tid], Lookup(w.cache, w.threads[tid].m).value;
    assert ThreadOk(w, t);
    if OneSpelling(t.m) && t.m !in w.clobbered && Current(w, t.m) {
      ServedIsFresh(w, t.m);
      assert w.history[|w.history| - 1] == Now(w);
      assert Seen(w, t, arts);
    }
    var t' := t.(stage := Resolved(arts), misled := t.m in w.clobbered);
    assert Seen(w, t, arts) ==> Seen(w, t', arts);
    ThreadMoves(w, tid, t');
  }

  /** A fresh listing is a recompute of this instant. */
  lemma {:induction false} RecomputeSeen(w: World, t: Thread, arts: Artifacts)
    requires Started(w) && t.start < |w.history| && Recomputed(arts, t.m, Now(w))
    ensures OneSpelling(t.m) ==> Seen(w, t, arts) && Parity(arts, t.m, Now(w))
  {
    if OneSpelling(t.m) {
      RecomputeParity(arts, t.m, Now(w));
      assert w.history[|w.history| - 1] == Now(w);
    }
  }

  lemma {:induction false} CommitKeeps(w: World, tid: nat, version: nat, epoch: nat, arts: Artifacts)
    requires Inv(w) && tid in w.threads && Commits(w.cache, w.threads[tid].m, version, epoch)
    requires FlightFresh(w, w.threads[tid], version, epoch, arts) && (OneSpelling(w.threads[tid].m) ==> Seen(w, w.threads[tid], arts))
    ensures Inv(Move(Committed(w, w.threads[tid].m, arts, version, epoch), tid, Resolved(arts)))
  {
    var t := w.threads[tid];
    assert ThreadOk(w, t);
    PublishKeeps(w, t.m, arts, version, epoch);
    var w' := Committed(w, t.m, arts, version, epoch);
    assert Seen(w, t, arts) ==> Seen(w', t, arts);
    MoveKeeps(w', tid, Resolved(arts));
  }

  ghost predicate FirstPass(s: Step) {
    s.Fence? || s.ListPods? || s.TryPublish?
  }

  lemma {:induction false} FirstPassKeeps(w: World, s: Step)
    requires Inv(w) && Enabled(w, s) && FirstPass(s)
    ensures Inv(Do(w, s))
  {
    var t := w.threads[s.tid];
    assert ThreadOk(w, t);
    match s
    case Fence(tid, forced) =>
      if !forced && Lookup(w.cache, t.m).Some? { HitKeeps(w, tid); } else {
        MoveKeeps(w, tid, Fenced(forced, Version(w.cache, t.m.key), Epoch(w.cache, t.m.key)));
      }
    case ListPods(tid, arts) =>
      RecomputeSeen(w, t, arts);
      MoveKeeps(w, tid, Listed(t.stage.forced, t.stage.version, t.stage.epoch, arts));
    case TryPublish(tid) =>
      if Commits(w.cache, t.m, t.stage.version, t.stage.epoch) {
        CommitKeeps(w, tid, t.stage.version, t.stage.epoch, t.stage.arts);
      } else {
        MoveKeeps(w, tid, Conflicted(t.stage.forced));
      }
  }

  ghost predicate SecondPass(s: Step) {
    s.Reread? || s.Refence? || s.RelistPods? || s.Republish?
  }

  lemma {:induction false} RereadKeeps(w: World, tid: nat)
    requires Inv(w) && Enabled(w, Reread(tid))
    ensures Inv(Do(w, Reread(tid)))
  {
    var t := w.threads[tid];
    assert ThreadOk(w, t);
    if !t.stage.forced && Lookup(w.cache, t.m).Some? { HitKeeps(w, tid); } else { MoveKeeps(w, tid, Retrying); }
  }

  lemma {:induction false} RepublishKeeps(w: World, tid: nat)
    requires Inv(w) && Enabled(w, Republish(tid))
    ensures Inv(Do(w, Republish(tid)))
  {
    var t := w.threads[tid];
    assert ThreadOk(w, t);
    if Commits(w.cache, t.m, t.stage.version, t.stage.epoch) {
      CommitKeeps(w, tid, t.stage.version, t.stage.epoch, t.stage.arts);
    } else {
      MoveKeeps(w, tid, Requeued);
    }
  }

  lemma {:induction false} SecondPassKeeps(w: World, s: Step)
    requires Inv(w) && Enabled(w, s) && SecondPass(s)
    ensures Inv(Do(w, s))
  {
    var t := w.threads[s.tid];
    assert ThreadOk(w, t);
    match s
    case Reread(tid) => RereadKeeps(w, tid);
    case Refence(tid) => MoveKeeps(w, tid, Refenced(Version(w.cache, t.m.key), Epoch(w.cache, t.m.key)));
    case RelistPods(tid, arts) =>
      RecomputeSeen(w, t, arts);
      MoveKeeps(w, tid, Relisted(t.stage.version, t.stage.epoch, arts));
    case Republish(tid) => RepublishKeeps(w, tid);
  }

  lemma {:induction false} GateKeeps(w: World, s: Step)
    requires Inv(w) && Enabled(w, s) && (s.Gate? || s.Abandon?)
    ensures Inv(Do(w, s))
  {
    var t := w.threads[s.tid];
    assert ThreadOk(w, t);
    if s.Gate? && Current(w, t.m) {
      MoveKeeps(w, s.tid, AtDiff(t.stage.arts));
    } else {
      MoveKeeps(w, s.tid, Requeued);
    }
  }

  // ---------------------------------------------------------------- the environment

  lemma {:induction false} StoreKeeps(w: World, m: Mapping)
    requires Inv(w) && Fresh(w, m)
    ensures Inv(Do(w, StoreMapping(m)))
  {
    var w' := Do(w, StoreMapping(m));
    FreshIsNew(w, m);
    StillAdvances(w, w');
    RefiledIsFiled(w, w');
    forall x | x in w'.issued ensures EntryFresh(w', x) {
      if x in w.issued { assert EntryFresh(w, x); }
    }
    EnvironmentKeeps(w, w');
  }

  /** A stored object supersedes the issued ones of its name and is none of them. */
  lemma {:induction false} FreshIsNew(w: World, m: Mapping)
    requires Inv(w) && Fresh(w, m)
    ensures m !in w.issued && Registered(Do(w, StoreMapping(m)))
    ensures forall x :: x in w.issued && Current(Do(w, StoreMapping(m)), x) ==> Current(w, x)
  {
    var w' := Do(w, StoreMapping(m));
    forall x | x in w.issued && x.key == m.key ensures !Current(w', x) {}
  }

  /** A step that only takes live mappings and entries away. */
  lemma {:induction false} RemovalKeeps(w: World, w': World)
    requires Inv(w) && w' == w.(live := w'.live, cache := w'.cache) && Grows(w.cache, w'.cache) && OnlyRemoves(w.cache, w'.cache)
    requires forall key :: key in w'.live ==> key in w.live && w'.live[key] == w.live[key]
    ensures Inv(w')
  {
    StillAdvances(w, w');
    EntriesStay(w, w');
    RefiledIsFiled(w, w');
    EnvironmentKeeps(w, w');
  }

  lemma {:induction false} RemoveKeeps(w: World, key: Key)
    requires Inv(w)
    ensures Inv(Do(w, RemoveMapping(key)))
  {
    RemovalKeeps(w, Do(w, RemoveMapping(key)));
  }

  lemma {:induction false} OpOnlyRemoves(c: Cache, op: Op)
    requires op.Invalidate? || op.InvalidateNamespace? || op.DeleteKey?
    ensures OnlyRemoves(c, Apply(c, op))
  {
  }

  lemma {:induction false} CacheOpKeeps(w: World, op: Op)
    requires Inv(w) && Enabled(w, CacheOp(op))
    ensures Inv(Do(w, CacheOp(op)))
  {
    ApplyGrows(w.cache, op);
    OpOnlyRemoves(w.cache, op);
    RemovalKeeps(w, Do(w, CacheOp(op)));
  }

  lemma {:induction false} StartKeeps(w: World, tid: nat, m: Mapping)
    requires Inv(w) && Enabled(w, Step.Start(tid, m))
    ensures Inv(Do(w, Step.Start(tid, m)))
  {
    var w' := Do(w, Step.Start(tid, m));
    StillAdvances(w, w');
    EntriesStay(w, w');
    ThreadsAdvance(w, w');
  }

  // ---------------------------------------------------------------- pod events

  lemma {:induction false} ReactGrows(c: Cache, m: Mapping, e: Event)
    ensures Grows(c, React(c, m, e)) && Refiles(c, React(c, m, e))
  {
    if Concerns(m, e) {
      AppliedGrows(c, Invalidate(m.key));
      if WellFormedRefs(m) {
        var d := OnEvent(c, m, AfterReaction(ArtsAt(c, m), m, e));
        ReactShape(c, m, e);
        EventGrows(c, m, AfterReaction(ArtsAt(c, m), m, e));
        AppliedGrows(d, Invalidate(m.key));
        GrowsTwice(c, d, Apply(d, Invalidate(m.key)));
      }
    }
  }

  lemma {:induction false} EventGrows(c: Cache, m: Mapping, after: Artifacts)
    ensures Grows(c, OnEvent(c, m, after)) && Refiles(c, OnEvent(c, m, after))
  {
    forall key ensures Version(OnEvent(c, m, after), key) >= Version(c, key) && Epoch(OnEvent(c, m, after), key) >= Epoch(c, key) {
      EventFences(c, m, after, key);
    }
  }

  lemma {:induction false} GrowsTwice(a: Cache, b: Cache, c: Cache)
    requires Grows(a, b) && Refiles(a, b) && Grows(b, c) && Refiles(b, c)
    ensures Grows(a, c) && Refiles(a, c)
  {
    forall key ensures Version(c, key) >= Version(a, key) && Epoch(c, key) >= Epoch(a, key) {
      assert Version(b, key) >= Version(a, key) && Epoch(b, key) >= Epoch(a, key);
    }
  }

  lemma {:induction false} AppliedGrows(c: Cache, op: Op)
    requires !op.Publish?
    ensures Grows(c, Apply(c, op)) && Refiles(c, Apply(c, op))
  {
    ApplyGrows(c, op);
  }

  lemma {:induction false} DispatchGrows(c: Cache, ms: seq<Mapping>, e: Event)
    ensures Grows(c, Dispatch(c, ms, e)) && Refiles(c, Dispatch(c, ms, e))
    decreases |ms|
  {
    if ms != [] {
      var before := Dispatch(c, ms[..|ms| - 1], e);
      DispatchGrows(c, ms[..|ms| - 1], e);
      ReactGrows(before, ms[|ms| - 1], e);
      GrowsTwice(c, before, Dispatch(c, ms, e));
    }
  }

  /** A mapping that is concerned raises the version of its key. */
  lemma {:induction false} ReactRaises(c: Cache, m: Mapping, e: Event)
    requires Concerns(m, e)
    ensures Version(React(c, m, e), m.key) > Version(c, m.key)
  {
    FencesGrow(c, Invalidate(m.key), m.key);
    if WellFormedRefs(m) {
      var after := AfterReaction(ArtsAt(c, m), m, e);
      ReactShape(c, m, e);
      EventFences(c, m, after, m.key);
      FencesGrow(OnEvent(c, m, after), Invalidate(m.key), m.key);
    }
  }

  /** An event that does not concern the mapping does not change its recompute. */
  lemma {:induction false} UnconcernedKeeps(arts: Artifacts, m: Mapping, P: Pods, e: Event)
    requires Fits(P, e) && Keyed(P) && Parity(arts, m, P)
    requires NamespaceOf(e) == m.key.namespace ==> !Concerns(m, e)
    ensures Parity(arts, m, PodsAfter(P, e))
  {
    var id := match e case Added(pod) => pod.id case Updated(_, next) => next.id case Deleted(pod) => pod.id;
    assert P - {id} == PodsAfter(P, e) - {id};
    IrrelevantPod(arts, m, P, PodsAfter(P, e), id);
  }

  lemma {:induction false} AddReacts(arts: Artifacts, m: Mapping, P: Pods, pod: Pod)
    requires Parity(arts, m, P) && pod.id.namespace == m.key.namespace
    requires pod.id in P ==> RulesOf(m, P[pod.id]) == {}
    ensures Parity(AfterAdd(arts, m, pod), m, P[pod.id := pod])
  {
    var Q := P - {pod.id};
    assert Parity(arts, m, Q) by {
      assert Q - {pod.id} == P - {pod.id};
      IrrelevantPod(arts, m, P, Q, pod.id);
    }
    assert Q[pod.id := pod] == P[pod.id := pod];
    AddKeepsParity(arts, m, Q, pod);
  }

  lemma {:induction false} LeaveReacts(arts: Artifacts, m: Mapping, P: Pods, prior: Pod, next: Pod)
    requires Parity(arts, m, P) && FitsUpdate(m, P, prior, next) && P[next.id] == prior
    requires MatchSet(m, next.labels) == {}
    ensures Parity(AfterDelete(arts, m, prior), m, P[next.id := next]) <==> !DeleteClobbers(m, P - {prior.id}, prior)
  {
    var b, gone := AfterDelete(arts, m, prior), P - {prior.id};
    DeleteKeepsParityIff(arts, m, P, prior);
    assert P[next.id := next] - {next.id} == gone - {next.id};
    if Parity(b, m, gone) {
      IrrelevantPod(b, m, gone, P[next.id := next], next.id);
    }
    if Parity(b, m, P[next.id := next]) {
      IrrelevantPod(b, m, P[next.id := next], gone, next.id);
    }
  }

  /** Whatever the event, artifacts that are a recompute stay one exactly when the event does
      not clobber them. */
  lemma {:induction false} ReactionKeepsParityIff(arts: Artifacts, m: Mapping, P: Pods, e: Event)
    requires Parity(arts, m, P) && Keyed(P) && Fits(P, e) && NamespaceOf(e) == m.key.namespace
    ensures Parity(AfterReaction(arts, m, e), m, PodsAfter(P, e)) <==> !Clobbers(m, P, e)
  {
    if !Concerns(m, e) {
      UnconcernedKeeps(arts, m, P, e);
    } else {
      match e
      case Added(pod) => AddReacts(arts, m, P, pod);
      case Deleted(pod) => DeleteKeepsParityIff(arts, m, P, pod);
      case Updated(prior, next) =>
        if MatchSet(m, next.labels) == {} {
          LeaveReacts(arts, m, P, prior, next);
        } else if MatchSet(m, prior.labels) == {} {
          AddReacts(arts, m, P, next);
        } else {
          UpdateKeepsParityIff(arts, m, P, prior, next);
        }
    }
  }

  /** So does the cached entry. */
  lemma {:induction false} ReactKeepsParityIff(c: Cache, m: Mapping, P: Pods, e: Event)
    requires Slot(m) in c.entries && Parity(c.entries[Slot(m)].arts, m, P) && Keyed(P)
    requires Fits(P, e) && NamespaceOf(e) == m.key.namespace && WellFormedRefs(m)
    ensures Slot(m) in React(c, m, e).entries
    ensures Parity(React(c, m, e).entries[Slot(m)].arts, m, PodsAfter(P, e)) <==> !Clobbers(m, P, e)
  {
    ReactIsReaction(c, m, e);
    ReactionKeepsParityIff(c.entries[Slot(m)].arts, m, P, e);
  }

  /** No event clobbers a mapping with no target shared by two rules. */
  lemma {:induction false} SeparatedNeverClobbers(m: Mapping, P: Pods, e: Event)
    requires RulesSeparated(m)
    ensures !Clobbers(m, P, e)
  {
    match e
    case Added(_) =>
    case Deleted(pod) => SeparatedNeverDeleteClobbers(m, P - {pod.id}, pod);
    case Updated(prior, next) =>
      SeparatedNeverDeleteClobbers(m, P - {prior.id}, prior);
      SeparatedNeverUpdateClobbers(m, P - {next.id}, ChangeOf(m, prior, next));
  }

  /** Handling an event raises fences only, and adds no entry. */
  lemma {:induction false} HandleGrows(c: Cache, listed: Option<seq<Mapping>>, e: Event)
    ensures Grows(c, Handle(c, listed, e)) && Refiles(c, Handle(c, listed, e))
  {
    if listed.None? {
      AppliedGrows(c, InvalidateNamespace(NamespaceOf(e)));
    } else {
      DispatchGrows(c, listed.value, e);
    }
  }

  /** On the key of a live mapping of the event's namespace, handling is that mapping's reaction. */
  lemma {:induction false} HandleAt(w: World, listed: Option<seq<Mapping>>, e: Event, m: Mapping)
    requires listed.Some? ==> ListsNamespace(listed.value, w.live, NamespaceOf(e))
    requires m.key in w.live && w.live[m.key] == m && listed.Some? && NamespaceOf(e) == m.key.namespace
    ensures SameAt(React(w.cache, m, e), Handle(w.cache, listed, e), m.key)
  {
    assert m in listed.value;
    var n :| 0 <= n < |listed.value| && listed.value[n] == m;
    DispatchAt(w.cache, listed.value, e, n);
  }

  /** Keys of other namespaces are untouched. */
  lemma {:induction false} HandleElsewhere(w: World, listed: Option<seq<Mapping>>, e: Event, key: Key)
    requires listed.Some? ==> ListsNamespace(listed.value, w.live, NamespaceOf(e))
    requires NamespaceOf(e) != key.namespace
    ensures SameAt(w.cache, Handle(w.cache, listed, e), key)
  {
    if listed.Some? {
      DispatchElsewhere(w.cache, listed.value, e, key);
    } else {
      var c := w.cache;
      assert Doomed(c, NamespaceOf(e), key) == {};
    }
  }

  /** An event that leaves the version of a current mapping alone leaves its recompute alone. */
  lemma {:induction false} QuietEventKeeps(w: World, listed: Option<seq<Mapping>>, e: Event, m: Mapping, arts: Artifacts)
    requires Inv(w) && Enabled(w, PodEvent(e, listed)) && m in w.issued && Parity(arts, m, Now(w))
    requires Quiet(w, Do(w, PodEvent(e, listed)), m)
    ensures Parity(arts, m, PodsAfter(Now(w), e))
  {
    CurrentIsLive(w, m);
    if NamespaceOf(e) == m.key.namespace && Concerns(m, e) {
      if listed.None? {
        FencesGrow(w.cache, InvalidateNamespace(NamespaceOf(e)), m.key);
      } else {
        HandleAt(w, listed, e, m);
        ReactRaises(w.cache, m, e);
      }
      assert false;
    }
    UnconcernedKeeps(arts, m, Now(w), e);
  }

  lemma {:induction false} EventEntryFresh(w: World, listed: Option<seq<Mapping>>, e: Event, m: Mapping)
    requires Enabled(w, PodEvent(e, listed)) && Keyed(Now(w)) && Registered(w) && Filed(w) && m in w.issued && EntryFresh(w, m)
    ensures EntryFresh(Do(w, PodEvent(e, listed)), m)
  {
    var w' := Do(w, PodEvent(e, listed));
    if OneSpelling(m) && m !in w'.clobbered && Current(w', m) && Slot(m) in w'.cache.entries && w'.cache.entries[Slot(m)].mapping == m {
      assert Refiles(w.cache, w'.cache) by { HandleGrows(w.cache, listed, e); }
      assert Current(w, m);
      EventKeepsEntry(w, listed, e, m);
      assert Now(w') == PodsAfter(Now(w), e);
    }
  }

  /** A fresh entry that survives the event is fresh for the pods after it. */
  lemma {:induction false} EventKeepsEntry(w: World, listed: Option<seq<Mapping>>, e: Event, m: Mapping)
    requires Enabled(w, PodEvent(e, listed)) && Keyed(Now(w)) && Registered(w) && Filed(w)
    requires m in w.issued && !Clobbers(m, Now(w), e) && Current(w, m)
    requires EntryAt(w.cache, Slot(m)).Some? && EntryAt(w.cache, Slot(m)).value.mapping == m
    requires EntryAt(Handle(w.cache, listed, e), Slot(m)).Some?
    requires Parity(w.cache.entries[Slot(m)].arts, m, Now(w))
    ensures Parity(EntryAt(Handle(w.cache, listed, e), Slot(m)).value.arts, m, PodsAfter(Now(w), e))
  {
    CurrentIsLive(w, m);
    if NamespaceOf(e) != m.key.namespace {
      HandleElsewhere(w, listed, e, m.key);
      assert EntryAt(w.cache, Slot(m)) == EntryAt(Handle(w.cache, listed, e), Slot(m));
      UnconcernedKeeps(w.cache.entries[Slot(m)].arts, m, Now(w), e);
    } else if listed.Some? {
      HandleAt(w, listed, e, m);
      assert EntryAt(React(w.cache, m, e), Slot(m)) == EntryAt(Handle(w.cache, listed, e), Slot(m));
      ReactKeepsParityIff(w.cache, m, Now(w), e);
    }
  }

  lemma {:induction false} PodEventKeeps(w: World, e: Event, listed: Option<seq<Mapping>>)
    requires Inv(w) && Enabled(w, PodEvent(e, listed))
    ensures Inv(Do(w, PodEvent(e, listed)))
  {
    var w' := Do(w, PodEvent(e, listed));
    assert Now(w') == PodsAfter(Now(w), e);
    HandleGrows(w.cache, listed, e);
    forall m, arts | m in w.issued && Quiet(w, w', m) && Parity(arts, m, Now(w)) ensures Parity(arts, m, Now(w')) {
      QuietEventKeeps(w, listed, e, m, arts);
    }
    assert Advances(w, w');
    forall m | m in w'.issued ensures EntryFresh(w', m) {
      assert EntryFresh(w, m);
      EventEntryFresh(w, listed, e, m);
    }
    assert Keyed(Now(w')) by { KeyedAfter(Now(w), e); }
    forall m | m in w'.clobbered ensures !RulesSeparated(m) {
      if RulesSeparated(m) {
        SeparatedNeverClobbers(m, Now(w), e);
      }
    }
    RefiledIsFiled(w, w');
    EnvironmentKeeps(w, w');
  }

  lemma {:induction false} KeyedAfter(P: Pods, e: Event)
    requires Keyed(P) && Fits(P, e)
    ensures Keyed(PodsAfter(P, e))
  {
  }

  // ---------------------------------------------------------------- whole runs

  lemma {:induction false} StepKeeps(w: World, s: Step)
    requires Inv(w) && Enabled(w, s)
    ensures Inv(Do(w, s))
  {
    if FirstPass(s) {
      FirstPassKeeps(w, s);
    } else if SecondPass(s) {
      SecondPassKeeps(w, s);
    } else if s.Gate? || s.Abandon? {
      GateKeeps(w, s);
    } else {
      match s
      case PodEvent(e, listed) => PodEventKeeps(w, e, listed);
      case StoreMapping(m) => StoreKeeps(w, m);
      case RemoveMapping(key) => RemoveKeeps(w, key);
      case CacheOp(op) => CacheOpKeeps(w, op);
      case Start(tid, m) => StartKeeps(w, tid, m);
    }
  }

  /** The worlds of a run: it starts empty and every step is enabled. */
  ghost predicate IsRun(ws: seq<World>, steps: seq<Step>) {
    |ws| == |steps| + 1 &&
    ws[0] == World([map[]], map[], {}, {}, EMPTY, map[]) &&
    forall i :: 0 <= i < |steps| ==> Enabled(ws[i], steps[i]) && ws[i + 1] == Do(ws[i], steps[i])
  }

  lemma {:induction false} RunInv(ws: seq<World>, steps: seq<Step>, n: nat)
    requires IsRun(ws, steps) && n < |ws|
    ensures Inv(ws[n])
  {
    if n > 0 {
      RunInv(ws, steps, n - 1);
      StepKeeps(ws[n - 1], steps[n - 1]);
    }
  }

  /** In every run, at every instant, what the cache serves for a live mapping that no event has
      clobbered since it was published equals the full recompute over the current pods, in
      every derived field. */
  lemma {:induction false} CacheServesRecompute(ws: seq<World>, steps: seq<Step>, n: nat, m: Mapping)
    requires IsRun(ws, steps) && n < |ws|
    requires m.key in ws[n].live && ws[n].live[m.key] == m && Lookup(ws[n].cache, m).Some?
    requires OneSpelling(m) && m !in ws[n].clobbered
    ensures Started(ws[n]) && Parity(Lookup(ws[n].cache, m).value, m, Now(ws[n]))
  {
    RunInv(ws, steps, n);
    ServedIsFresh(ws[n], m);
  }

  /** In every run, whichever path a reconcile took, the state it brings to the diff is the
      full recompute over the pods of some instant since that reconcile started, unless it took
      it from a clobbered entry. */
  lemma {:induction false} DiffSeesRecompute(ws: seq<World>, steps: seq<Step>, n: nat, tid: nat)
    requires IsRun(ws, steps) && n < |ws|
    requires tid in ws[n].threads && ws[n].threads[tid].stage.AtDiff?
    requires OneSpelling(ws[n].threads[tid].m) && !ws[n].threads[tid].misled
    ensures Seen(ws[n], ws[n].threads[tid], ws[n].threads[tid].stage.arts)
  {
    RunInv(ws, steps, n);
    assert ThreadOk(ws[n], ws[n].threads[tid]);
  }

  /** In no run is a mapping with separated rules clobbered, or a reconcile of one misled. */
  lemma {:induction false} SeparatedAreSafe(ws: seq<World>, steps: seq<Step>, n: nat)
    requires IsRun(ws, steps) && n < |ws|
    ensures forall m :: m in ws[n].clobbered ==> !RulesSeparated(m)
    ensures forall tid :: tid in ws[n].threads && ws[n].threads[tid].misled ==> !RulesSeparated(ws[n].threads[tid].m)
  {
    RunInv(ws, steps, n);
    forall tid | tid in ws[n].threads && ws[n].threads[tid].misled ensures !RulesSeparated(ws[n].threads[tid].m) {
      assert ThreadOk(ws[n], ws[n].threads[tid]);
    }
  }
}
