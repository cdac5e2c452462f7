/** The cache as a value: its maps, its fences, and each operation as a transition. */
module CacheState {
  import opened Model
  import opened DesiredState
  import opened Incremental

  datatype CacheKey = CacheKey(key: Key, generation: int)

  datatype Entry = Entry(mapping: Mapping, arts: Artifacts)

  datatype Cache = Cache(
    entries: map<CacheKey, Entry>,
    keyVersions: map<Key, nat>,
    namespaceEpoch: map<string, nat>,
    lifecycleEpoch: map<Key, nat>,
    knownGenerations: map<Key, set<int>>,
    latestGeneration: map<Key, int>)

  const EMPTY := Cache(map[], map[], map[], map[], map[], map[])

  function Count<K>(counts: map<K, nat>, k: K): nat {
    if k in counts then counts[k] else 0
  }

  function Inc<K>(counts: map<K, nat>, k: K): map<K, nat> {
    counts[k := Count(counts, k) + 1]
  }

  /** The mutation fence of a key: its own version plus the epoch of its namespace. */
  function Version(c: Cache, key: Key): nat {
    Count(c.keyVersions, key) + Count(c.namespaceEpoch, key.namespace)
  }

  /** The lifecycle fence of a key. */
  function Epoch(c: Cache, key: Key): nat {
    Count(c.lifecycleEpoch, key)
  }

  function Slot(m: Mapping): CacheKey {
    CacheKey(m.key, m.generation)
  }

  predicate HasEntry(c: Cache, key: Key) {
    exists ck :: ck in c.entries && ck.key == key
  }

  /** `OnPodUpdate` refuses only when the key is cached at another generation alone. */
  predicate UpdateAccepted(c: Cache, m: Mapping) {
    Slot(m) in c.entries || !HasEntry(c, m.key)
  }

  /** What the cache would serve for `m`: the entry of its generation, unless it belongs to
      another incarnation of the same name. */
  function Lookup(c: Cache, m: Mapping): Option<Artifacts> {
    if Slot(m) !in c.entries then None
    else if m.uid != "" && c.entries[Slot(m)].mapping.uid != m.uid then None
    else Some(c.entries[Slot(m)].arts)
  }

  function Evict(entries: map<CacheKey, Entry>, key: Key): map<CacheKey, Entry> {
    map ck | ck in entries && ck.key != key :: entries[ck]
  }

  datatype Op =
    | AddPod(m: Mapping, pod: Pod)
    | DeletePod(m: Mapping, pod: Pod)
    | UpdatePod(m: Mapping, prior: Pod, next: Pod)
    | Invalidate(key: Key)
    | InvalidateNamespace(namespace: string)
    | DeleteKey(key: Key)
    | Publish(m: Mapping, arts: Artifacts, version: nat, epoch: nat)

  /** A pod event bumps the version of the mapping and, if its generation is cached, mutates
      the entry. */
  ghost function OnEvent(c: Cache, m: Mapping, after: Artifacts): Cache {
    c.(keyVersions := Inc(c.keyVersions, m.key), entries := Mutated(c.entries, Slot(m), after))
  }

  function Mutated(entries: map<CacheKey, Entry>, slot: CacheKey, after: Artifacts): (r: map<CacheKey, Entry>)
    ensures r.Keys == entries.Keys
    ensures forall ck :: ck in entries ==> r[ck].mapping == entries[ck].mapping
  {
    if slot in entries then entries[slot := entries[slot].(arts := after)] else entries
  }

  function ArtsAt(c: Cache, m: Mapping): Artifacts {
    if Slot(m) in c.entries then c.entries[Slot(m)].arts else Artifacts(map[], map[], [], false, map[], 0)
  }

  /** The entries of `key` that invalidating a namespace removes. */
  function Doomed(c: Cache, namespace: string, key: Key): set<CacheKey> {
    set ck | ck in c.entries && ck.key.namespace == namespace && ck.key == key
  }

  function AfterInvalidateNamespace(c: Cache, namespace: string): Cache {
    c.(namespaceEpoch := Inc(c.namespaceEpoch, namespace),
       keyVersions := map key | key in c.keyVersions.Keys + (set ck | ck in c.entries && ck.key.namespace == namespace :: ck.key) ::
         Count(c.keyVersions, key) + |Doomed(c, namespace, key)|,
       entries := map ck | ck in c.entries && ck.key.namespace != namespace :: c.entries[ck])
  }

  /** The compare-and-set of a publish: both fences unchanged, no entry of another
      incarnation, and no newer generation committed. */
  predicate Commits(c: Cache, m: Mapping, version: nat, epoch: nat) {
    epoch == Epoch(c, m.key) &&
    version == Version(c, m.key) &&
    !(Slot(m) in c.entries && m.uid != "" && c.entries[Slot(m)].mapping.uid != m.uid) &&
    !(m.key in c.latestGeneration && m.generation < c.latestGeneration[m.key])
  }

  function Latest(c: Cache, key: Key): int {
    if key in c.latestGeneration then c.latestGeneration[key] else 0
  }

  /** The entries without those of older generations of the mapping's key. */
  function PruneOlder(entries: map<CacheKey, Entry>, m: Mapping): map<CacheKey, Entry> {
    map ck | ck in entries && !(ck.key == m.key && ck.generation < m.generation) :: entries[ck]
  }

  function AfterPublish(c: Cache, m: Mapping, arts: Artifacts, version: nat, epoch: nat): Cache {
    if !Commits(c, m, version, epoch) then c else
      var known := (if m.key in c.knownGenerations then c.knownGenerations[m.key] else {}) + {m.generation};
      var stored := c.(entries := c.entries[Slot(m) := Entry(m, arts)], knownGenerations := c.knownGenerations[m.key := known]);
      if m.generation > Latest(c, m.key) then
        stored.(latestGeneration := c.latestGeneration[m.key := m.generation],
                entries := PruneOlder(stored.entries, m))
      else stored
  }

  ghost function Apply(c: Cache, op: Op): Cache {
    match op
    case AddPod(m, pod) => OnEvent(c, m, AfterAdd(ArtsAt(c, m), m, pod))
    case DeletePod(m, pod) => OnEvent(c, m, AfterDelete(ArtsAt(c, m), m, pod))
    case UpdatePod(m, prior, next) => OnEvent(c, m, AfterUpdate(ArtsAt(c, m), m, prior, next))
    case Invalidate(key) => c.(keyVersions := Inc(c.keyVersions, key), entries := Evict(c.entries, key))
    case InvalidateNamespace(namespace) => AfterInvalidateNamespace(c, namespace)
    case DeleteKey(key) =>
      c.(lifecycleEpoch := Inc(c.lifecycleEpoch, key), keyVersions := Inc(c.keyVersions, key),
         entries := Evict(c.entries, key),
         knownGenerations := c.knownGenerations - {key}, latestGeneration := c.latestGeneration - {key})
    case Publish(m, arts, version, epoch) => AfterPublish(c, m, arts, version, epoch)
  }

  ghost function Run(c: Cache, ops: seq<Op>): Cache
    decreases |ops|
  {
    if ops == [] then c else Run(Apply(c, ops[0]), ops[1..])
  }

  // ---------------------------------------------------------------- fences

  /** The operation invalidates recomputes in flight for `key`. */
  predicate Hits(op: Op, key: Key) {
    match op
    case AddPod(m, _) => m.key == key
    case DeletePod(m, _) => m.key == key
    case UpdatePod(m, _, _) => m.key == key
    case Invalidate(k) => k == key
    case InvalidateNamespace(namespace) => key.namespace == namespace
    case DeleteKey(k) => k == key
    case Publish(_, _, _, _) => false
  }

  /** No operation lowers a fence, and one that hits the key raises its version. */
  lemma {:induction false} FencesGrow(c: Cache, op: Op, key: Key)
    ensures Version(Apply(c, op), key) >= Version(c, key) && Epoch(Apply(c, op), key) >= Epoch(c, key)
    ensures Hits(op, key) ==> Version(Apply(c, op), key) > Version(c, key)
    ensures op == DeleteKey(key) ==> Epoch(Apply(c, op), key) > Epoch(c, key)
  {
    match op
    case AddPod(m, pod) => EventFences(c, m, AfterAdd(ArtsAt(c, m), m, pod), key);
    case DeletePod(m, pod) => EventFences(c, m, AfterDelete(ArtsAt(c, m), m, pod), key);
    case UpdatePod(m, prior, next) => EventFences(c, m, AfterUpdate(ArtsAt(c, m), m, prior, next), key);
    case InvalidateNamespace(namespace) => NamespaceFences(c, namespace, key);
    case _ =>
  }

  lemma {:induction false} EventFences(c: Cache, m: Mapping, after: Artifacts, key: Key)
    ensures Version(OnEvent(c, m, after), key) == Version(c, key) + (if m.key == key then 1 else 0)
    ensures Epoch(OnEvent(c, m, after), key) == Epoch(c, key)
  {
  }

  lemma {:induction false} NamespaceFences(c: Cache, namespace: string, key: Key)
    ensures Version(AfterInvalidateNamespace(c, namespace), key) >=
            Version(c, key) + (if key.namespace == namespace then 1 else 0)
    ensures Epoch(AfterInvalidateNamespace(c, namespace), key) == Epoch(c, key)
  {
    var d := AfterInvalidateNamespace(c, namespace);
    assert Count(d.keyVersions, key) >= Count(c.keyVersions, key);
    assert Count(d.namespaceEpoch, key.namespace) ==
           Count(c.namespaceEpoch, key.namespace) + (if key.namespace == namespace then 1 else 0);
  }

  lemma {:induction false} RunFencesGrow(c: Cache, ops: seq<Op>, key: Key)
    ensures Version(Run(c, ops), key) >= Version(c, key) && Epoch(Run(c, ops), key) >= Epoch(c, key)
    ensures (exists op :: op in ops && Hits(op, key)) ==> Version(Run(c, ops), key) > Version(c, key)
    ensures DeleteKey(key) in ops ==> Epoch(Run(c, ops), key) > Epoch(c, key)
    decreases |ops|
  {
    if ops != [] {
      FencesGrow(c, ops[0], key);
      RunFencesGrow(Apply(c, ops[0]), ops[1..], key);
      assert forall op :: op in ops ==> op == ops[0] || op in ops[1..];
    }
  }

  /** A publish with the fences of `c` succeeds after `ops` only if no pod event, invalidation
      or delete among them hit its key. */
  lemma {:induction false} PublishNeedsQuiet(c: Cache, ops: seq<Op>, m: Mapping)
    requires Commits(Run(c, ops), m, Version(c, m.key), Epoch(c, m.key))
    ensures forall op :: op in ops ==> !Hits(op, m.key)
  {
    RunFencesGrow(c, ops, m.key);
  }

  // ---------------------------------------------------------------- one entry per key

  /** Each entry is filed under its own mapping, at the latest generation of its key. */
  ghost predicate Rolled(c: Cache) {
    (forall key :: key in c.latestGeneration ==> c.latestGeneration[key] >= 1) &&
    forall ck :: ck in c.entries ==>
      Slot(c.entries[ck].mapping) == ck && ck.key in c.latestGeneration && c.latestGeneration[ck.key] == ck.generation
  }

  lemma {:induction false} EventKeepsRolled(c: Cache, m: Mapping, after: Artifacts)
    requires Rolled(c)
    ensures Rolled(OnEvent(c, m, after))
  {
  }

  lemma {:induction false} PublishKeepsRolled(c: Cache, m: Mapping, arts: Artifacts, version: nat, epoch: nat)
    requires Rolled(c) && m.generation >= 1
    ensures Rolled(AfterPublish(c, m, arts, version, epoch))
  {
    var d := AfterPublish(c, m, arts, version, epoch);
    if Commits(c, m, version, epoch) {
      assert d.latestGeneration == c.latestGeneration[m.key := m.generation];
      forall ck | ck in d.entries
        ensures Slot(d.entries[ck].mapping) == ck && ck.key in d.latestGeneration && d.latestGeneration[ck.key] == ck.generation
      {
        PublishedEntries(c, m, arts, version, epoch, ck);
      }
    }
  }

  /** A publish stores its entry and only ever removes others, older ones of its key among them. */
  lemma {:induction false} PublishedEntries(c: Cache, m: Mapping, arts: Artifacts, version: nat, epoch: nat, ck: CacheKey)
    requires Commits(c, m, version, epoch)
    ensures Slot(m) in AfterPublish(c, m, arts, version, epoch).entries
    ensures AfterPublish(c, m, arts, version, epoch).entries[Slot(m)] == Entry(m, arts)
    ensures ck in AfterPublish(c, m, arts, version, epoch).entries && ck != Slot(m) ==>
              ck in c.entries && AfterPublish(c, m, arts, version, epoch).entries[ck] == c.entries[ck] &&
              !(ck.key == m.key && ck.generation < m.generation && m.generation > Latest(c, m.key))
  {
  }

  lemma {:induction false} ApplyKeepsRolled(c: Cache, op: Op)
    requires Rolled(c) && (op.Publish? ==> op.m.generation >= 1)
    ensures Rolled(Apply(c, op))
  {
    match op
    case AddPod(m, pod) => EventKeepsRolled(c, m, AfterAdd(ArtsAt(c, m), m, pod));
    case DeletePod(m, pod) => EventKeepsRolled(c, m, AfterDelete(ArtsAt(c, m), m, pod));
    case UpdatePod(m, prior, next) => EventKeepsRolled(c, m, AfterUpdate(ArtsAt(c, m), m, prior, next));
    case Invalidate(key) =>
    case InvalidateNamespace(namespace) =>
    case DeleteKey(key) =>
    case Publish(m, arts, version, epoch) => PublishKeepsRolled(c, m, arts, version, epoch);
  }

  /** Every cache reachable by the operations holds at most one entry per mapping key, of the
      latest committed generation. */
  lemma {:induction false} ReachableIsRolled(c: Cache, ops: seq<Op>)
    requires Rolled(c)
    requires forall op :: op in ops && op.Publish? ==> op.m.generation >= 1
    ensures Rolled(Run(c, ops))
    ensures forall a, b :: a in Run(c, ops).entries && b in Run(c, ops).entries && a.key == b.key ==> a == b
    decreases |ops|
  {
    if ops != [] {
      assert ops[0] in ops;
      ApplyKeepsRolled(c, ops[0]);
      ReachableIsRolled(Apply(c, ops[0]), ops[1..]);
    }
  }

  lemma {:induction false} EventStoresNothing(c: Cache, m: Mapping, after: Artifacts)
    ensures OnEvent(c, m, after).entries.Keys == c.entries.Keys
  {
  }

  /** The generation of every entry is among the known ones of its key. */
  ghost predicate Knows(c: Cache) {
    forall ck :: ck in c.entries ==> ck.key in c.knownGenerations && ck.generation in c.knownGenerations[ck.key]
  }

  lemma {:induction false} ApplyKeepsKnown(c: Cache, op: Op)
    requires Knows(c)
    ensures Knows(Apply(c, op))
  {
    match op
    case AddPod(m, pod) => EventStoresNothing(c, m, AfterAdd(ArtsAt(c, m), m, pod));
    case DeletePod(m, pod) => EventStoresNothing(c, m, AfterDelete(ArtsAt(c, m), m, pod));
    case UpdatePod(m, prior, next) => EventStoresNothing(c, m, AfterUpdate(ArtsAt(c, m), m, prior, next));
    case Publish(m, arts, version, epoch) =>
      var d := AfterPublish(c, m, arts, version, epoch);
      if Commits(c, m, version, epoch) {
        forall ck | ck in d.entries ensures ck.key in d.knownGenerations && ck.generation in d.knownGenerations[ck.key] {
          PublishedEntries(c, m, arts, version, epoch, ck);
        }
      }
    case _ =>
  }

  lemma {:induction false} ReachableKnows(c: Cache, ops: seq<Op>)
    requires Knows(c)
    ensures Knows(Run(c, ops))
    decreases |ops|
  {
    if ops != [] {
      ApplyKeepsKnown(c, ops[0]);
      ReachableKnows(Apply(c, ops[0]), ops[1..]);
    }
  }

  /** Only a publish makes an entry. */
  lemma {:induction false} OthersStoreNothing(c: Cache, op: Op)
    requires !op.Publish?
    ensures Apply(c, op).entries.Keys <= c.entries.Keys
  {
    match op
    case AddPod(m, pod) => EventStoresNothing(c, m, AfterAdd(ArtsAt(c, m), m, pod));
    case DeletePod(m, pod) => EventStoresNothing(c, m, AfterDelete(ArtsAt(c, m), m, pod));
    case UpdatePod(m, prior, next) => EventStoresNothing(c, m, AfterUpdate(ArtsAt(c, m), m, prior, next));
    case Invalidate(key) =>
    case InvalidateNamespace(namespace) =>
    case DeleteKey(key) =>
  }

  lemma {:induction false} OnlyPublishStores(c: Cache, op: Op, key: Key)
    requires !HasEntry(c, key) && HasEntry(Apply(c, op), key)
    ensures op.Publish? && op.m.key == key && op.epoch == Epoch(c, key) && op.version == Version(c, key)
  {
    var ck :| ck in Apply(c, op).entries && ck.key == key;
    assert ck !in c.entries;
    if op.Publish? {
      if Commits(c, op.m, op.version, op.epoch) {
        PublishedEntries(c, op.m, op.arts, op.version, op.epoch, ck);
      }
    } else {
      OthersStoreNothing(c, op);
    }
  }

  /** An empty key is only filled by a publish whose fences are at least the current ones. */
  lemma {:induction false} FilledByPublish(c: Cache, ops: seq<Op>, key: Key) returns (op: Op)
    requires !HasEntry(c, key) && HasEntry(Run(c, ops), key)
    ensures op in ops && op.Publish? && op.m.key == key && op.epoch >= Epoch(c, key) && op.version >= Version(c, key)
    decreases |ops|
  {
    var d := Apply(c, ops[0]);
    FencesGrow(c, ops[0], key);
    if HasEntry(d, key) {
      OnlyPublishStores(c, ops[0], key);
      op := ops[0];
    } else {
      op := FilledByPublish(d, ops[1..], key);
    }
  }

  /** After a delete the key stays empty until a publish whose lifecycle fence was captured
      after that delete. */
  lemma {:induction false} NoResurrection(c: Cache, ops: seq<Op>, key: Key, floor: nat)
    requires !HasEntry(c, key) && Epoch(c, key) > floor && HasEntry(Run(c, ops), key)
    ensures exists op :: op in ops && op.Publish? && op.m.key == key && op.epoch > floor
  {
    var op := FilledByPublish(c, ops, key);
  }

  /** After an invalidation, of the key or of its namespace, only a publish whose version was
      captured after it brings an entry back. */
  lemma {:induction false} InvalidateFences(c: Cache, ops: seq<Op>, key: Key, op: Op)
    requires op == Invalidate(key) || op == InvalidateNamespace(key.namespace)
    requires HasEntry(Run(Apply(c, op), ops), key)
    ensures exists p :: p in ops && p.Publish? && p.m.key == key && p.version > Version(c, key)
  {
    FencesGrow(c, op, key);
    assert !HasEntry(Apply(c, op), key);
    var p := FilledByPublish(Apply(c, op), ops, key);
  }

  /** The delete itself: the key is empty and its lifecycle fence has moved past `Epoch(c, key)`. */
  lemma {:induction false} DeleteFences(c: Cache, ops: seq<Op>, key: Key)
    requires HasEntry(Run(Apply(c, DeleteKey(key)), ops), key)
    ensures exists op :: op in ops && op.Publish? && op.m.key == key && op.epoch > Epoch(c, key)
  {
    NoResurrection(Apply(c, DeleteKey(key)), ops, key, Epoch(c, key));
  }

  // ---------------------------------------------------------------- a publish that nothing opposes

  lemma {:induction false} RunThen(c: Cache, ops: seq<Op>, op: Op)
    ensures Run(c, ops + [op]) == Apply(Run(c, ops), op)
    decreases |ops|
  {
    var longer := ops + [op];
    if ops == [] {
      assert longer == [op] && longer[1..] == [];
    } else {
      assert longer[0] == ops[0] && longer[1..] == ops[1..] + [op];
      RunThen(Apply(c, ops[0]), ops[1..], op);
    }
  }

  /** What does not hit a key leaves both its fences alone. */
  lemma {:induction false} MissKeepsFences(c: Cache, op: Op, key: Key)
    requires !Hits(op, key)
    ensures Version(Apply(c, op), key) == Version(c, key) && Epoch(Apply(c, op), key) == Epoch(c, key)
  {
    match op
    case AddPod(m, pod) => EventFences(c, m, AfterAdd(ArtsAt(c, m), m, pod), key);
    case DeletePod(m, pod) => EventFences(c, m, AfterDelete(ArtsAt(c, m), m, pod), key);
    case UpdatePod(m, prior, next) => EventFences(c, m, AfterUpdate(ArtsAt(c, m), m, prior, next), key);
    case InvalidateNamespace(namespace) => NamespaceMisses(c, namespace, key);
    case _ =>
  }

  lemma {:induction false} NamespaceMisses(c: Cache, namespace: string, key: Key)
    requires key.namespace != namespace
    ensures Version(AfterInvalidateNamespace(c, namespace), key) == Version(c, key)
    ensures Epoch(AfterInvalidateNamespace(c, namespace), key) == Epoch(c, key)
  {
    assert Doomed(c, namespace, key) == {};
  }

  lemma {:induction false} MissesKeepFences(c: Cache, ops: seq<Op>, key: Key)
    requires forall op :: op in ops ==> !Hits(op, key)
    ensures Version(Run(c, ops), key) == Version(c, key) && Epoch(Run(c, ops), key) == Epoch(c, key)
    decreases |ops|
  {
    if ops != [] {
      assert ops[0] in ops;
      MissKeepsFences(c, ops[0], key);
      MissesKeepFences(Apply(c, ops[0]), ops[1..], key);
    }
  }

  /** A publish that commits, of another incarnation or of a newer generation of the mapping. */
  ghost predicate Rival(c: Cache, op: Op, m: Mapping) {
    op.Publish? && op.m.key == m.key && Commits(c, op.m, op.version, op.epoch) && (op.m.uid != m.uid || op.m.generation > m.generation)
  }

  /** Since its key was last deleted, the mapping had no rival. */
  ghost predicate Unrivalled(ops: seq<Op>, m: Mapping)
    decreases |ops|
  {
    ops == [] ||
    var front, last := ops[..|ops| - 1], ops[|ops| - 1];
    last == DeleteKey(m.key) || (Unrivalled(front, m) && !Rival(Run(EMPTY, front), last, m))
  }

  /** Nothing in the cache belongs to another incarnation or to a newer generation. */
  ghost predicate Favours(c: Cache, m: Mapping) {
    (forall ck :: ck in c.entries && ck.key == m.key ==> c.entries[ck].mapping.uid == m.uid) &&
    (m.key in c.latestGeneration ==> c.latestGeneration[m.key] <= m.generation)
  }

  lemma {:induction false} EventFavours(c: Cache, m: Mapping, x: Mapping, after: Artifacts)
    requires Favours(c, m)
    ensures Favours(OnEvent(c, x, after), m)
  {
  }

  lemma {:induction false} PublishFavours(c: Cache, m: Mapping, x: Mapping, arts: Artifacts, version: nat, epoch: nat)
    requires Favours(c, m) && !Rival(c, Publish(x, arts, version, epoch), m)
    ensures Favours(AfterPublish(c, x, arts, version, epoch), m)
  {
    var d := AfterPublish(c, x, arts, version, epoch);
    if Commits(c, x, version, epoch) {
      forall ck | ck in d.entries && ck.key == m.key ensures d.entries[ck].mapping.uid == m.uid {
        PublishedEntries(c, x, arts, version, epoch, ck);
      }
    }
  }

  lemma {:induction false} ApplyFavours(c: Cache, op: Op, m: Mapping)
    requires op == DeleteKey(m.key) || (Favours(c, m) && !Rival(c, op, m))
    ensures Favours(Apply(c, op), m)
  {
    match op
    case AddPod(x, pod) => EventFavours(c, m, x, AfterAdd(ArtsAt(c, x), x, pod));
    case DeletePod(x, pod) => EventFavours(c, m, x, AfterDelete(ArtsAt(c, x), x, pod));
    case UpdatePod(x, prior, next) => EventFavours(c, m, x, AfterUpdate(ArtsAt(c, x), x, prior, next));
    case Publish(x, arts, version, epoch) => PublishFavours(c, m, x, arts, version, epoch);
    case Invalidate(key) =>
    case InvalidateNamespace(namespace) =>
    case DeleteKey(key) =>
  }

  lemma {:induction false} UnrivalledIsFavoured(ops: seq<Op>, m: Mapping)
    requires Unrivalled(ops, m)
    ensures Favours(Run(EMPTY, ops), m)
    decreases |ops|
  {
    if ops != [] {
      var front, last := ops[..|ops| - 1], ops[|ops| - 1];
      if last != DeleteKey(m.key) {
        UnrivalledIsFavoured(front, m);
      }
      ApplyFavours(Run(EMPTY, front), last, m);
      RunThen(EMPTY, front, last);
      assert ops == front + [last];
    }
  }

  lemma {:induction false} RunConcat(c: Cache, a: seq<Op>, b: seq<Op>)
    ensures Run(c, a + b) == Run(Run(c, a), b)
    decreases |a|
  {
    if a == [] {
      assert a + b == b;
    } else {
      assert (a + b)[0] == a[0] && (a + b)[1..] == a[1..] + b;
      RunConcat(Apply(c, a[0]), a[1..], b);
    }
  }

  /** Exactly when a publish commits: of a mapping that has had no rival since its key was last
      deleted, with fences captured after `ops`, it commits after `more` if and only if nothing in
      between hit its key. It commits whether or not its slot holds an entry. */
  lemma {:induction false} PublishCommitsIff(ops: seq<Op>, more: seq<Op>, m: Mapping)
    requires Unrivalled(ops + more, m)
    ensures var c := Run(EMPTY, ops);
            Commits(Run(c, more), m, Version(c, m.key), Epoch(c, m.key)) <==> forall op :: op in more ==> !Hits(op, m.key)
  {
    var c := Run(EMPTY, ops);
    UnrivalledIsFavoured(ops + more, m);
    RunConcat(EMPTY, ops, more);
    if forall op :: op in more ==> !Hits(op, m.key) {
      MissesKeepFences(c, more, m.key);
    }
    if Commits(Run(c, more), m, Version(c, m.key), Epoch(c, m.key)) {
      PublishNeedsQuiet(c, more, m);
    }
  }

  /** No publish replaces the entry of another incarnation. */
  lemma {:induction false} IncarnationsStayApart(c: Cache, op: Op, ck: CacheKey)
    requires ck in c.entries && ck in Apply(c, op).entries
    ensures Apply(c, op).entries[ck].mapping.uid == c.entries[ck].mapping.uid || (op.Publish? && op.m.uid == "")
  {
    match op
    case AddPod(m, pod) => EventMoves(c, m, AfterAdd(ArtsAt(c, m), m, pod), ck);
    case DeletePod(m, pod) => EventMoves(c, m, AfterDelete(ArtsAt(c, m), m, pod), ck);
    case UpdatePod(m, prior, next) => EventMoves(c, m, AfterUpdate(ArtsAt(c, m), m, prior, next), ck);
    case Publish(m, arts, version, epoch) =>
      if Commits(c, m, version, epoch) {
        PublishedEntries(c, m, arts, version, epoch, ck);
      }
    case _ =>
  }

  // ---------------------------------------------------------------- what was published is served

  /** The operation leaves the entries of `key` cached, if moved by pod events. */
  predicate Spares(op: Op, key: Key) {
    match op
    case Invalidate(k) => k != key
    case InvalidateNamespace(namespace) => namespace != key.namespace
    case DeleteKey(k) => k != key
    case Publish(m, _, _, _) => m.key != key
    case _ => true
  }

  /** What a pod event for the same generation makes of the artifacts. */
  ghost function MovedBy(arts: Artifacts, slot: CacheKey, op: Op): Artifacts {
    match op
    case AddPod(m, pod) => if Slot(m) == slot then AfterAdd(arts, m, pod) else arts
    case DeletePod(m, pod) => if Slot(m) == slot then AfterDelete(arts, m, pod) else arts
    case UpdatePod(m, prior, next) => if Slot(m) == slot then AfterUpdate(arts, m, prior, next) else arts
    case _ => arts
  }

  ghost function MovedByAll(arts: Artifacts, slot: CacheKey, ops: seq<Op>): Artifacts
    decreases |ops|
  {
    if ops == [] then arts else MovedByAll(MovedBy(arts, slot, ops[0]), slot, ops[1..])
  }

  lemma {:induction false} EventMoves(c: Cache, x: Mapping, after: Artifacts, slot: CacheKey)
    requires slot in c.entries
    ensures slot in OnEvent(c, x, after).entries
    ensures OnEvent(c, x, after).entries[slot] == if Slot(x) == slot then c.entries[slot].(arts := after) else c.entries[slot]
  {
  }

  lemma {:induction false} PublishSpares(c: Cache, x: Mapping, arts: Artifacts, version: nat, epoch: nat, slot: CacheKey)
    requires slot in c.entries && x.key != slot.key
    ensures slot in AfterPublish(c, x, arts, version, epoch).entries && AfterPublish(c, x, arts, version, epoch).entries[slot] == c.entries[slot]
  {
  }

  lemma {:induction false} SparedMoves(c: Cache, op: Op, slot: CacheKey)
    requires slot in c.entries && Spares(op, slot.key)
    ensures slot in Apply(c, op).entries
    ensures Apply(c, op).entries[slot] == c.entries[slot].(arts := MovedBy(c.entries[slot].arts, slot, op))
  {
    match op
    case AddPod(x, pod) => EventMoves(c, x, AfterAdd(ArtsAt(c, x), x, pod), slot);
    case DeletePod(x, pod) => EventMoves(c, x, AfterDelete(ArtsAt(c, x), x, pod), slot);
    case UpdatePod(x, prior, next) => EventMoves(c, x, AfterUpdate(ArtsAt(c, x), x, prior, next), slot);
    case Publish(x, arts, version, epoch) => PublishSpares(c, x, arts, version, epoch, slot);
    case Invalidate(key) =>
    case InvalidateNamespace(namespace) =>
    case DeleteKey(key) =>
  }

  lemma {:induction false} SparedMovesAll(c: Cache, ops: seq<Op>, slot: CacheKey)
    requires slot in c.entries && forall op :: op in ops ==> Spares(op, slot.key)
    ensures slot in Run(c, ops).entries
    ensures Run(c, ops).entries[slot] == c.entries[slot].(arts := MovedByAll(c.entries[slot].arts, slot, ops))
    decreases |ops|
  {
    if ops != [] {
      assert ops[0] in ops;
      SparedMoves(c, ops[0], slot);
      SparedMovesAll(Apply(c, ops[0]), ops[1..], slot);
    }
  }

  /** After a publish of `m` that commits, and any operations that neither evict nor publish its
      key, the cache serves `m`: the published artifacts as the pod events moved them. */
  lemma {:induction false} PublishedIsServed(c: Cache, m: Mapping, arts: Artifacts, version: nat, epoch: nat, ops: seq<Op>)
    requires Commits(c, m, version, epoch) && forall op :: op in ops ==> Spares(op, m.key)
    ensures Lookup(Run(Apply(c, Publish(m, arts, version, epoch)), ops), m) == Some(MovedByAll(arts, Slot(m), ops))
  {
    PublishedEntries(c, m, arts, version, epoch, Slot(m));
    SparedMovesAll(Apply(c, Publish(m, arts, version, epoch)), ops, Slot(m));
  }

  /** And it serves no other incarnation of the mapping. */
  lemma {:induction false} OtherIncarnationMisses(c: Cache, m: Mapping, arts: Artifacts, version: nat, epoch: nat, ops: seq<Op>, x: Mapping)
    requires Commits(c, m, version, epoch) && forall op :: op in ops ==> Spares(op, m.key)
    requires Slot(x) == Slot(m) && x.uid != "" && x.uid != m.uid
    ensures Lookup(Run(Apply(c, Publish(m, arts, version, epoch)), ops), x) == None
  {
    PublishedEntries(c, m, arts, version, epoch, Slot(m));
    SparedMovesAll(Apply(c, Publish(m, arts, version, epoch)), ops, Slot(m));
  }
}
