/** The cache object. Each method is proved to perform its transition on the cache value. */
module DesiredStateCache {
  import opened Model
  import opened DesiredState
  import opened Incremental
  import opened CacheState
  import CacheEntry

  class DesiredStateCache {
    var entries: map<CacheKey, Entry>
    var keyVersions: map<Key, nat>
    var namespaceEpoch: map<string, nat>
    var lifecycleEpoch: map<Key, nat>
    var knownGenerations: map<Key, set<int>>
    var latestGeneration: map<Key, int>

    ghost function View(): Cache
      reads this
    {
      Cache(entries, keyVersions, namespaceEpoch, lifecycleEpoch, knownGenerations, latestGeneration)
    }

    constructor ()
      ensures View() == EMPTY
    {
      entries, keyVersions, namespaceEpoch := map[], map[], map[];
      lifecycleEpoch, knownGenerations, latestGeneration := map[], map[], map[];
    }

    method OnPodAdd(m: Mapping, pod: Pod)
      modifies this
      ensures View() == Apply(old(View()), AddPod(m, pod))
    {
      keyVersions := Inc(keyVersions, m.key);
      if Slot(m) in entries {
        var entry := entries[Slot(m)];
        var arts := CacheEntry.AddPod(entry.arts, m, pod);
        entries := entries[Slot(m) := entry.(arts := arts)];
      }
    }

    method OnPodDelete(m: Mapping, pod: Pod)
      modifies this
      ensures View() == Apply(old(View()), DeletePod(m, pod))
    {
      keyVersions := Inc(keyVersions, m.key);
      if Slot(m) in entries {
        var entry := entries[Slot(m)];
        var arts := CacheEntry.RemovePod(entry.arts, m, pod);
        entries := entries[Slot(m) := entry.(arts := arts)];
      }
    }

    /** Answers false when only another generation is cached, so that the caller invalidates.
        Every path bumps the version. */
    method OnPodUpdate(m: Mapping, prior: Pod, next: Pod) returns (ok: bool)
      modifies this
      ensures View() == Apply(old(View()), UpdatePod(m, prior, next))
      ensures ok == UpdateAccepted(old(View()), m)
      ensures !ok <==> Slot(m) !in old(entries) && exists ck :: ck in old(entries) && ck.key == m.key
    {
      if Slot(m) !in entries {
        ok := true;
        var rest := entries.Keys;
        while rest != {} && ok
          invariant rest <= entries.Keys && entries == old(entries)
          invariant ok ==> forall ck :: ck in entries && ck !in rest ==> ck.key != m.key
          invariant !ok ==> HasEntry(old(View()), m.key)
          modifies {}
          decreases rest
        {
          var ck :| ck in rest;
          rest := rest - {ck};
          ok := ck.key != m.key;
        }
        keyVersions := Inc(keyVersions, m.key);
        return;
      }
      ok := true;
      keyVersions := Inc(keyVersions, m.key);
      var entry := entries[Slot(m)];
      var arts := CacheEntry.ChangePod(entry.arts, m, prior, next);
      entries := entries[Slot(m) := entry.(arts := arts)];
    }

    method Invalidate(key: Key)
      modifies this
      ensures View() == Apply(old(View()), Op.Invalidate(key))
    {
      keyVersions := Inc(keyVersions, key);
      entries := EvictKey(entries, key);
    }

    method InvalidateNamespace(namespace: string)
      modifies this
      ensures View() == Apply(old(View()), Op.InvalidateNamespace(namespace))
    {
      namespaceEpoch := Inc(namespaceEpoch, namespace);
      var rest, versions := EvictNamespace(entries, keyVersions, namespace);
      ghost var gone := InNamespace(entries.Keys, namespace);
      BumpedByAll(old(View()), namespace, gone);
      entries, keyVersions := rest, versions;
    }

    method Delete(key: Key)
      modifies this
      ensures View() == Apply(old(View()), DeleteKey(key))
    {
      lifecycleEpoch := Inc(lifecycleEpoch, key);
      keyVersions := Inc(keyVersions, key);
      entries := EvictKey(entries, key);
      knownGenerations := knownGenerations - {key};
      latestGeneration := latestGeneration - {key};
    }

    /** The cached state of `m`, if any, and the fences to publish against. */
    method GetWithVersion(m: Mapping) returns (found: Option<Artifacts>, version: nat, epoch: nat)
      ensures found == Lookup(View(), m) && version == Version(View(), m.key) && epoch == Epoch(View(), m.key)
    {
      version := Count(keyVersions, m.key) + Count(namespaceEpoch, m.key.namespace);
      epoch := Count(lifecycleEpoch, m.key);
      if Slot(m) !in entries || (m.uid != "" && entries[Slot(m)].mapping.uid != m.uid) {
        found := None;
      } else {
        found := Some(entries[Slot(m)].arts);
      }
    }

    method SetFromRecomputeArtifactsIfVersion(m: Mapping, arts: Artifacts, version: nat, epoch: nat) returns (committed: bool)
      modifies this
      ensures View() == Apply(old(View()), Publish(m, arts, version, epoch))
      ensures committed == Commits(old(View()), m, version, epoch)
    {
      committed := false;
      if epoch != Count(lifecycleEpoch, m.key) {
        return;
      }
      if version != Count(keyVersions, m.key) + Count(namespaceEpoch, m.key.namespace) {
        return;
      }
      if Slot(m) in entries && m.uid != "" && entries[Slot(m)].mapping.uid != m.uid {
        return;
      }
      if m.key in latestGeneration && m.generation < latestGeneration[m.key] {
        return;
      }
      committed := true;
      entries := entries[Slot(m) := Entry(m, arts)];
      var known := if m.key in knownGenerations then knownGenerations[m.key] else {};
      knownGenerations := knownGenerations[m.key := known + {m.generation}];
      var latest := if m.key in latestGeneration then latestGeneration[m.key] else 0;
      if m.generation > latest {
        latestGeneration := latestGeneration[m.key := m.generation];
        entries := EvictOlder(entries, m);
      }
    }
  }

  /** Removes the entries under the doomed keys one at a time, in any order. */
  method DropEntries(entries0: map<CacheKey, Entry>, doomed: CacheKey -> bool) returns (entries: map<CacheKey, Entry>)
    ensures entries == map ck | ck in entries0 && !doomed(ck) :: entries0[ck]
  {
    entries := entries0;
    var rest := entries0.Keys;
    while rest != {}
      invariant rest <= entries0.Keys
      invariant forall ck :: ck in entries <==> ck in entries0 && (ck in rest || !doomed(ck))
      invariant forall ck :: ck in entries ==> entries[ck] == entries0[ck]
      decreases rest
    {
      var ck :| ck in rest;
      if doomed(ck) {
        entries := entries - {ck};
      }
      rest := rest - {ck};
    }
  }

  method EvictKey(entries0: map<CacheKey, Entry>, key: Key) returns (entries: map<CacheKey, Entry>)
    ensures entries == Evict(entries0, key)
  {
    entries := DropEntries(entries0, (ck: CacheKey) => ck.key == key);
  }

  method EvictOlder(entries0: map<CacheKey, Entry>, m: Mapping) returns (entries: map<CacheKey, Entry>)
    ensures entries == PruneOlder(entries0, m)
  {
    entries := DropEntries(entries0, (ck: CacheKey) => ck.key == m.key && ck.generation < m.generation);
  }

  function ForKey(cks: set<CacheKey>, key: Key): set<CacheKey> {
    set ck | ck in cks && ck.key == key
  }

  /** The versions once each entry of `gone` has bumped its key. */
  function BumpedBy(versions: map<Key, nat>, gone: set<CacheKey>): map<Key, nat> {
    map key | key in versions.Keys + (set ck | ck in gone :: ck.key) :: Count(versions, key) + |ForKey(gone, key)|
  }

  function InNamespace(cks: set<CacheKey>, namespace: string): set<CacheKey> {
    set ck | ck in cks && ck.key.namespace == namespace
  }

  /** Removes the namespace's entries one at a time, in any order, bumping the version of each
      entry's key. */
  method EvictNamespace(entries0: map<CacheKey, Entry>, versions0: map<Key, nat>, namespace: string)
    returns (entries: map<CacheKey, Entry>, versions: map<Key, nat>)
    ensures entries == entries0 - InNamespace(entries0.Keys, namespace)
    ensures versions == BumpedBy(versions0, InNamespace(entries0.Keys, namespace))
  {
    entries, versions := entries0, versions0;
    ghost var all := InNamespace(entries0.Keys, namespace);
    var rest := InNamespace(entries0.Keys, namespace);
    ghost var gone: set<CacheKey> := {};
    BumpedByNone(versions0);
    while rest != {}
      invariant rest + gone == all && rest !! gone
      invariant entries == entries0 - gone
      invariant versions == BumpedBy(versions0, gone)
      decreases rest
    {
      var ck :| ck in rest;
      BumpedByOne(versions0, gone, ck);
      versions := Inc(versions, ck.key);
      entries := entries - {ck};
      rest, gone := rest - {ck}, gone + {ck};
    }
    assert gone == all;
  }

  lemma {:induction false} BumpedByNone(versions: map<Key, nat>)
    ensures BumpedBy(versions, {}) == versions
  {
    forall key | key in versions ensures BumpedBy(versions, {})[key] == versions[key] {
      assert ForKey({}, key) == {};
    }
  }

  lemma {:induction false} BumpedByOne(versions: map<Key, nat>, gone: set<CacheKey>, ck: CacheKey)
    requires ck !in gone
    ensures BumpedBy(versions, gone + {ck}) == Inc(BumpedBy(versions, gone), ck.key)
  {
    var more, inc := BumpedBy(versions, gone + {ck}), Inc(BumpedBy(versions, gone), ck.key);
    assert more.Keys == inc.Keys;
    forall key | key in more ensures more[key] == inc[key] {
      BumpedAt(versions, gone, ck, key);
    }
  }

  lemma {:induction false} BumpedAt(versions: map<Key, nat>, gone: set<CacheKey>, ck: CacheKey, key: Key)
    requires ck !in gone
    ensures |ForKey(gone + {ck}, key)| == |ForKey(gone, key)| + (if key == ck.key then 1 else 0)
    ensures Count(BumpedBy(versions, gone), key) == Count(versions, key) + |ForKey(gone, key)|
  {
    assert ForKey(gone + {ck}, key) == ForKey(gone, key) + (if key == ck.key then {ck} else {});
    if key !in versions && ForKey(gone, key) != {} {
      var x :| x in ForKey(gone, key);
      assert key in BumpedBy(versions, gone);
    }
  }

  lemma {:induction false} BumpedByAll(c: Cache, namespace: string, gone: set<CacheKey>)
    requires gone == InNamespace(c.entries.Keys, namespace)
    ensures AfterInvalidateNamespace(c, namespace).keyVersions == BumpedBy(c.keyVersions, gone)
    ensures AfterInvalidateNamespace(c, namespace).entries == c.entries - gone
  {
    forall key ensures ForKey(gone, key) == Doomed(c, namespace, key) {}
    assert (set ck | ck in gone :: ck.key) == set ck | ck in c.entries && ck.key.namespace == namespace :: ck.key;
  }
}
