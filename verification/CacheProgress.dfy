/** Progress of the cache protocol: a reconcile that is not disturbed brings its state to the diff. */
module CacheProgress {
  import opened Model
  import opened DesiredState
  import opened CacheState
  import opened CacheProtocol

  lemma {:induction false} CommitMoves(w: World, tid: nat, s: Step)
    requires Enabled(w, s) && (s == TryPublish(tid) || s == Republish(tid)) && Favours(w.cache, w.threads[tid].m)
    requires w.threads[tid].stage.version == Version(w.cache, w.threads[tid].m.key)
    requires w.threads[tid].stage.epoch == Epoch(w.cache, w.threads[tid].m.key)
    ensures var t, v := w.threads[tid], Do(w, s);
            && v.threads == w.threads[tid := t.(stage := Resolved(t.stage.arts))]
            && Lookup(v.cache, t.m) == Some(t.stage.arts) && v.live == w.live && v.history == w.history
  {
    var t := w.threads[tid];
    FavouredCommits(w.cache, t.m);
    PublishedEntries(w.cache, t.m, t.stage.arts, t.stage.version, t.stage.epoch, Slot(t.m));
  }

  lemma {:induction false} GateOpens(w: World, tid: nat)
    requires Started(w) && tid in w.threads && w.threads[tid].stage.Resolved? && Current(w, w.threads[tid].m)
    ensures Enabled(w, Gate(tid)) && Do(w, Gate(tid)) == Move(w, tid, AtDiff(w.threads[tid].stage.arts))
  {
  }

  /** A reconcile of a current mapping that nothing disturbs publishes its recompute and brings it
      to the diff, also when its slot is cached already and the resync is forced. */
  lemma {:induction false} QuietReconcileReachesDiff(w: World, tid: nat, forced: bool, arts: Artifacts)
    returns (fenced: World, listed: World, published: World, gated: World)
    requires Started(w) && tid in w.threads && w.threads[tid].stage.Reading?
    requires Current(w, w.threads[tid].m) && Favours(w.cache, w.threads[tid].m) && Recomputed(arts, w.threads[tid].m, Now(w))
    requires forced || Lookup(w.cache, w.threads[tid].m).None?
    ensures Enabled(w, Fence(tid, forced)) && fenced == Do(w, Fence(tid, forced))
    ensures Enabled(fenced, ListPods(tid, arts)) && listed == Do(fenced, ListPods(tid, arts))
    ensures Enabled(listed, TryPublish(tid)) && published == Do(listed, TryPublish(tid))
    ensures Enabled(published, Gate(tid)) && gated == Do(published, Gate(tid))
    ensures tid in gated.threads && gated.threads[tid].stage == AtDiff(arts) && Lookup(gated.cache, w.threads[tid].m) == Some(arts)
  {
    fenced, listed := FirstListing(w, tid, forced, arts);
    published := Do(listed, TryPublish(tid));
    CommitMoves(listed, tid, TryPublish(tid));
    gated := Do(published, Gate(tid));
    GateOpens(published, tid);
  }

  lemma {:induction false} FirstListing(w: World, tid: nat, forced: bool, arts: Artifacts) returns (fenced: World, listed: World)
    requires Started(w) && tid in w.threads && w.threads[tid].stage.Reading? && Recomputed(arts, w.threads[tid].m, Now(w))
    requires forced || Lookup(w.cache, w.threads[tid].m).None?
    ensures Enabled(w, Fence(tid, forced)) && fenced == Do(w, Fence(tid, forced))
    ensures Enabled(fenced, ListPods(tid, arts)) && listed == Do(fenced, ListPods(tid, arts))
    ensures var m := w.threads[tid].m; listed == Move(w, tid, Listed(forced, Version(w.cache, m.key), Epoch(w.cache, m.key), arts))
  {
    var m := w.threads[tid].m;
    fenced := Do(w, Fence(tid, forced));
    assert fenced == Move(w, tid, Fenced(forced, Version(w.cache, m.key), Epoch(w.cache, m.key)));
    listed := Do(fenced, ListPods(tid, arts));
    MoveTwice(w, tid, fenced.threads[tid].stage, listed.threads[tid].stage);
  }

  lemma {:induction false} MoveTwice(w: World, tid: nat, a: Stage, b: Stage)
    requires tid in w.threads
    ensures Move(Move(w, tid, a), tid, b) == Move(w, tid, b)
  {
  }

  lemma {:induction false} SecondListing(w: World, tid: nat, arts: Artifacts) returns (retrying: World, fenced: World, listed: World)
    requires Started(w) && tid in w.threads && w.threads[tid].stage.Conflicted? && Recomputed(arts, w.threads[tid].m, Now(w))
    requires w.threads[tid].stage.forced || Lookup(w.cache, w.threads[tid].m).None?
    ensures Enabled(w, Reread(tid)) && retrying == Do(w, Reread(tid))
    ensures Enabled(retrying, Refence(tid)) && fenced == Do(retrying, Refence(tid))
    ensures Enabled(fenced, RelistPods(tid, arts)) && listed == Do(fenced, RelistPods(tid, arts))
    ensures var m := w.threads[tid].m; listed == Move(w, tid, Relisted(Version(w.cache, m.key), Epoch(w.cache, m.key), arts))
  {
    retrying, fenced := SecondFence(w, tid);
    listed := Do(fenced, RelistPods(tid, arts));
    MoveTwice(w, tid, fenced.threads[tid].stage, listed.threads[tid].stage);
  }

  lemma {:induction false} SecondFence(w: World, tid: nat) returns (retrying: World, fenced: World)
    requires Started(w) && tid in w.threads && w.threads[tid].stage.Conflicted?
    requires w.threads[tid].stage.forced || Lookup(w.cache, w.threads[tid].m).None?
    ensures Enabled(w, Reread(tid)) && retrying == Do(w, Reread(tid))
    ensures Enabled(retrying, Refence(tid)) && fenced == Do(retrying, Refence(tid))
    ensures var m := w.threads[tid].m; fenced == Move(w, tid, Refenced(Version(w.cache, m.key), Epoch(w.cache, m.key)))
  {
    var m := w.threads[tid].m;
    retrying := Do(w, Reread(tid));
    assert retrying == Move(w, tid, Retrying);
    fenced := Do(retrying, Refence(tid));
    MoveTwice(w, tid, Retrying, Refenced(Version(w.cache, m.key), Epoch(w.cache, m.key)));
  }

  lemma {:induction false} FavouredCommits(c: Cache, m: Mapping)
    requires Favours(c, m)
    ensures Commits(c, m, Version(c, m.key), Epoch(c, m.key))
  {
    assert Slot(m).key == m.key;
  }

  /** A cache hit brings the served state to the diff. */
  lemma {:induction false} HitReachesDiff(w: World, tid: nat)
    requires Started(w) && tid in w.threads && w.threads[tid].stage.Reading?
    requires Current(w, w.threads[tid].m) && Lookup(w.cache, w.threads[tid].m).Some?
    ensures Enabled(w, Fence(tid, false)) && Enabled(Do(w, Fence(tid, false)), Gate(tid))
    ensures Do(Do(w, Fence(tid, false)), Gate(tid)).threads[tid].stage == AtDiff(Lookup(w.cache, w.threads[tid].m).value)
  {
  }

  /** A reconcile that lost the race once, and is not disturbed again, publishes a second
      recompute and brings that to the diff. */
  lemma {:induction false} RetriedReconcileReachesDiff(w: World, tid: nat, arts: Artifacts)
    returns (retrying: World, fenced: World, listed: World, published: World, gated: World)
    requires Started(w) && tid in w.threads && w.threads[tid].stage.Conflicted?
    requires Current(w, w.threads[tid].m) && Favours(w.cache, w.threads[tid].m) && Recomputed(arts, w.threads[tid].m, Now(w))
    requires w.threads[tid].stage.forced || Lookup(w.cache, w.threads[tid].m).None?
    ensures Enabled(w, Reread(tid)) && retrying == Do(w, Reread(tid))
    ensures Enabled(retrying, Refence(tid)) && fenced == Do(retrying, Refence(tid))
    ensures Enabled(fenced, RelistPods(tid, arts)) && listed == Do(fenced, RelistPods(tid, arts))
    ensures Enabled(listed, Republish(tid)) && published == Do(listed, Republish(tid))
    ensures Enabled(published, Gate(tid)) && gated == Do(published, Gate(tid))
    ensures tid in gated.threads && gated.threads[tid].stage == AtDiff(arts) && Lookup(gated.cache, w.threads[tid].m) == Some(arts)
  {
    retrying, fenced, listed := SecondListing(w, tid, arts);
    published := Do(listed, Republish(tid));
    CommitMoves(listed, tid, Republish(tid));
    gated := Do(published, Gate(tid));
    GateOpens(published, tid);
  }
}
