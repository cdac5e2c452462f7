/** The pod churn rate over a sliding window, computed from a pruned history. */
module PodChurn {
  import opened Model

  type Snapshot = map<PodId, Address>

  /** Times are nanoseconds; zero is the unset time. */
  const WINDOW := 60_000_000_000

  datatype Delta = Delta(added: nat, deleted: nat, updated: nat) {
    function Total(): nat {
      added + deleted + updated
    }
  }

  datatype Interval = Interval(start: int, end: int, changes: nat)

  /** What is kept per mapping between observations. */
  datatype Record = Record(snapshot: Snapshot, observedAt: int, history: seq<Interval>)

  // ---------------------------------------------------------------- the delta of two snapshots

  function AddedIds(prev: Snapshot, current: Snapshot): set<PodId> {
    current.Keys - prev.Keys
  }

  function UpdatedIds(prev: Snapshot, current: Snapshot): set<PodId> {
    set id | id in current && id in prev && prev[id].ip != current[id].ip
  }

  function DeltaOf(prev: Option<Snapshot>, current: Snapshot): Delta {
    if prev.None? then Delta(|current.Keys|, 0, 0)
    else Delta(|AddedIds(prev.value, current)|, |AddedIds(current, prev.value)|, |UpdatedIds(prev.value, current)|)
  }

  /** Taking `id` off `rest` counts it if it belongs to `s`. */
  lemma {:induction false} CountOne<T>(s: set<T>, rest: set<T>, id: T)
    requires id in rest
    ensures |s - (rest - {id})| == |s - rest| + (if id in s then 1 else 0)
  {
    assert s - (rest - {id}) == (s - rest) + (if id in s then {id} else {});
  }

  lemma {:induction false} CountAll<T>(s: set<T>, keys: set<T>)
    requires s <= keys
    ensures |s - {}| == |s| && s - keys == {}
  {
    assert s - {} == s;
  }

  /** Counts the added and the updated pods, in any order. */
  method CountChanged(prev: Snapshot, current: Snapshot) returns (added: nat, updated: nat)
    ensures added == |AddedIds(prev, current)| && updated == |UpdatedIds(prev, current)|
  {
    added, updated := 0, 0;
    var rest := current.Keys;
    ghost var arrived, moved := AddedIds(prev, current), UpdatedIds(prev, current);
    CountAll(arrived, current.Keys);
    CountAll(moved, current.Keys);
    while rest != {}
      invariant rest <= current.Keys && added == |arrived - rest| && updated == |moved - rest|
      decreases rest
    {
      var id :| id in rest;
      CountOne(arrived, rest, id);
      CountOne(moved, rest, id);
      if id !in prev {
        added := added + 1;
      } else if prev[id].ip != current[id].ip {
        updated := updated + 1;
      }
      rest := rest - {id};
    }
  }

  /** Counts the pods of `prev` that `current` no longer has, in any order. */
  method CountDeleted(prev: Snapshot, current: Snapshot) returns (deleted: nat)
    ensures deleted == |AddedIds(current, prev)|
  {
    deleted := 0;
    var rest := prev.Keys;
    ghost var gone := AddedIds(current, prev);
    CountAll(gone, prev.Keys);
    while rest != {}
      invariant rest <= prev.Keys && deleted == |gone - rest|
      decreases rest
    {
      var id :| id in rest;
      CountOne(gone, rest, id);
      if id !in current {
        deleted := deleted + 1;
      }
      rest := rest - {id};
    }
  }

  method ComputeDelta(prev: Option<Snapshot>, current: Snapshot) returns (delta: Delta)
    ensures delta == DeltaOf(prev, current)
  {
    if prev.None? {
      return Delta(|current.Keys|, 0, 0);
    }
    var added, updated := CountChanged(prev.value, current);
    var deleted := CountDeleted(prev.value, current);
    delta := Delta(added, deleted, updated);
  }

  /** Pods are conserved: the new snapshot has the old pods, plus the added, minus the deleted. */
  lemma {:induction false} DeltaConserves(prev: Snapshot, current: Snapshot)
    ensures |current.Keys| + DeltaOf(Some(prev), current).deleted == |prev.Keys| + DeltaOf(Some(prev), current).added
  {
    SplitCommon(current.Keys, prev.Keys);
    SplitCommon(prev.Keys, current.Keys);
    assert prev.Keys * current.Keys == current.Keys * prev.Keys;
  }

  /** The pods that both snapshots have with the same IP. */
  ghost function UnchangedIds(prev: Snapshot, current: Snapshot): set<PodId> {
    set id | id in prev && id in current && prev[id].ip == current[id].ip
  }

  lemma {:induction false} DisjointSize<T>(a: set<T>, b: set<T>, c: set<T>)
    requires a !! b && a !! c && b !! c
    ensures |a + b + c| == |a| + |b| + |c|
  {
    assert |a + b| == |a| + |b|;
    assert (a + b) !! c;
  }

  lemma {:induction false} DeltaSplits(prev: Snapshot, current: Snapshot)
    ensures current.Keys == AddedIds(prev, current) + UpdatedIds(prev, current) + UnchangedIds(prev, current)
    ensures prev.Keys == AddedIds(current, prev) + UpdatedIds(prev, current) + UnchangedIds(prev, current)
  {
  }

  /** Each pod is counted once: it is added, updated or unchanged, and was deleted, updated or
      unchanged; a first snapshot is compared with an empty one. */
  lemma {:induction false} DeltaPartitions(prev: Snapshot, current: Snapshot)
    ensures var d, same := DeltaOf(Some(prev), current), |UnchangedIds(prev, current)|;
            |current.Keys| == d.added + d.updated + same && |prev.Keys| == d.deleted + d.updated + same
    ensures DeltaOf(None, current) == DeltaOf(Some(map[]), current)
  {
    DeltaSplits(prev, current);
    DisjointSize(AddedIds(prev, current), UpdatedIds(prev, current), UnchangedIds(prev, current));
    DisjointSize(AddedIds(current, prev), UpdatedIds(prev, current), UnchangedIds(prev, current));
    NothingBefore(current);
  }

  lemma {:induction false} NothingBefore(current: Snapshot)
    ensures AddedIds(map[], current) == current.Keys && AddedIds(current, map[]) == {} && UpdatedIds(map[], current) == {}
  {
  }

  /** Nothing is counted exactly when both snapshots have the same pods with the same IPs. */
  lemma {:induction false} NoChangeIff(prev: Snapshot, current: Snapshot)
    ensures DeltaOf(Some(prev), current).Total() == 0 <==>
            current.Keys == prev.Keys && forall id :: id in prev && id in current ==> current[id].ip == prev[id].ip
  {
    assert AddedIds(prev, current) == {} && AddedIds(current, prev) == {} <==> current.Keys == prev.Keys by {
      SameKeysIff(prev.Keys, current.Keys);
    }
    NoUpdateIff(prev, current);
  }

  lemma {:induction false} SameKeysIff<T>(a: set<T>, b: set<T>)
    ensures b - a == {} && a - b == {} <==> b == a
  {
    if b - a == {} && a - b == {} {
      forall x ensures x in a <==> x in b {
        assert x !in b - a && x !in a - b;
      }
    }
  }

  lemma {:induction false} NoUpdateIff(prev: Snapshot, current: Snapshot)
    ensures UpdatedIds(prev, current) == {} <==> forall id :: id in prev && id in current ==> current[id].ip == prev[id].ip
  {
    if UpdatedIds(prev, current) == {} {
      forall id | id in prev && id in current ensures current[id].ip == prev[id].ip {
        assert id !in UpdatedIds(prev, current);
      }
    }
  }

  lemma {:induction false} SplitCommon<T>(a: set<T>, b: set<T>)
    ensures |a| == |a * b| + |a - b|
  {
    assert a == a * b + (a - b);
  }

  // ---------------------------------------------------------------- the weighted rate

  /** The changes of an interval, scaled by the part of it inside the window ending at `now`. */
  function Weight(iv: Interval, now: int): real {
    var start := if iv.start < now - WINDOW then now - WINDOW else iv.start;
    var end := if iv.end > now then now else iv.end;
    if iv.end <= iv.start || end <= start then 0.0
    else iv.changes as real * ((end - start) as real / (iv.end - iv.start) as real)
  }

  function Weighted(history: seq<Interval>, now: int): real
    decreases |history|
  {
    if history == [] then 0.0 else Weighted(history[..|history| - 1], now) + Weight(history[|history| - 1], now)
  }

  function Rate(history: seq<Interval>, now: int): real {
    Weighted(history, now) / 60.0
  }

  /** The intervals that end inside the window. */
  function Prune(history: seq<Interval>, now: int): seq<Interval>
    decreases |history|
  {
    if history == [] then []
    else
      var last := history[|history| - 1];
      Prune(history[..|history| - 1], now) + (if last.end > now - WINDOW then [last] else [])
  }

  /** The history after an observation, before pruning. */
  function Extend(history: seq<Interval>, prev: Option<Record>, now: int, changes: nat): seq<Interval> {
    if prev.Some? && prev.value.observedAt != 0 && now > prev.value.observedAt && changes > 0
    then history + [Interval(prev.value.observedAt, now, changes)] else history
  }

  function HistoryOf(prev: Option<Record>): seq<Interval> {
    if prev.Some? then prev.value.history else []
  }

  function SnapshotOf(prev: Option<Record>): Option<Snapshot> {
    if prev.Some? then Some(prev.value.snapshot) else None
  }

  /** One observation, pruning its history. */
  function Observe(prev: Option<Record>, current: Snapshot, now: int): Record {
    Record(current, now, Prune(Extend(HistoryOf(prev), prev, now, DeltaOf(SnapshotOf(prev), current).Total()), now))
  }

  class PodChurnTracker {
    var snapshots: map<Key, Record>

    constructor ()
      ensures snapshots == map[]
    {
      snapshots := map[];
    }

    ghost function Previous(key: Key): Option<Record>
      reads this
    {
      if key in snapshots then Some(snapshots[key]) else None
    }

    method ObserveSnapshot(key: Key, current: Snapshot, now: int) returns (delta: Delta, rate: real)
      modifies this
      ensures snapshots == old(snapshots)[key := Observe(old(Previous(key)), current, now)]
      ensures delta == DeltaOf(SnapshotOf(old(Previous(key))), current)
      ensures rate == Rate(snapshots[key].history, now)
    {
      var prev := if key in snapshots then Some(snapshots[key]) else None;
      var record;
      record, delta, rate := ObserveOnce(prev, current, now);
      snapshots := snapshots[key := record];
    }
  }

  method ObserveOnce(prev: Option<Record>, current: Snapshot, now: int) returns (record: Record, delta: Delta, rate: real)
    ensures record == Observe(prev, current, now)
    ensures delta == DeltaOf(SnapshotOf(prev), current)
    ensures rate == Rate(record.history, now)
  {
    delta := ComputeDelta(SnapshotOf(prev), current);
    var history := PruneHistory(Extend(HistoryOf(prev), prev, now, delta.Total()), now);
    rate := WeighHistory(history, now);
    record := Record(current, now, history);
  }

  method PruneHistory(history: seq<Interval>, now: int) returns (pruned: seq<Interval>)
    ensures pruned == Prune(history, now)
  {
    pruned := [];
    for k := 0 to |history|
      invariant pruned == Prune(history[..k], now)
    {
      assert history[..k + 1][..k] == history[..k];
      if history[k].end > now - WINDOW {
        pruned := pruned + [history[k]];
      }
    }
    assert history[..|history|] == history;
  }

  method WeighHistory(history: seq<Interval>, now: int) returns (rate: real)
    ensures rate == Rate(history, now)
  {
    var weighted := 0.0;
    for k := 0 to |history|
      invariant weighted == Weighted(history[..k], now)
    {
      assert history[..k + 1][..k] == history[..k];
      weighted := weighted + Weight(history[k], now);
    }
    assert history[..|history|] == history;
    rate := weighted / 60.0;
  }

  // ---------------------------------------------------------------- pruning loses nothing

  lemma {:induction false} WeightedConcat(a: seq<Interval>, b: seq<Interval>, now: int)
    ensures Weighted(a + b, now) == Weighted(a, now) + Weighted(b, now)
    decreases |b|
  {
    if b == [] {
      assert a + b == a;
    } else {
      var front := b[..|b| - 1];
      WeightedConcat(a, front, now);
      assert (a + b)[..|a + b| - 1] == a + front;
    }
  }

  /** An interval that ended before the window counts nothing, now or later. */
  lemma {:induction false} PruneKeepsWeight(history: seq<Interval>, since: int, now: int)
    requires since <= now
    ensures Weighted(Prune(history, since), now) == Weighted(history, now)
    decreases |history|
  {
    if history != [] {
      var front, last := history[..|history| - 1], history[|history| - 1];
      PruneKeepsWeight(front, since, now);
      WeightedConcat(Prune(front, since), if last.end > since - WINDOW then [last] else [], now);
      assert Weighted([last], now) == Weight(last, now) by { assert [last][..0] == []; }
    }
  }

  /** What is retained is exactly what ended less than a minute ago. */
  lemma {:induction false} PruneRetains(history: seq<Interval>, now: int, iv: Interval)
    ensures iv in Prune(history, now) <==> iv in history && iv.end > now - 60_000_000_000
    decreases |history|
  {
    if history != [] {
      var front, last := history[..|history| - 1], history[|history| - 1];
      PruneRetains(front, now, iv);
      assert history == front + [last];
    }
  }

  lemma {:induction false} PruneConcat(a: seq<Interval>, b: seq<Interval>, now: int)
    ensures Prune(a + b, now) == Prune(a, now) + Prune(b, now)
    decreases |b|
  {
    if b == [] {
      assert a + b == a;
    } else {
      var front := b[..|b| - 1];
      PruneConcat(a, front, now);
      assert (a + b)[..|a + b| - 1] == a + front;
    }
  }

  lemma {:induction false} PruneTwice(history: seq<Interval>, since: int, now: int)
    requires since <= now
    ensures Prune(Prune(history, since), now) == Prune(history, now)
    decreases |history|
  {
    if history != [] {
      var front, last := history[..|history| - 1], history[|history| - 1];
      PruneTwice(front, since, now);
      PruneConcat(Prune(front, since), if last.end > since - WINDOW then [last] else [], now);
      assert Prune([last], now) == (if last.end > now - WINDOW then [last] else []) by { assert [last][..0] == []; }
    }
  }

  datatype Observation = Observation(current: Snapshot, now: int)

  ghost predicate NonDecreasing(obs: seq<Observation>) {
    forall i, j :: 0 <= i < j < |obs| ==> obs[i].now <= obs[j].now
  }

  /** The record after all observations, pruning at each. */
  function Observed(obs: seq<Observation>): Option<Record>
    decreases |obs|
  {
    if obs == [] then None
    else Some(Observe(Observed(obs[..|obs| - 1]), obs[|obs| - 1].current, obs[|obs| - 1].now))
  }

  /** The same history, never pruned. */
  function FullHistory(obs: seq<Observation>): seq<Interval>
    decreases |obs|
  {
    if obs == [] then []
    else
      var prev, last := Observed(obs[..|obs| - 1]), obs[|obs| - 1];
      Extend(FullHistory(obs[..|obs| - 1]), prev, last.now, DeltaOf(SnapshotOf(prev), last.current).Total())
  }

  lemma {:induction false} PrunedIsPruneOfFull(obs: seq<Observation>)
    requires NonDecreasing(obs) && obs != []
    ensures Observed(obs).value.history == Prune(FullHistory(obs), obs[|obs| - 1].now)
    ensures Observed(obs).value.observedAt == obs[|obs| - 1].now
    decreases |obs|
  {
    var front, last := obs[..|obs| - 1], obs[|obs| - 1];
    if front != [] {
      PrunedIsPruneOfFull(front);
      var prev := Observed(front);
      ExtendThenPrune(FullHistory(front), prev, front[|front| - 1].now, last.now, DeltaOf(SnapshotOf(prev), last.current).Total());
    }
  }

  /** Extending a pruned history and pruning again is extending the full one and pruning once. */
  lemma {:induction false} ExtendThenPrune(full: seq<Interval>, prev: Option<Record>, since: int, now: int, changes: nat)
    requires since <= now
    ensures Prune(Extend(Prune(full, since), prev, now, changes), now) == Prune(Extend(full, prev, now, changes), now)
  {
    var tail := Extend([], prev, now, changes);
    assert Prune(full, since) + tail == Extend(Prune(full, since), prev, now, changes);
    assert full + tail == Extend(full, prev, now, changes);
    PruneConcat(Prune(full, since), tail, now);
    PruneConcat(full, tail, now);
    PruneTwice(full, since, now);
  }

  /** For observations at non-decreasing times, the rate from the pruned history is, at that
      observation and at any later time, the rate the full history would give. */
  lemma {:induction false} PruningIsLossless(obs: seq<Observation>, later: int)
    requires NonDecreasing(obs) && obs != [] && obs[|obs| - 1].now <= later
    ensures Rate(Observed(obs).value.history, later) == Rate(FullHistory(obs), later)
  {
    PrunedIsPruneOfFull(obs);
    PruneKeepsWeight(FullHistory(obs), obs[|obs| - 1].now, later);
  }

  lemma {:induction false} ExtendsBy(history: seq<Interval>, prev: Record, now: int, changes: nat)
    ensures Extend(history, Some(prev), now, changes) ==
            history + (if prev.observedAt != 0 && prev.observedAt < now && changes > 0 then [Interval(prev.observedAt, now, changes)] else [])
  {
  }

  lemma {:induction false} ObservedLast(obs: seq<Observation>)
    requires obs != []
    ensures Observed(obs).Some? && Observation(Observed(obs).value.snapshot, Observed(obs).value.observedAt) == obs[|obs| - 1]
  {
  }

  /** The full history holds one interval per observation that changed something, from the
      observation before, if that has an earlier time, to that one, with what changed. */
  lemma {:induction false} HistoryRecordsChanges(front: seq<Observation>, last: Observation)
    ensures front == [] ==> FullHistory(front + [last]) == []
    ensures front != [] ==>
              var before := front[|front| - 1];
              var changes := DeltaOf(Some(before.current), last.current).Total();
              FullHistory(front + [last]) ==
                FullHistory(front) + (if before.now != 0 && before.now < last.now && changes > 0 then [Interval(before.now, last.now, changes)] else [])
  {
    assert (front + [last])[..|front|] == front;
    if front != [] {
      ObservedLast(front);
      var prev := Observed(front).value;
      ExtendsBy(FullHistory(front), prev, last.now, DeltaOf(Some(prev.snapshot), last.current).Total());
    }
  }

  function TotalChanges(history: seq<Interval>): nat
    decreases |history|
  {
    if history == [] then 0 else TotalChanges(history[..|history| - 1]) + history[|history| - 1].changes
  }

  lemma {:induction false} WeightBounded(iv: Interval, now: int)
    ensures 0.0 <= Weight(iv, now) <= iv.changes as real
  {
    var start := if iv.start < now - WINDOW then now - WINDOW else iv.start;
    var end := if iv.end > now then now else iv.end;
    if iv.end > iv.start && end > start {
      var part := (end - start) as real / (iv.end - iv.start) as real;
      PartBounded((end - start) as real, (iv.end - iv.start) as real);
      ScaleBounded(iv.changes as real, part);
      assert Weight(iv, now) == iv.changes as real * part;
    }
  }

  /** An interval inside the window counts in full, one that ended before it not at all. */
  lemma {:induction false} WeightAtEdges(iv: Interval, now: int)
    ensures now - 60_000_000_000 <= iv.start < iv.end <= now ==> Weight(iv, now) == iv.changes as real
    ensures iv.end <= now - 60_000_000_000 ==> Weight(iv, now) == 0.0
  {
    if now - WINDOW <= iv.start < iv.end <= now {
      WholePart((iv.end - iv.start) as real);
    }
  }

  /** An interval that straddles the start of the window counts by its part inside. */
  lemma {:induction false} WeightStraddles(iv: Interval, now: int)
    requires iv.start <= now - 60_000_000_000 < iv.end <= now
    ensures Weight(iv, now) * (iv.end - iv.start) as real == iv.changes as real * (iv.end - (now - 60_000_000_000)) as real
  {
    var inside, whole := (iv.end - (now - WINDOW)) as real, (iv.end - iv.start) as real;
    var part := inside / whole;
    assert part * whole == inside;
    assert Weight(iv, now) == iv.changes as real * part;
    assert (iv.changes as real * part) * whole == iv.changes as real * (part * whole);
  }

  /** The rate of intervals inside the window is their changes per second of it. */
  lemma {:induction false} RateInsideWindow(history: seq<Interval>, now: int)
    requires forall iv :: iv in history ==> now - 60_000_000_000 <= iv.start < iv.end <= now
    ensures Weighted(history, now) == TotalChanges(history) as real
    ensures Rate(history, now) == TotalChanges(history) as real / 60.0
    decreases |history|
  {
    if history != [] {
      var front, last := history[..|history| - 1], history[|history| - 1];
      assert last in history;
      RateInsideWindow(front, now);
      WeightAtEdges(last, now);
    }
  }

  lemma {:induction false} WholePart(x: real)
    requires x > 0.0
    ensures x / x == 1.0
  {
  }

  lemma {:induction false} PartBounded(x: real, y: real)
    requires 0.0 <= x <= y && y > 0.0
    ensures 0.0 <= x / y <= 1.0
  {
    var q := x / y;
    assert q * y == x;
  }

  lemma {:induction false} ScaleBounded(c: real, part: real)
    requires 0.0 <= c && 0.0 <= part <= 1.0
    ensures 0.0 <= c * part <= c
  {
  }

  /** The rate lies between zero and all retained changes spread over the window. */
  lemma {:induction false} RateBounded(history: seq<Interval>, now: int)
    ensures 0.0 <= Weighted(history, now) <= TotalChanges(history) as real
    ensures 0.0 <= Rate(history, now) <= TotalChanges(history) as real / 60.0
    decreases |history|
  {
    if history != [] {
      RateBounded(history[..|history| - 1], now);
      WeightBounded(history[|history| - 1], now);
    }
  }
}
