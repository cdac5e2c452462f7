/** The diff between desired and actual prefix sets, and what applying it does. */
module Diff {
  import opened Model
  import opened DesiredState

  datatype Kind = Create | Update | Patch | Delete

  /** `add` and `remove` are empty except in a patch, `desired` is empty in a delete. */
  datatype Action = Action(kind: Kind, target: Target, desired: set<string>, add: set<string>, remove: set<string>)

  /** Prefix sets under their normalised key, each with one of its spellings. */
  type ByKey = map<string, Group>

  /** `g` keeps, for every key of `d`, the prefixes of one of its spellings. */
  ghost predicate Chooses(g: ByKey, d: Prefixes) {
    g.Keys == KeysOf(d.Keys) &&
    forall key :: key in g ==> g[key].target.key == key && g[key].target in d && g[key].ips == d[g[key].target]
  }

  /** Azure's view: prefixes by key. */
  function Ips(g: ByKey): map<string, set<string>> {
    map key | key in g :: g[key].ips
  }

  const DEFAULT_PATCH_THRESHOLD_PERCENT := 50

  function Clamp(threshold: int): int {
    if threshold < 1 || threshold > 100 then DEFAULT_PATCH_THRESHOLD_PERCENT else threshold
  }

  predicate ShouldUsePatch(addCount: nat, removeCount: nat, desiredCount: nat, actualCount: nat, percent: int) {
    desiredCount + actualCount != 0 && 100 * (addCount + removeCount) <= percent * (desiredCount + actualCount)
  }

  // ---------------------------------------------------------------- what a diff is

  ghost predicate Differs(D: ByKey, A: ByKey, key: string) {
    (key in D) != (key in A) || (key in D && D[key].ips != A[key].ips)
  }

  /** The one correct action for the target of `a`. */
  ghost predicate Correct(a: Action, D: ByKey, A: ByKey, percent: int) {
    var key := a.target.key;
    Differs(D, A, key) &&
    if key !in D then a == Action(Delete, A[key].target, {}, {}, {})
    else if key !in A then a == Action(Create, D[key].target, D[key].ips, {}, {})
    else
      var add, remove := D[key].ips - A[key].ips, A[key].ips - D[key].ips;
      if ShouldUsePatch(|add|, |remove|, |D[key].ips|, |A[key].ips|, percent) then
        a == Action(Patch, D[key].target, D[key].ips, add, remove)
      else a == Action(Update, D[key].target, D[key].ips, {}, {})
  }

  /** One correct action per differing key and none otherwise, in any order. */
  ghost predicate IsDiff(actions: seq<Action>, D: ByKey, A: ByKey, percent: int) {
    (forall a :: a in actions ==> Correct(a, D, A, percent)) &&
    (forall i, j :: 0 <= i < j < |actions| ==> actions[i].target.key != actions[j].target.key) &&
    (forall key :: Differs(D, A, key) ==> exists a :: a in actions && a.target.key == key)
  }

  // ---------------------------------------------------------------- the computation

  /** Files the sets by key, in any order; a later spelling replaces an earlier one. */
  method FileByKey(d: Prefixes) returns (g: ByKey)
    ensures Chooses(g, d)
  {
    g := map[];
    var rest := d.Keys;
    ghost var filed: set<Target> := {};
    while rest != {}
      invariant rest <= d.Keys && filed == d.Keys - rest
      invariant g.Keys == KeysOf(filed)
      invariant forall key :: key in g ==> g[key].target.key == key && g[key].target in d && g[key].ips == d[g[key].target]
      decreases rest
    {
      var t :| t in rest;
      assert KeysOf(filed + {t}) == KeysOf(filed) + {t.key};
      g := g[t.key := Group(t, d[t])];
      rest, filed := rest - {t}, filed + {t};
    }
    assert filed == d.Keys;
  }

  lemma {:induction false} SubsetOfSameSize<T>(a: set<T>, b: set<T>)
    requires a <= b && |a| == |b|
    ensures a == b
  {
    assert |b - a| == |b| - |a|;
  }

  method IpSetsEqual(a: set<string>, b: set<string>) returns (equal: bool)
    ensures equal == (a == b)
  {
    if |a| != |b| {
      return false;
    }
    var rest := a;
    while rest != {}
      invariant rest <= a && a - rest <= b
      decreases rest
    {
      var ip :| ip in rest;
      if ip !in b {
        return false;
      }
      rest := rest - {ip};
    }
    assert a - rest == a;
    SubsetOfSameSize(a, b);
    return true;
  }

  /** The elements of `a` missing from `b`. */
  method Missing(a: set<string>, b: set<string>) returns (out: set<string>)
    ensures out == a - b
  {
    out := {};
    var rest := a;
    while rest != {}
      invariant rest <= a && out == a - rest - b
      decreases rest
    {
      var ip :| ip in rest;
      if ip !in b {
        out := out + {ip};
      }
      rest := rest - {ip};
    }
  }

  method ComputeIpDelta(desired: set<string>, actual: set<string>) returns (add: set<string>, remove: set<string>)
    ensures add == desired - actual && remove == actual - desired
  {
    add := Missing(desired, actual);
    remove := Missing(actual, desired);
  }

  /** The action for one desired key, if the sets differ. */
  method DiffDesired(key: string, D: ByKey, A: ByKey, percent: int) returns (action: Option<Action>)
    requires key in D && D[key].target.key == key
    ensures action.None? <==> !Differs(D, A, key)
    ensures action.Some? ==> action.value.target.key == key && Correct(action.value, D, A, percent)
  {
    var target, ips := D[key].target, D[key].ips;
    if key !in A {
      return Some(Action(Create, target, ips, {}, {}));
    }
    var equal := IpSetsEqual(ips, A[key].ips);
    if equal {
      return None;
    }
    var add, remove := ComputeIpDelta(ips, A[key].ips);
    if ShouldUsePatch(|add|, |remove|, |ips|, |A[key].ips|, percent) {
      return Some(Action(Patch, target, ips, add, remove));
    }
    return Some(Action(Update, target, ips, {}, {}));
  }

  /** The actions so far concern exactly the differing keys among `seen`. */
  ghost predicate DiffOver(actions: seq<Action>, D: ByKey, A: ByKey, percent: int, seen: set<string>) {
    (forall a :: a in actions ==> Correct(a, D, A, percent) && a.target.key in seen) &&
    (forall i, j :: 0 <= i < j < |actions| ==> actions[i].target.key != actions[j].target.key) &&
    (forall key :: key in seen && Differs(D, A, key) ==> exists a :: a in actions && a.target.key == key)
  }

  lemma {:induction false} DiffGrows(actions: seq<Action>, more: Option<Action>, D: ByKey, A: ByKey, percent: int, seen: set<string>, key: string)
    requires DiffOver(actions, D, A, percent, seen) && key !in seen
    requires more.None? <==> !Differs(D, A, key)
    requires more.Some? ==> more.value.target.key == key && Correct(more.value, D, A, percent)
    ensures DiffOver(if more.Some? then actions + [more.value] else actions, D, A, percent, seen + {key})
  {
    var out := if more.Some? then actions + [more.value] else actions;
    forall k | k in seen + {key} && Differs(D, A, k) ensures exists a :: a in out && a.target.key == k {
      if k == key {
        assert more.value in out;
      } else {
        var a :| a in actions && a.target.key == k;
        assert a in out;
      }
    }
    forall i | 0 <= i < |actions| ensures actions[i].target.key in seen { assert actions[i] in actions; }
  }

  method DiffByKey(D: ByKey, A: ByKey, percent: int) returns (actions: seq<Action>)
    requires forall key :: key in D ==> D[key].target.key == key
    requires forall key :: key in A ==> A[key].target.key == key
    ensures IsDiff(actions, D, A, percent)
  {
    actions := [];
    ghost var seen: set<string> := {};
    var rest := D.Keys;
    while rest != {}
      invariant rest <= D.Keys && seen == D.Keys - rest
      invariant DiffOver(actions, D, A, percent, seen)
      decreases rest
    {
      var key :| key in rest;
      var action := DiffDesired(key, D, A, percent);
      DiffGrows(actions, action, D, A, percent, seen, key);
      if action.Some? {
        actions := actions + [action.value];
      }
      rest, seen := rest - {key}, seen + {key};
    }
    assert seen == D.Keys;
    var extra := A.Keys - D.Keys;
    ghost var all := D.Keys + A.Keys;
    while extra != {}
      invariant extra <= A.Keys - D.Keys && seen == all - extra
      invariant DiffOver(actions, D, A, percent, seen)
      decreases extra
    {
      var key :| key in extra;
      var action := Action(Delete, A[key].target, {}, {}, {});
      DiffGrows(actions, Some(action), D, A, percent, seen, key);
      actions := actions + [action];
      extra, seen := extra - {key}, seen + {key};
    }
    assert seen == all;
    assert forall key :: Differs(D, A, key) ==> key in all;
  }

  /** `ComputeDiff`, up to the final sort: the results below hold for every order. */
  method ComputeDiff(desired: Prefixes, actual: Prefixes, threshold: int) returns (actions: seq<Action>)
    ensures exists D, A :: Chooses(D, desired) && Chooses(A, actual) && IsDiff(actions, D, A, Clamp(threshold))
  {
    var D := FileByKey(desired);
    var A := FileByKey(actual);
    actions := DiffByKey(D, A, Clamp(threshold));
  }

  // ---------------------------------------------------------------- applying actions

  /** Prefix sets as Azure holds them. */
  type Contents = map<string, set<string>>

  function PatchDelta(current: set<string>, add: set<string>, remove: set<string>): set<string> {
    current - remove + add
  }

  function ApplyAction(store: Contents, a: Action): Contents {
    match a.kind
    case Create => store[a.target.key := a.desired]
    case Update => store[a.target.key := a.desired]
    case Patch =>
      if a.target.key in store then store[a.target.key := PatchDelta(store[a.target.key], a.add, a.remove)] else store
    case Delete => store - {a.target.key}
  }

  function ApplyAll(store: Contents, actions: seq<Action>): Contents
    decreases |actions|
  {
    if actions == [] then store else ApplyAction(ApplyAll(store, actions[..|actions| - 1]), actions[|actions| - 1])
  }

  function IpsOr(store: Contents, key: string): Option<set<string>> {
    if key in store then Some(store[key]) else None
  }

  lemma {:induction false} ApplyAllElsewhere(store: Contents, actions: seq<Action>, key: string)
    requires forall a :: a in actions ==> a.target.key != key
    ensures IpsOr(ApplyAll(store, actions), key) == IpsOr(store, key)
    decreases |actions|
  {
    if actions != [] {
      assert actions[|actions| - 1] in actions;
      ApplyAllElsewhere(store, actions[..|actions| - 1], key);
    }
  }

  /** Among actions on distinct targets, each takes effect as if it were alone. */
  lemma {:induction false} ApplyAllAt(store: Contents, actions: seq<Action>, i: nat)
    requires i < |actions|
    requires forall x, y :: 0 <= x < y < |actions| ==> actions[x].target.key != actions[y].target.key
    ensures var key := actions[i].target.key;
            IpsOr(ApplyAll(store, actions), key) == IpsOr(ApplyAction(store, actions[i]), key)
    decreases |actions|
  {
    var front, key := actions[..|actions| - 1], actions[i].target.key;
    if i == |front| {
      ApplyAllElsewhere(store, front, key);
    } else {
      ApplyAllAt(store, front, i);
    }
  }

  /** Applying a diff to the actual state, in whatever order, yields exactly the desired state. */
  lemma {:induction false} DiffConverges(actions: seq<Action>, D: ByKey, A: ByKey, percent: int)
    requires IsDiff(actions, D, A, percent)
    ensures ApplyAll(Ips(A), actions) == Ips(D)
  {
    forall key ensures IpsOr(ApplyAll(Ips(A), actions), key) == IpsOr(Ips(D), key) {
      DiffConvergesAt(actions, D, A, percent, key);
    }
    SameContents(ApplyAll(Ips(A), actions), Ips(D));
  }

  lemma {:induction false} DiffConvergesAt(actions: seq<Action>, D: ByKey, A: ByKey, percent: int, key: string)
    requires IsDiff(actions, D, A, percent)
    ensures IpsOr(ApplyAll(Ips(A), actions), key) == IpsOr(Ips(D), key)
  {
    if Differs(D, A, key) {
      var a :| a in actions && a.target.key == key;
      var i :| 0 <= i < |actions| && actions[i] == a;
      ApplyAllAt(Ips(A), actions, i);
      CorrectConverges(a, D, A, percent);
    } else {
      forall a | a in actions ensures a.target.key != key {
        assert Correct(a, D, A, percent);
      }
      ApplyAllElsewhere(Ips(A), actions, key);
    }
  }

  lemma {:induction false} CorrectConverges(a: Action, D: ByKey, A: ByKey, percent: int)
    requires Correct(a, D, A, percent)
    ensures IpsOr(ApplyAction(Ips(A), a), a.target.key) == IpsOr(Ips(D), a.target.key)
  {
    var key := a.target.key;
    assert a.kind.Patch? ==> PatchDelta(A[key].ips, a.add, a.remove) == D[key].ips;
  }

  lemma {:induction false} SameContents(a: Contents, b: Contents)
    requires forall key :: IpsOr(a, key) == IpsOr(b, key)
    ensures a == b
  {
    forall key ensures key in a <==> key in b {
      assert IpsOr(a, key) == IpsOr(b, key);
    }
    forall key | key in a ensures a[key] == b[key] {
      assert IpsOr(a, key) == IpsOr(b, key);
    }
  }

  lemma {:induction false} TwiceInMultiset(p: seq<Action>, i: nat, j: nat)
    requires i < j < |p| && p[i] == p[j]
    ensures multiset(p)[p[i]] >= 2
  {
    assert p == p[..j] + [p[j]] + p[j + 1..];
    assert p[i] in p[..j];
  }

  lemma {:induction false} OnceInMultiset(p: seq<Action>, a: Action)
    requires forall x, y :: 0 <= x < y < |p| ==> p[x] != p[y]
    ensures multiset(p)[a] <= 1
    decreases |p|
  {
    if p != [] {
      var front := p[..|p| - 1];
      OnceInMultiset(front, a);
      assert p == front + [p[|p| - 1]];
      if a == p[|p| - 1] {
        assert a !in front;
      }
    }
  }

  /** A reordering of a diff is a diff. */
  lemma {:induction false} AnyOrder(p: seq<Action>, actions: seq<Action>, D: ByKey, A: ByKey, percent: int)
    requires IsDiff(actions, D, A, percent) && multiset(p) == multiset(actions)
    ensures IsDiff(p, D, A, percent)
  {
    forall a ensures a in p <==> a in actions {
      assert a in p <==> a in multiset(p);
    }
    forall i, j | 0 <= i < j < |p| ensures p[i].target.key != p[j].target.key {
      if p[i].target.key == p[j].target.key {
        assert p[i] in actions && p[j] in actions;
        assert p[i] == p[j];
        TwiceInMultiset(p, i, j);
        OnceInMultiset(actions, p[i]);
        assert false;
      }
    }
  }

  /** A key has an action exactly when it differs, and then only one. */
  lemma {:induction false} OneActionPerDifference(actions: seq<Action>, D: ByKey, A: ByKey, percent: int, key: string)
    requires IsDiff(actions, D, A, percent)
    ensures Differs(D, A, key) <==> exists i :: 0 <= i < |actions| && actions[i].target.key == key
    ensures forall i, j :: 0 <= i < |actions| && 0 <= j < |actions| && actions[i].target.key == actions[j].target.key ==> i == j
  {
    if Differs(D, A, key) {
      var a :| a in actions && a.target.key == key;
      var i :| 0 <= i < |actions| && actions[i] == a;
    }
    if i :| 0 <= i < |actions| && actions[i].target.key == key {
      assert actions[i] in actions;
    }
  }

  /** Once converged, a further diff is empty, whatever the spellings. */
  lemma {:induction false} SecondDiffIsEmpty(actions: seq<Action>, D: ByKey, A: ByKey, percent: int)
    requires IsDiff(actions, D, A, percent) && Ips(A) == Ips(D)
    ensures actions == []
  {
    assert actions == [] || actions[0] in actions;
    forall key ensures !Differs(D, A, key) {
      assert key in Ips(A) <==> key in A;
      assert key in Ips(D) <==> key in D;
      assert key in D ==> Ips(D)[key] == D[key].ips && Ips(A)[key] == A[key].ips;
    }
  }

  // ---------------------------------------------------------------- patches

  method ApplyPatchDelta(current: seq<string>, add: seq<string>, remove: seq<string>) returns (merged: set<string>)
    ensures merged == PatchDelta(Elems(current), Elems(add), Elems(remove))
    ensures forall ip :: ip in merged <==> ip in add || (ip in current && ip !in remove)
  {
    merged := {};
    for k := 0 to |current|
      invariant merged == Elems(current[..k])
    {
      ElemsPrefix(current, k);
      merged := merged + {current[k]};
    }
    ElemsWhole(current);
    for k := 0 to |remove|
      invariant merged == Elems(current) - Elems(remove[..k])
    {
      ElemsPrefix(remove, k);
      merged := merged - {remove[k]};
    }
    ElemsWhole(remove);
    for k := 0 to |add|
      invariant merged == Elems(current) - Elems(remove) + Elems(add[..k])
    {
      ElemsPrefix(add, k);
      merged := merged + {add[k]};
    }
    ElemsWhole(add);
  }

  /** A patch diffed from `A` towards `D`, applied to `C`: on `A` it is a full update, and on a
      drifted `C` it misses `D` exactly by what drifted in outside both and what drifted out of both. */
  lemma {:induction false} PatchRefinesUpdate(D: set<string>, A: set<string>, C: set<string>)
    ensures PatchDelta(A, D - A, A - D) == D
    ensures PatchDelta(C, D - A, A - D) - D == C - (A + D)
    ensures D - PatchDelta(C, D - A, A - D) == A * D - C
    ensures PatchDelta(C, D - A, A - D) == D <==> C <= A + D && A * D <= C
  {
    var merged := PatchDelta(C, D - A, A - D);
    assert merged - D == C - (A + D);
    assert D - merged == A * D - C;
    if merged == D {
      assert C - (A + D) == {};
    }
    if C <= A + D && A * D <= C {
      assert merged - D == {} && D - merged == {};
    }
  }

  lemma {:induction false} SplitSize(a: set<string>, b: set<string>)
    ensures |a - b| == |a| - |a * b|
  {
    assert a == (a - b) + (a * b);
  }

  /** The threshold weighs the change against both sets: disjoint sets are never patched below
      100 percent, and at 100 percent every differing pair is. */
  lemma {:induction false} PatchThreshold(D: set<string>, A: set<string>, percent: int)
    requires 1 <= percent <= 100 && D != A
    ensures ShouldUsePatch(|D - A|, |A - D|, |D|, |A|, percent) <==>
            200 * |D * A| >= (100 - percent) * (|D| + |A|)
    ensures D !! A ==> (ShouldUsePatch(|D - A|, |A - D|, |D|, |A|, percent) <==> percent == 100)
    ensures percent == 100 ==> ShouldUsePatch(|D - A|, |A - D|, |D|, |A|, percent)
  {
    SplitSize(D, A);
    SplitSize(A, D);
    assert D * A == A * D;
    assert |D| + |A| > 0 by { assert D != {} || A != {}; }
    if D !! A {
      assert D * A == {};
    }
  }

  /** The configured threshold decides between patch and full update: from 1 to 100 percent it is
      taken as given, anything else counts as 50 percent. */
  lemma {:induction false} ThresholdDecides(actions: seq<Action>, D: ByKey, A: ByKey, threshold: int, a: Action)
    requires IsDiff(actions, D, A, Clamp(threshold)) && a in actions && a.target.key in D && a.target.key in A
    ensures var wanted, found := D[a.target.key].ips, A[a.target.key].ips;
            var percent := if 1 <= threshold <= 100 then threshold else 50;
            && (a.kind.Patch? <==> 200 * |wanted * found| >= (100 - percent) * (|wanted| + |found|))
            && (!a.kind.Patch? ==> a.kind.Update?)
  {
    assert Correct(a, D, A, Clamp(threshold));
    PatchThreshold(D[a.target.key].ips, A[a.target.key].ips, Clamp(threshold));
  }
}
