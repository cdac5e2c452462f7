/** What a mapping wants: a declarative account of every derived field over a pod set, and
    the three computations of the engine, each proved to produce it. */
module DesiredState {
  import opened Model

  type Pods = map<PodId, Pod>
  type Prefixes = map<Target, set<string>>

  /** Pods are filed under their own identity. */
  ghost predicate Keyed(P: Pods) {
    forall id :: id in P ==> P[id].id == id
  }

  // ---------------------------------------------------------------- declarative account

  /** The pods feeding prefix set `t`. */
  ghost function Feeders(m: Mapping, P: Pods, t: Target): set<PodId> {
    set id | id in P && P[id].address.Some? && t in TargetsOfRules(m, RulesOf(m, P[id]))
  }

  ghost function WantedIps(m: Mapping, P: Pods, t: Target): set<string> {
    set id | id in Feeders(m, P, t) :: P[id].address.value.cidr
  }

  /** The targets, as spelled, that some pod feeds. */
  ghost function FedTargets(m: Mapping, P: Pods): set<Target> {
    set t | t in AllTargets(m) && Feeders(m, P, t) != {}
  }

  ghost function WantedPodRules(m: Mapping, P: Pods): map<PodId, set<nat>> {
    map id | id in P && RulesOf(m, P[id]) != {} :: RulesOf(m, P[id])
  }

  ghost function WantedSnapshot(m: Mapping, P: Pods): map<PodId, Address> {
    map id | id in P && RulesOf(m, P[id]) != {} && P[id].address.Some? :: P[id].address.value
  }

  ghost function Matching(m: Mapping, P: Pods, i: nat): set<PodId> {
    set id | id in P && i in RulesOf(m, P[id])
  }

  ghost function Pending(m: Mapping, P: Pods): set<PodId> {
    set id | id in P && RulesOf(m, P[id]) != {} && P[id].address.None?
  }

  /** The pods feeding the prefix set with normalised identity `key`. */
  ghost function KeyFeeders(m: Mapping, P: Pods, key: string): set<PodId> {
    set id | id in P && P[id].address.Some? && key in KeysOfRules(m, RulesOf(m, P[id]))
  }

  ghost function WantedIpsByKey(m: Mapping, P: Pods, key: string): set<string> {
    set id | id in KeyFeeders(m, P, key) :: P[id].address.value.cidr
  }

  /** The prefixes of a target, where a missing target and an empty one are the same. */
  function IpsAt(d: Prefixes, t: Target): set<string> {
    if t in d then d[t] else {}
  }

  // ---------------------------------------------------------------- one more pod

  ghost function Gain(reached: bool, pod: Pod): set<string> {
    if reached && pod.address.Some? then {pod.address.value.cidr} else {}
  }

  lemma {:induction false} WantedIpsAdd(m: Mapping, P: Pods, pod: Pod, t: Target)
    requires pod.id !in P
    ensures WantedIps(m, P[pod.id := pod], t) ==
            WantedIps(m, P, t) + Gain(t in TargetsOfRules(m, RulesOf(m, pod)), pod)
  {
    var P' := P[pod.id := pod];
    forall id | id in P ensures P'[id] == P[id] {}
    forall c | c in WantedIps(m, P, t) + Gain(t in TargetsOfRules(m, RulesOf(m, pod)), pod)
      ensures c in WantedIps(m, P', t)
    {
      if c in WantedIps(m, P, t) {
        var id :| id in Feeders(m, P, t) && P[id].address.value.cidr == c;
        assert id in Feeders(m, P', t);
      } else {
        assert pod.id in Feeders(m, P', t);
      }
    }
  }

  /** A new pod feeds the targets of its rules and takes nothing from the others. */
  lemma {:induction false} FedAdd(m: Mapping, P: Pods, pod: Pod)
    requires pod.id !in P
    ensures FedTargets(m, P) <= FedTargets(m, P[pod.id := pod])
    ensures pod.address.Some? ==> TargetsOfRules(m, RulesOf(m, pod)) <= FedTargets(m, P[pod.id := pod])
  {
    var P' := P[pod.id := pod];
    forall t | t in FedTargets(m, P) ensures t in FedTargets(m, P') {
      var id :| id in Feeders(m, P, t);
      assert id in Feeders(m, P', t);
    }
    forall t | pod.address.Some? && t in TargetsOfRules(m, RulesOf(m, pod)) ensures t in FedTargets(m, P') {
      assert pod.id in Feeders(m, P', t);
    }
  }

  lemma {:induction false} WantedIpsByKeyAdd(m: Mapping, P: Pods, pod: Pod, key: string)
    requires pod.id !in P
    ensures WantedIpsByKey(m, P[pod.id := pod], key) ==
            WantedIpsByKey(m, P, key) + Gain(key in KeysOfRules(m, RulesOf(m, pod)), pod)
  {
    var P' := P[pod.id := pod];
    forall c | c in WantedIpsByKey(m, P, key) + Gain(key in KeysOfRules(m, RulesOf(m, pod)), pod)
      ensures c in WantedIpsByKey(m, P', key)
    {
      if c in WantedIpsByKey(m, P, key) {
        var id :| id in KeyFeeders(m, P, key) && P[id].address.value.cidr == c;
        assert id in KeyFeeders(m, P', key);
      } else {
        assert pod.id in KeyFeeders(m, P', key);
      }
    }
  }

  lemma {:induction false} MatchingAdd(m: Mapping, P: Pods, pod: Pod, i: nat)
    requires pod.id !in P
    ensures |Matching(m, P[pod.id := pod], i)| == |Matching(m, P, i)| + (if i in RulesOf(m, pod) then 1 else 0)
  {
    var P' := P[pod.id := pod];
    assert Matching(m, P', i) == Matching(m, P, i) + (if i in RulesOf(m, pod) then {pod.id} else {});
  }

  lemma {:induction false} PendingAdd(m: Mapping, P: Pods, pod: Pod)
    requires pod.id !in P
    ensures |Pending(m, P[pod.id := pod])| ==
            |Pending(m, P)| + (if RulesOf(m, pod) != {} && pod.address.None? then 1 else 0)
  {
    var P' := P[pod.id := pod];
    forall id | id in P ensures id in P' && P'[id] == P[id] {}
    if RulesOf(m, pod) != {} && pod.address.None? {
      assert Pending(m, P') == Pending(m, P) + {pod.id};
    } else {
      assert Pending(m, P') == Pending(m, P);
    }
  }

  lemma {:induction false} TrackedAdd(m: Mapping, P: Pods, pod: Pod)
    requires pod.id !in P
    ensures WantedPodRules(m, P[pod.id := pod]) ==
            if RulesOf(m, pod) == {} then WantedPodRules(m, P) else WantedPodRules(m, P)[pod.id := RulesOf(m, pod)]
    ensures WantedSnapshot(m, P[pod.id := pod]) ==
            if RulesOf(m, pod) == {} || pod.address.None? then WantedSnapshot(m, P)
            else WantedSnapshot(m, P)[pod.id := pod.address.value]
  {
  }

  // ---------------------------------------------------------------- listings

  ghost predicate DistinctPods(pods: seq<Pod>) {
    forall a, b :: 0 <= a < b < |pods| ==> pods[a].id != pods[b].id
  }

  /** The pod set a listing stands for. */
  ghost function PodsOf(pods: seq<Pod>): Pods {
    if pods == [] then map[] else PodsOf(pods[..|pods| - 1])[pods[|pods| - 1].id := pods[|pods| - 1]]
  }

  lemma {:induction false} PodsOfContents(pods: seq<Pod>)
    requires DistinctPods(pods)
    ensures Keyed(PodsOf(pods))
    ensures forall id :: id in PodsOf(pods) <==> exists k :: 0 <= k < |pods| && pods[k].id == id
    ensures forall k :: 0 <= k < |pods| ==> PodsOf(pods)[pods[k].id] == pods[k]
  {
    if pods != [] {
      var front := pods[..|pods| - 1];
      PodsOfContents(front);
      forall k | 0 <= k < |front| ensures front[k].id in PodsOf(front) {}
      forall id | exists k :: 0 <= k < |pods| && pods[k].id == id ensures id in PodsOf(pods) {
        var k :| 0 <= k < |pods| && pods[k].id == id;
        if k < |front| { assert front[k].id == id; }
      }
      forall id | id in PodsOf(front) ensures exists k :: 0 <= k < |pods| && pods[k].id == id {
        var k :| 0 <= k < |front| && front[k].id == id;
        assert pods[k].id == id;
      }
    }
  }

  lemma {:induction false} PodsOfStep(pods: seq<Pod>, k: nat)
    requires DistinctPods(pods) && k < |pods|
    ensures pods[k].id !in PodsOf(pods[..k])
    ensures PodsOf(pods[..k + 1]) == PodsOf(pods[..k])[pods[k].id := pods[k]]
  {
    PodsOfContents(pods[..k]);
    assert pods[..k + 1][..k] == pods[..k];
  }

  // ---------------------------------------------------------------- helpers of the engine

  /** The indices of the matching rules, in order. */
  method MatchPodToRuleIndices(m: Mapping, labels: Labels) returns (indices: seq<nat>)
    ensures Elems(indices) == MatchSet(m, labels)
    ensures forall i :: i in indices ==> i < |m.rules|
    ensures forall a, b :: 0 <= a < b < |indices| ==> indices[a] < indices[b]
  {
    indices := [];
    for k := 0 to |m.rules|
      invariant forall i :: i in indices <==> 0 <= i < k && Selects(m.rules[i].selector, labels)
      invariant forall a, b :: 0 <= a < b < |indices| ==> indices[a] < indices[b]
    {
      if Selects(m.rules[k].selector, labels) {
        assert forall a :: 0 <= a < |indices| ==> indices[a] in indices;
        indices := indices + [k];
      }
    }
  }

  /** The targets of a rule, skipping references that do not parse. */
  method ResolveRuleTargets(rule: Rule) returns (targets: seq<Target>)
    ensures Elems(targets) == TargetsOf(rule)
  {
    targets := [];
    for k := 0 to |rule.refs|
      invariant forall t :: t in targets <==> Asg(t) in rule.refs[..k]
    {
      assert rule.refs[..k + 1] == rule.refs[..k] + [rule.refs[k]];
      if rule.refs[k].Asg? {
        targets := targets + [rule.refs[k].target];
      }
    }
    assert rule.refs[..|rule.refs|] == rule.refs;
    forall t ensures t in targets <==> t in TargetsOf(rule) {
      if t in targets { assert Asg(t) in rule.refs; }
    }
  }

  /** Prefixes merged under a normalised key, with the first spelling seen. */
  datatype Group = Group(target: Target, ips: set<string>)
  type Groups = map<string, Group>

  function GroupIps(g: Groups, key: string): set<string> {
    if key in g then g[key].ips else {}
  }

  ghost predicate GoodGroups(g: Groups, allowed: set<Target>) {
    forall key :: key in g ==> g[key].target.key == key && g[key].target in allowed
  }

  /** `g` is `g0` with `ips` added under every key of `keys`. */
  ghost predicate Merged(g0: Groups, g: Groups, keys: set<string>, ips: set<string>) {
    g.Keys == g0.Keys + keys &&
    forall key :: GroupIps(g, key) == GroupIps(g0, key) + (if key in keys then ips else {})
  }

  lemma {:induction false} MergedTwice(g0: Groups, g1: Groups, g2: Groups, a: set<string>, b: set<string>, ips: set<string>)
    requires Merged(g0, g1, a, ips) && Merged(g1, g2, b, ips)
    ensures Merged(g0, g2, a + b, ips)
  {
    forall key ensures GroupIps(g2, key) == GroupIps(g0, key) + (if key in a + b then ips else {}) {
      assert GroupIps(g1, key) == GroupIps(g0, key) + (if key in a then ips else {});
    }
  }

  function Put(g: Groups, t: Target, ips: set<string>): Groups {
    g[t.key := Group(if t.key in g then g[t.key].target else t, GroupIps(g, t.key) + ips)]
  }

  lemma {:induction false} PutMerges(g: Groups, t: Target, ips: set<string>, allowed: set<Target>)
    requires GoodGroups(g, allowed) && t in allowed
    ensures GoodGroups(Put(g, t, ips), allowed) && Merged(g, Put(g, t, ips), {t.key}, ips)
  {
  }

  lemma {:induction false} KeysPrefix(targets: seq<Target>, k: nat)
    requires k < |targets|
    ensures KeysOf(Elems(targets[..k + 1])) == KeysOf(Elems(targets[..k])) + {targets[k].key}
  {
    ElemsPrefix(targets, k);
  }

  /** Adds `ips` to the group of every target, opening groups as needed. */
  method Merge(g0: Groups, targets: seq<Target>, ips: set<string>, ghost allowed: set<Target>) returns (g: Groups)
    requires GoodGroups(g0, allowed) && Elems(targets) <= allowed
    ensures GoodGroups(g, allowed) && Merged(g0, g, KeysOf(Elems(targets)), ips)
    ensures forall key :: key in g0 ==> key in g && g[key].target == g0[key].target
  {
    g := g0;
    for k := 0 to |targets|
      invariant GoodGroups(g, allowed) && Merged(g0, g, KeysOf(Elems(targets[..k])), ips)
      invariant forall key :: key in g0 ==> key in g && g[key].target == g0[key].target
    {
      assert targets[k] in Elems(targets);
      PutMerges(g, targets[k], ips, allowed);
      KeysPrefix(targets, k);
      MergedTwice(g0, g, Put(g, targets[k], ips), KeysOf(Elems(targets[..k])), {targets[k].key}, ips);
      g := Put(g, targets[k], ips);
    }
    ElemsWhole(targets);
  }

  lemma {:induction false} RuleAmong(m: Mapping, indices: seq<nat>, k: nat)
    requires k < |indices|
    ensures RuleTargets(m, indices[k]) <= TargetsOfRules(m, Elems(indices))
    ensures KeysOfRules(m, Elems(indices[..k + 1])) == KeysOfRules(m, Elems(indices[..k])) + KeysOf(RuleTargets(m, indices[k]))
  {
    assert indices[k] in Elems(indices);
    ElemsPrefix(indices, k);
    TargetsOfRulesUnion(m, Elems(indices[..k]), {indices[k]});
    TargetsOfOneRule(m, indices[k]);
  }

  /** Adds one pod's prefix to the targets of every rule it matches. */
  method MergePod(g0: Groups, m: Mapping, indices: seq<nat>, cidr: string, ghost allowed: set<Target>) returns (g: Groups)
    requires GoodGroups(g0, allowed) && TargetsOfRules(m, Elems(indices)) <= allowed
    requires forall i :: i in indices ==> i < |m.rules|
    ensures GoodGroups(g, allowed) && Merged(g0, g, KeysOfRules(m, Elems(indices)), {cidr})
  {
    g := g0;
    for k := 0 to |indices|
      invariant GoodGroups(g, allowed) && Merged(g0, g, KeysOfRules(m, Elems(indices[..k])), {cidr})
    {
      var i := indices[k];
      assert i in indices;
      var targets := ResolveRuleTargets(m.rules[i]);
      RuleAmong(m, indices, k);
      ghost var before := g;
      g := Merge(g, targets, {cidr}, allowed);
      MergedTwice(g0, before, g, KeysOfRules(m, Elems(indices[..k])), KeysOf(RuleTargets(m, i)), {cidr});
    }
    ElemsWhole(indices);
  }

  /** The groups as a prefix map over representative targets. */
  function Ungroup(g: Groups): Prefixes
    requires forall key :: key in g ==> g[key].target.key == key
  {
    map key | key in g.Keys :: g[key].target := g[key].ips
  }

  // ---------------------------------------------------------------- several mappings at once

  /** The prefixes some mapping of `ms` wants under `key`. */
  ghost function WantedByAny(ms: seq<Mapping>, P: Pods, key: string): set<string> {
    set j, c | 0 <= j < |ms| && c in WantedIpsByKey(ms[j], P, key) :: c
  }

  ghost function TargetsOfAny(ms: seq<Mapping>): set<Target> {
    set j, t | 0 <= j < |ms| && t in AllTargets(ms[j]) :: t
  }

  /** `d` holds, once per normalised key, exactly what the mappings want; it may or may not
      list a target that wants nothing. */
  ghost predicate Covers(d: Prefixes, ms: seq<Mapping>, P: Pods) {
    (forall t :: t in d ==> t in TargetsOfAny(ms) && d[t] == WantedByAny(ms, P, t.key)) &&
    (forall t, u :: t in d && u in d && t.key == u.key ==> t == u) &&
    (forall key :: WantedByAny(ms, P, key) != {} ==> exists t :: t in d && t.key == key)
  }

  ghost predicate NoEmpty(d: Prefixes) {
    forall t :: t in d ==> d[t] != {}
  }

  ghost predicate WantGroups(g: Groups, ms: seq<Mapping>, P: Pods) {
    forall key :: GroupIps(g, key) == WantedByAny(ms, P, key)
  }

  lemma {:induction false} UngroupCovers(g: Groups, ms: seq<Mapping>, P: Pods)
    requires GoodGroups(g, TargetsOfAny(ms)) && WantGroups(g, ms, P)
    ensures Covers(Ungroup(g), ms, P)
    ensures (forall key :: key in g ==> g[key].ips != {}) ==> NoEmpty(Ungroup(g))
  {
    var d := Ungroup(g);
    forall t | t in d ensures t.key in g && g[t.key].target == t && d[t] == GroupIps(g, t.key) {}
    forall key | WantedByAny(ms, P, key) != {} ensures exists t :: t in d && t.key == key {
      assert GroupIps(g, key) != {};
      assert g[key].target in d;
    }
  }

  lemma {:induction false} WantedByAnyOne(m: Mapping, P: Pods, key: string)
    ensures WantedByAny([m], P, key) == WantedIpsByKey(m, P, key)
  {
    assert [m][0] == m;
  }

  lemma {:induction false} WantedByAnyStep(ms: seq<Mapping>, k: nat, P: Pods, key: string)
    requires k < |ms|
    ensures WantedByAny(ms[..k + 1], P, key) == WantedByAny(ms[..k], P, key) + WantedIpsByKey(ms[k], P, key)
  {
    assert ms[..k + 1] == ms[..k] + [ms[k]];
    forall c | c in WantedByAny(ms[..k], P, key) + WantedIpsByKey(ms[k], P, key)
      ensures c in WantedByAny(ms[..k + 1], P, key)
    {
      if c in WantedByAny(ms[..k], P, key) {
        var j :| 0 <= j < k && c in WantedIpsByKey(ms[..k][j], P, key);
        assert ms[..k + 1][j] == ms[j];
      } else {
        assert ms[..k + 1][k] == ms[k];
      }
    }
  }

  // ---------------------------------------------------------------- rule by rule

  ghost function RuleIps(m: Mapping, P: Pods, i: nat): set<string> {
    set id | id in Matching(m, P, i) && P[id].address.Some? :: P[id].address.value.cidr
  }

  ghost function RulesUpTo(m: Mapping, P: Pods, key: string, k: nat): set<string> {
    set i: nat, c | i < k && key in KeysOf(RuleTargets(m, i)) && c in RuleIps(m, P, i) :: c
  }

  lemma {:induction false} RulesUpToStep(m: Mapping, P: Pods, key: string, k: nat)
    ensures RulesUpTo(m, P, key, k + 1) ==
            RulesUpTo(m, P, key, k) + (if key in KeysOf(RuleTargets(m, k)) then RuleIps(m, P, k) else {})
  {
  }

  lemma {:induction false} RulesUpToAll(m: Mapping, P: Pods, key: string)
    ensures RulesUpTo(m, P, key, |m.rules|) == WantedIpsByKey(m, P, key)
  {
    forall c | c in RulesUpTo(m, P, key, |m.rules|) ensures c in WantedIpsByKey(m, P, key) {
      var i: nat :| i < |m.rules| && key in KeysOf(RuleTargets(m, i)) && c in RuleIps(m, P, i);
      var id :| id in Matching(m, P, i) && P[id].address.Some? && P[id].address.value.cidr == c;
      var t :| t in RuleTargets(m, i) && t.key == key;
      assert t in TargetsOfRules(m, RulesOf(m, P[id]));
      assert id in KeyFeeders(m, P, key);
    }
    forall c | c in WantedIpsByKey(m, P, key) ensures c in RulesUpTo(m, P, key, |m.rules|) {
      var id :| id in KeyFeeders(m, P, key) && P[id].address.value.cidr == c;
      var t :| t in TargetsOfRules(m, RulesOf(m, P[id])) && t.key == key;
      var i :| i in RulesOf(m, P[id]) && t in RuleTargets(m, i);
      assert id in Matching(m, P, i);
      assert c in RuleIps(m, P, i);
    }
  }

  /** The prefixes of the pods that rule `i` selects. */
  method MatchedIps(m: Mapping, i: nat, pods: seq<Pod>) returns (ips: set<string>)
    requires DistinctPods(pods) && i < |m.rules|
    ensures ips == RuleIps(m, PodsOf(pods), i)
  {
    ips := {};
    for k := 0 to |pods|
      invariant ips == RuleIps(m, PodsOf(pods[..k]), i)
    {
      PodsOfStep(pods, k);
      RuleIpsAdd(m, PodsOf(pods[..k]), pods[k], i);
      var pod := pods[k];
      if pod.id.namespace == m.key.namespace && Selects(m.rules[i].selector, pod.labels) && pod.address.Some? {
        ips := ips + {pod.address.value.cidr};
      }
    }
    assert pods[..|pods|] == pods;
  }

  lemma {:induction false} RuleIpsAdd(m: Mapping, P: Pods, pod: Pod, i: nat)
    requires pod.id !in P
    ensures RuleIps(m, P[pod.id := pod], i) == RuleIps(m, P, i) + Gain(i in RulesOf(m, pod), pod)
  {
    var P' := P[pod.id := pod];
    forall c | c in RuleIps(m, P, i) + Gain(i in RulesOf(m, pod), pod) ensures c in RuleIps(m, P', i) {
      if c in RuleIps(m, P, i) {
        var id :| id in Matching(m, P, i) && P[id].address.Some? && P[id].address.value.cidr == c;
        assert id in Matching(m, P', i);
      } else {
        assert pod.id in Matching(m, P', i);
      }
    }
  }

  /** One rule of `ComputeDesiredState`: its matched prefixes go to each of its targets. */
  method MergeRule(g0: Groups, m: Mapping, i: nat, pods: seq<Pod>, ghost allowed: set<Target>) returns (g: Groups)
    requires DistinctPods(pods) && GoodGroups(g0, allowed) && AllTargets(m) <= allowed && i < |m.rules|
    ensures GoodGroups(g, allowed)
    ensures forall key :: GroupIps(g, key) ==
              GroupIps(g0, key) + (if key in KeysOf(RuleTargets(m, i)) then RuleIps(m, PodsOf(pods), i) else {})
  {
    g := g0;
    if m.rules[i].selector.Uncompilable? {
      assert RuleIps(m, PodsOf(pods), i) == {};
    } else {
      var ips := MatchedIps(m, i, pods);
      var targets := ResolveRuleTargets(m.rules[i]);
      assert Elems(targets) == RuleTargets(m, i) && RuleTargets(m, i) <= AllTargets(m);
      g := Merge(g, targets, ips, allowed);
    }
  }

  /** One mapping of `ComputeDesiredState`. */
  method MergeRules(g0: Groups, m: Mapping, pods: seq<Pod>, ghost allowed: set<Target>) returns (g: Groups)
    requires DistinctPods(pods) && GoodGroups(g0, allowed) && AllTargets(m) <= allowed
    ensures GoodGroups(g, allowed)
    ensures forall key :: GroupIps(g, key) == GroupIps(g0, key) + WantedIpsByKey(m, PodsOf(pods), key)
  {
    g := g0;
    ghost var P := PodsOf(pods);
    for k := 0 to |m.rules|
      invariant GoodGroups(g, allowed)
      invariant forall key :: GroupIps(g, key) == GroupIps(g0, key) + RulesUpTo(m, P, key, k)
    {
      g := MergeRule(g, m, k, pods, allowed);
      forall key { RulesUpToStep(m, P, key, k); }
    }
    forall key { RulesUpToAll(m, P, key); }
  }

  /** The rule-major reference computation. */
  method ComputeDesiredState(ms: seq<Mapping>, pods: seq<Pod>) returns (d: Prefixes)
    requires DistinctPods(pods)
    ensures Covers(d, ms, PodsOf(pods))
  {
    var g: Groups := map[];
    ghost var P := PodsOf(pods);
    for k := 0 to |ms|
      invariant GoodGroups(g, TargetsOfAny(ms)) && WantGroups(g, ms[..k], P)
    {
      assert AllTargets(ms[k]) <= TargetsOfAny(ms);
      forall key { WantedByAnyStep(ms, k, P, key); }
      g := MergeRules(g, ms[k], pods, TargetsOfAny(ms));
    }
    assert ms[..|ms|] == ms;
    UngroupCovers(g, ms, P);
    d := Ungroup(g);
  }

  // ---------------------------------------------------------------- pod by pod

  ghost predicate MatchedByAny(ms: seq<Mapping>, pod: Pod) {
    exists m :: m in ms && RulesOf(m, pod) != {}
  }

  ghost function SnapshotOfAny(ms: seq<Mapping>, P: Pods): map<PodId, Address> {
    map id | id in P && P[id].address.Some? && MatchedByAny(ms, P[id]) :: P[id].address.value
  }

  lemma {:induction false} MatchedByAnyStep(ms: seq<Mapping>, k: nat, pod: Pod)
    requires k < |ms|
    ensures MatchedByAny(ms[..k + 1], pod) <==> MatchedByAny(ms[..k], pod) || RulesOf(ms[k], pod) != {}
  {
    assert ms[..k + 1] == ms[..k] + [ms[k]];
    assert ms[k] in ms[..k + 1];
    forall m | m in ms[..k] ensures m in ms[..k + 1] {}
  }

  lemma {:induction false} SnapshotOfAnyStep(ms: seq<Mapping>, k: nat, P: Pods)
    requires k < |ms|
    ensures SnapshotOfAny(ms[..k + 1], P) == SnapshotOfAny(ms[..k], P) + WantedSnapshot(ms[k], P)
  {
    forall id | id in P ensures MatchedByAny(ms[..k + 1], P[id]) <==> MatchedByAny(ms[..k], P[id]) || RulesOf(ms[k], P[id]) != {} {
      MatchedByAnyStep(ms, k, P[id]);
    }
    SnapshotUnion(ms[..k + 1], ms[..k], ms[k], P);
  }

  lemma {:induction false} SnapshotUnion(wide: seq<Mapping>, narrow: seq<Mapping>, m: Mapping, P: Pods)
    requires forall id :: id in P ==> (MatchedByAny(wide, P[id]) <==> MatchedByAny(narrow, P[id]) || RulesOf(m, P[id]) != {})
    ensures SnapshotOfAny(wide, P) == SnapshotOfAny(narrow, P) + WantedSnapshot(m, P)
  {
    var all, both := SnapshotOfAny(wide, P), SnapshotOfAny(narrow, P) + WantedSnapshot(m, P);
    forall id ensures id in all <==> id in both {
      assert id in both <==> id in SnapshotOfAny(narrow, P) || id in WantedSnapshot(m, P);
    }
    forall id | id in all ensures all[id] == both[id] {
      assert both[id] == P[id].address.value;
    }
  }

  /** One mapping of `ComputeDesiredStateWithSnapshot`. */
  method MergePods(g0: Groups, snapshot0: map<PodId, Address>, m: Mapping, pods: seq<Pod>, ghost allowed: set<Target>)
    returns (g: Groups, snapshot: map<PodId, Address>)
    requires DistinctPods(pods) && GoodGroups(g0, allowed) && AllTargets(m) <= allowed
    requires forall key :: key in g0 ==> g0[key].ips != {}
    ensures GoodGroups(g, allowed) && forall key :: key in g ==> g[key].ips != {}
    ensures forall key :: GroupIps(g, key) == GroupIps(g0, key) + WantedIpsByKey(m, PodsOf(pods), key)
    ensures snapshot == snapshot0 + WantedSnapshot(m, PodsOf(pods))
  {
    g, snapshot := g0, snapshot0;
    ghost var P: Pods := map[];
    for k := 0 to |pods|
      invariant P == PodsOf(pods[..k])
      invariant GoodGroups(g, allowed) && forall key :: key in g ==> g[key].ips != {}
      invariant GroupsGain(g0, g, m, P)
      invariant snapshot == snapshot0 + WantedSnapshot(m, P)
    {
      PodsOfStep(pods, k);
      ghost var before := g;
      g, snapshot := MergeOnePod(g, snapshot, m, pods[k], allowed);
      SnapshotAdd(snapshot0, m, P, pods[k]);
      GroupsGainOne(g0, before, g, m, P, pods[k]);
      P := P[pods[k].id := pods[k]];
    }
    assert pods[..|pods|] == pods;
  }

  /** The groups have gained exactly what the mapping wants of `P`. */
  ghost predicate GroupsGain(g0: Groups, g: Groups, m: Mapping, P: Pods) {
    forall key :: GroupIps(g, key) == GroupIps(g0, key) + WantedIpsByKey(m, P, key)
  }

  lemma {:induction false} GroupsGainOne(g0: Groups, g: Groups, g': Groups, m: Mapping, P: Pods, pod: Pod)
    requires GroupsGain(g0, g, m, P) && pod.id !in P
    requires forall key :: GroupIps(g', key) == GroupIps(g, key) + Gain(key in KeysOfRules(m, RulesOf(m, pod)), pod)
    ensures GroupsGain(g0, g', m, P[pod.id := pod])
  {
    forall key ensures GroupIps(g', key) == GroupIps(g0, key) + WantedIpsByKey(m, P[pod.id := pod], key) {
      WantedIpsByKeyAdd(m, P, pod, key);
      assert GroupIps(g, key) == GroupIps(g0, key) + WantedIpsByKey(m, P, key);
    }
  }

  lemma {:induction false} SnapshotAdd(snapshot: map<PodId, Address>, m: Mapping, P: Pods, pod: Pod)
    requires pod.id !in P
    ensures snapshot + WantedSnapshot(m, P[pod.id := pod]) ==
            if RulesOf(m, pod) == {} || pod.address.None? then snapshot + WantedSnapshot(m, P)
            else (snapshot + WantedSnapshot(m, P))[pod.id := pod.address.value]
  {
    TrackedAdd(m, P, pod);
  }

  method MergeOnePod(g0: Groups, snapshot0: map<PodId, Address>, m: Mapping, pod: Pod, ghost allowed: set<Target>)
    returns (g: Groups, snapshot: map<PodId, Address>)
    requires GoodGroups(g0, allowed) && AllTargets(m) <= allowed
    requires forall key :: key in g0 ==> g0[key].ips != {}
    ensures GoodGroups(g, allowed) && forall key :: key in g ==> g[key].ips != {}
    ensures forall key :: GroupIps(g, key) == GroupIps(g0, key) + Gain(key in KeysOfRules(m, RulesOf(m, pod)), pod)
    ensures snapshot == if RulesOf(m, pod) == {} || pod.address.None? then snapshot0 else snapshot0[pod.id := pod.address.value]
  {
    g, snapshot := g0, snapshot0;
    if pod.id.namespace == m.key.namespace && pod.address.Some? {
      var indices := MatchPodToRuleIndices(m, pod.labels);
      assert Elems(indices) == RulesOf(m, pod);
      if |indices| != 0 {
        assert indices[0] in RulesOf(m, pod);
        snapshot := snapshot[pod.id := pod.address.value];
        assert TargetsOfRules(m, RulesOf(m, pod)) <= AllTargets(m);
        g := MergeMatched(g, m, pod, indices, allowed);
      }
    }
  }

  /** The pod-major computation with a snapshot of the matched pods that have an IP. */
  method ComputeDesiredStateWithSnapshot(ms: seq<Mapping>, pods: seq<Pod>) returns (d: Prefixes, snapshot: map<PodId, Address>)
    requires DistinctPods(pods)
    ensures Covers(d, ms, PodsOf(pods)) && NoEmpty(d)
    ensures snapshot == SnapshotOfAny(ms, PodsOf(pods))
  {
    var g: Groups := map[];
    snapshot := map[];
    ghost var P := PodsOf(pods);
    for k := 0 to |ms|
      invariant GoodGroups(g, TargetsOfAny(ms)) && WantGroups(g, ms[..k], P)
      invariant forall key :: key in g ==> g[key].ips != {}
      invariant snapshot == SnapshotOfAny(ms[..k], P)
    {
      assert AllTargets(ms[k]) <= TargetsOfAny(ms);
      forall key { WantedByAnyStep(ms, k, P, key); }
      SnapshotOfAnyStep(ms, k, P);
      g, snapshot := MergePods(g, snapshot, ms[k], pods, TargetsOfAny(ms));
    }
    assert ms[..|ms|] == ms;
    UngroupCovers(g, ms, P);
    d := Ungroup(g);
  }

  /** The prefixes of one matched pod, if it has an IP. */
  method MergeMatched(g0: Groups, m: Mapping, pod: Pod, indices: seq<nat>, ghost allowed: set<Target>) returns (g: Groups)
    requires GoodGroups(g0, allowed) && (pod.address.Some? ==> TargetsOfRules(m, Elems(indices)) <= allowed)
    requires forall key :: key in g0 ==> g0[key].ips != {}
    requires forall i :: i in indices ==> i < |m.rules|
    ensures GoodGroups(g, allowed) && forall key :: key in g ==> g[key].ips != {}
    ensures forall key :: GroupIps(g, key) == GroupIps(g0, key) + Gain(key in KeysOfRules(m, Elems(indices)), pod)
  {
    g := g0;
    if pod.address.Some? {
      g := MergePod(g, m, indices, pod.address.value.cidr, allowed);
      forall key | key in g ensures g[key].ips != {} {
        assert GroupIps(g, key) == g[key].ips;
      }
    }
  }

  // ---------------------------------------------------------------- the single pass

  /** Everything one recompute derives from a pod listing. */
  datatype Artifacts = Artifacts(
    desired: Prefixes,
    snapshot: map<PodId, Address>,
    counts: seq<int>,
    hasPending: bool,
    podRules: map<PodId, set<nat>>,
    pending: int)

  /** All derived fields but the prefixes are those of pod set `P`. */
  ghost predicate Tracks(a: Artifacts, m: Mapping, P: Pods) {
    a.snapshot == WantedSnapshot(m, P) &&
    a.podRules == WantedPodRules(m, P) &&
    CountsAre(a.counts, m, P) &&
    a.pending == |Pending(m, P)| &&
    a.hasPending == (a.pending > 0)
  }

  ghost predicate CountsAre(counts: seq<int>, m: Mapping, P: Pods) {
    |counts| == |m.rules| && forall i :: 0 <= i < |m.rules| ==> counts[i] == |Matching(m, P, i)|
  }

  /** The counts with one more pod at each of `indices`. */
  method CountPod(counts0: seq<int>, indices: seq<nat>) returns (counts: seq<int>)
    requires forall i :: i in indices ==> i < |counts0|
    requires forall a, b :: 0 <= a < b < |indices| ==> indices[a] < indices[b]
    ensures |counts| == |counts0|
    ensures forall i :: 0 <= i < |counts| ==> counts[i] == counts0[i] + (if i in Elems(indices) then 1 else 0)
  {
    counts := counts0;
    for k := 0 to |indices|
      invariant |counts| == |counts0|
      invariant forall i :: 0 <= i < |counts| ==> counts[i] == counts0[i] + (if i in Elems(indices[..k]) then 1 else 0)
    {
      ElemsPrefix(indices, k);
      assert indices[k] in indices;
      assert indices[k] !in Elems(indices[..k]);
      counts := counts[indices[k] := counts[indices[k]] + 1];
    }
    ElemsWhole(indices);
  }

  /** The counts computed rule by rule for the status, over a listing of one namespace. */
  method ComputeMatchedPodsByMapping(m: Mapping, pods: seq<Pod>) returns (counts: seq<int>)
    requires DistinctPods(pods)
    requires forall pod :: pod in pods ==> pod.id.namespace == m.key.namespace
    ensures CountsAre(counts, m, PodsOf(pods))
  {
    counts := seq(|m.rules|, _ => 0);
    for i := 0 to |m.rules|
      invariant |counts| == |m.rules|
      invariant forall j :: 0 <= j < i ==> counts[j] == |Matching(m, PodsOf(pods), j)|
    {
      var n := 0;
      assert Matching(m, PodsOf(pods[..0]), i) == {};
      for k := 0 to |pods|
        invariant n == |Matching(m, PodsOf(pods[..k]), i)|
      {
        PodsOfStep(pods, k);
        MatchingAdd(m, PodsOf(pods[..k]), pods[k], i);
        assert pods[k] in pods;
        if Selects(m.rules[i].selector, pods[k].labels) {
          n := n + 1;
        }
      }
      assert pods[..|pods|] == pods;
      counts := counts[i := n];
    }
  }

  /** The single-pass recompute. */
  method ComputeArtifacts(m: Mapping, pods: seq<Pod>) returns (a: Artifacts)
    requires DistinctPods(pods)
    ensures Tracks(a, m, PodsOf(pods))
    ensures Covers(a.desired, [m], PodsOf(pods)) && NoEmpty(a.desired) && a.desired.Keys <= FedTargets(m, PodsOf(pods))
  {
    var g: Groups := map[];
    a := Artifacts(map[], map[], seq(|m.rules|, _ => 0), false, map[], 0);
    ghost var P: Pods := map[];
    for k := 0 to |pods|
      invariant P == PodsOf(pods[..k])
      invariant Tracks(a, m, P) && a.desired == map[]
      invariant GoodGroups(g, FedTargets(m, P)) && forall key :: key in g ==> g[key].ips != {}
      invariant forall key :: GroupIps(g, key) == WantedIpsByKey(m, P, key)
    {
      PodsOfStep(pods, k);
      var indices := MatchInScope(m, pods[k]);
      a := RecomputeFields(a, m, pods[k], indices, P);
      g := RecomputeGroups(g, m, pods[k], indices, P);
      forall key { WantedIpsByKeyAdd(m, P, pods[k], key); }
      P := P[pods[k].id := pods[k]];
    }
    assert pods[..|pods|] == pods;
    assert TargetsOfAny([m]) == AllTargets(m) by { assert [m][0] == m; }
    forall key { WantedByAnyOne(m, PodsOf(pods), key); }
    UngroupCovers(g, [m], PodsOf(pods));
    a := a.(desired := Ungroup(g));
  }

  lemma {:induction false} TracksAdd(a: Artifacts, b: Artifacts, m: Mapping, P: Pods, pod: Pod)
    requires pod.id !in P && Tracks(a, m, P)
    requires b.snapshot == if RulesOf(m, pod) == {} || pod.address.None? then a.snapshot else a.snapshot[pod.id := pod.address.value]
    requires b.podRules == if RulesOf(m, pod) == {} then a.podRules else a.podRules[pod.id := RulesOf(m, pod)]
    requires |b.counts| == |a.counts|
    requires forall i :: 0 <= i < |a.counts| ==> b.counts[i] == a.counts[i] + (if i in RulesOf(m, pod) then 1 else 0)
    requires b.pending == a.pending + (if RulesOf(m, pod) != {} && pod.address.None? then 1 else 0)
    requires b.hasPending == (a.hasPending || (RulesOf(m, pod) != {} && pod.address.None?))
    ensures Tracks(b, m, P[pod.id := pod])
  {
    TrackedAdd(m, P, pod);
    PendingAdd(m, P, pod);
    forall i: nat | i < |m.rules| ensures b.counts[i] == |Matching(m, P[pod.id := pod], i)| {
      MatchingAdd(m, P, pod, i);
    }
  }

  /** The matching rules of a pod of the mapping's namespace; none for other pods. */
  method MatchInScope(m: Mapping, pod: Pod) returns (indices: seq<nat>)
    ensures Elems(indices) == RulesOf(m, pod)
    ensures forall i :: i in indices ==> i < |m.rules|
    ensures forall x, y :: 0 <= x < y < |indices| ==> indices[x] < indices[y]
  {
    indices := [];
    if pod.id.namespace == m.key.namespace {
      indices := MatchPodToRuleIndices(m, pod.labels);
    }
  }

  /** One pod of the single pass, all fields but the prefixes. */
  method RecomputeFields(a0: Artifacts, m: Mapping, pod: Pod, indices: seq<nat>, ghost P: Pods) returns (a: Artifacts)
    requires pod.id !in P && Tracks(a0, m, P) && Elems(indices) == RulesOf(m, pod)
    requires forall x, y :: 0 <= x < y < |indices| ==> indices[x] < indices[y]
    ensures Tracks(a, m, P[pod.id := pod]) && a.desired == a0.desired
  {
    a := a0;
    if |indices| != 0 {
      assert indices[0] in RulesOf(m, pod);
      forall i | i in indices ensures i < |a0.counts| { assert i in RulesOf(m, pod); }
      a := RecomputeTracked(a, pod, indices);
    }
    TracksAdd(a0, a, m, P, pod);
  }

  /** One pod of the single pass, the prefixes. */
  method RecomputeGroups(g0: Groups, m: Mapping, pod: Pod, indices: seq<nat>, ghost P: Pods) returns (g: Groups)
    requires pod.id !in P && Elems(indices) == RulesOf(m, pod) && forall i :: i in indices ==> i < |m.rules|
    requires GoodGroups(g0, FedTargets(m, P)) && forall key :: key in g0 ==> g0[key].ips != {}
    ensures GoodGroups(g, FedTargets(m, P[pod.id := pod])) && forall key :: key in g ==> g[key].ips != {}
    ensures forall key :: GroupIps(g, key) == GroupIps(g0, key) + Gain(key in KeysOfRules(m, RulesOf(m, pod)), pod)
  {
    FedAdd(m, P, pod);
    g := MergeMatched(g0, m, pod, indices, FedTargets(m, P[pod.id := pod]));
  }

  /** The counts, rule set, snapshot row or pending mark of one matched pod. */
  method RecomputeTracked(a0: Artifacts, pod: Pod, indices: seq<nat>) returns (a: Artifacts)
    requires forall i :: i in indices ==> i < |a0.counts|
    requires forall x, y :: 0 <= x < y < |indices| ==> indices[x] < indices[y]
    ensures a.desired == a0.desired && |a.counts| == |a0.counts|
    ensures forall i :: 0 <= i < |a.counts| ==> a.counts[i] == a0.counts[i] + (if i in Elems(indices) then 1 else 0)
    ensures a.podRules == a0.podRules[pod.id := Elems(indices)]
    ensures pod.address.None? ==> a.snapshot == a0.snapshot && a.pending == a0.pending + 1 && a.hasPending
    ensures pod.address.Some? ==>
              a.snapshot == a0.snapshot[pod.id := pod.address.value] && a.pending == a0.pending && a.hasPending == a0.hasPending
  {
    var counts := CountPod(a0.counts, indices);
    a := a0.(counts := counts, podRules := a0.podRules[pod.id := Elems(indices)]);
    if pod.address.None? {
      a := a.(hasPending := true, pending := a.pending + 1);
    } else {
      a := a.(snapshot := a.snapshot[pod.id := pod.address.value]);
    }
  }

  // ---------------------------------------------------------------- the computations agree

  ghost function IpsAtKey(d: Prefixes, key: string): set<string> {
    set t, c | t in d && t.key == key && c in d[t] :: c
  }

  /** A computation that covers the mappings holds, under every key, exactly what they want. */
  lemma {:induction false} CoversExactly(d: Prefixes, ms: seq<Mapping>, P: Pods, key: string)
    requires Covers(d, ms, P)
    ensures IpsAtKey(d, key) == WantedByAny(ms, P, key)
  {
    if WantedByAny(ms, P, key) != {} {
      var t :| t in d && t.key == key;
      assert IpsAtKey(d, key) == d[t];
    }
  }

  /** Any two of the computations agree on every prefix set Azure can distinguish. */
  lemma {:induction false} ComputationsAgree(d: Prefixes, e: Prefixes, ms: seq<Mapping>, P: Pods)
    requires Covers(d, ms, P) && Covers(e, ms, P)
    ensures forall key :: IpsAtKey(d, key) == IpsAtKey(e, key)
  {
    forall key ensures IpsAtKey(d, key) == IpsAtKey(e, key) {
      CoversExactly(d, ms, P, key);
      CoversExactly(e, ms, P, key);
    }
  }

  /** So do their snapshots and counts, where one mapping is computed: `snapshot` pod by pod,
      `counts` by themselves, and `a` in a single pass. */
  lemma {:induction false} TrackingAgrees(a: Artifacts, snapshot: map<PodId, Address>, counts: seq<int>, m: Mapping, P: Pods)
    requires Tracks(a, m, P) && snapshot == SnapshotOfAny([m], P) && CountsAre(counts, m, P)
    ensures a.snapshot == snapshot && a.counts == counts
  {
    forall id | id in P ensures MatchedByAny([m], P[id]) <==> RulesOf(m, P[id]) != {} {
      assert m in [m];
    }
    assert forall i :: 0 <= i < |counts| ==> a.counts[i] == counts[i];
  }

  /** With one spelling per target a covering map is the per-target account, up to empty targets. */
  lemma {:induction false} CoversPerTarget(d: Prefixes, m: Mapping, P: Pods, t: Target)
    requires Covers(d, [m], P) && OneSpelling(m)
    ensures IpsAt(d, t) == WantedIps(m, P, t)
  {
    WantedByAnyOne(m, P, t.key);
    assert TargetsOfAny([m]) == AllTargets(m) by { assert [m][0] == m; }
    assert t !in AllTargets(m) ==> Feeders(m, P, t) == {};
    if t in AllTargets(m) {
      assert Feeders(m, P, t) == KeyFeeders(m, P, t.key) by { FeedersByKey(m, P, t); }
      if WantedIps(m, P, t) != {} {
        var u :| u in d && u.key == t.key;
      }
    }
  }

  lemma {:induction false} FeedersByKey(m: Mapping, P: Pods, t: Target)
    requires OneSpelling(m) && t in AllTargets(m)
    ensures Feeders(m, P, t) == KeyFeeders(m, P, t.key)
  {
    forall id | id in KeyFeeders(m, P, t.key) ensures id in Feeders(m, P, t) {
      var u :| u in TargetsOfRules(m, RulesOf(m, P[id])) && u.key == t.key;
      assert u in AllTargets(m);
    }
  }

  /** No prefix set is fed under two spellings. */
  ghost predicate FedUnderOneSpelling(m: Mapping, P: Pods) {
    forall t, u :: t in FedTargets(m, P) && u in FedTargets(m, P) && t.key == u.key ==> t == u
  }

  /** The recompute lists, target by target, what is wanted exactly when no prefix set is fed
      under two spellings: it files each under the first spelling only. */
  lemma {:induction false} CoversPerTargetIff(d: Prefixes, m: Mapping, P: Pods)
    requires Covers(d, [m], P) && d.Keys <= FedTargets(m, P)
    ensures (forall t :: IpsAt(d, t) == WantedIps(m, P, t)) <==> FedUnderOneSpelling(m, P)
  {
    if FedUnderOneSpelling(m, P) {
      forall t ensures IpsAt(d, t) == WantedIps(m, P, t) {
        FedOncePerTarget(d, m, P, t);
      }
    }
    if forall t :: IpsAt(d, t) == WantedIps(m, P, t) {
      forall t | t in FedTargets(m, P) ensures t in d {
        var id :| id in Feeders(m, P, t);
        assert P[id].address.value.cidr in WantedIps(m, P, t);
        assert IpsAt(d, t) == WantedIps(m, P, t);
      }
    }
  }

  lemma {:induction false} FedOncePerTarget(d: Prefixes, m: Mapping, P: Pods, t: Target)
    requires Covers(d, [m], P) && d.Keys <= FedTargets(m, P) && FedUnderOneSpelling(m, P)
    ensures IpsAt(d, t) == WantedIps(m, P, t)
  {
    if t in FedTargets(m, P) {
      FedKeyFeeders(m, P, t);
      WantedByAnyOne(m, P, t.key);
      var id :| id in Feeders(m, P, t);
      assert P[id].address.value.cidr in WantedIpsByKey(m, P, t.key);
      var u :| u in d && u.key == t.key;
      assert u == t;
    } else {
      FedIsListed(m, P, t);
    }
  }

  lemma {:induction false} FedIsListed(m: Mapping, P: Pods, t: Target)
    ensures Feeders(m, P, t) != {} ==> t in FedTargets(m, P)
  {
    if id :| id in Feeders(m, P, t) {
      assert t in AllTargets(m);
    }
  }

  lemma {:induction false} FedKeyFeeders(m: Mapping, P: Pods, t: Target)
    requires FedUnderOneSpelling(m, P) && t in FedTargets(m, P)
    ensures Feeders(m, P, t) == KeyFeeders(m, P, t.key)
  {
    forall id | id in KeyFeeders(m, P, t.key) ensures id in Feeders(m, P, t) {
      var u :| u in TargetsOfRules(m, RulesOf(m, P[id])) && u.key == t.key;
      assert u in AllTargets(m) && id in Feeders(m, P, u);
    }
  }
}
