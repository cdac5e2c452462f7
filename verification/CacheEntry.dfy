/** The loops that mutate one cache entry, each proved to compute its mutation. */
module CacheEntry {
  import opened Model
  import opened DesiredState
  import opened Incremental

  /** Scans the tracked pods, in any order, for another contributor to rule `i`. */
  method HasOtherContributor(a: Artifacts, id: PodId, i: nat, cidr: string) returns (found: bool)
    ensures found == HasOther(a, id, i, cidr)
  {
    found := false;
    var rest := a.podRules.Keys;
    while rest != {} && !found
      invariant rest <= a.podRules.Keys
      invariant found ==> HasOther(a, id, i, cidr)
      invariant !found ==> forall o :: o in a.podRules && o !in rest ==>
                  !(o != id && i in a.podRules[o] && o in a.snapshot && a.snapshot[o].cidr == cidr)
      decreases rest
    {
      var o :| o in rest;
      rest := rest - {o};
      found := o != id && i in a.podRules[o] && o in a.snapshot && a.snapshot[o].cidr == cidr;
    }
  }

  /** Only the other pods matter to the scan. */
  lemma {:induction false} OthersDecide(a: Artifacts, b: Artifacts, id: PodId, i: nat, cidr: string)
    requires a.podRules - {id} == b.podRules - {id} && a.snapshot - {id} == b.snapshot - {id}
    ensures HasOther(a, id, i, cidr) == HasOther(b, id, i, cidr)
  {
    OthersCarryOver(a, b, id, i, cidr);
    OthersCarryOver(b, a, id, i, cidr);
  }

  lemma {:induction false} OthersCarryOver(a: Artifacts, b: Artifacts, id: PodId, i: nat, cidr: string)
    requires a.podRules - {id} == b.podRules - {id} && a.snapshot - {id} == b.snapshot - {id}
    ensures HasOther(a, id, i, cidr) ==> HasOther(b, id, i, cidr)
  {
    if HasOther(a, id, i, cidr) {
      var o :| o in a.podRules && o != id && i in a.podRules[o] && o in a.snapshot && a.snapshot[o].cidr == cidr;
      assert o in a.podRules - {id} && o in a.snapshot - {id};
      assert (b.podRules - {id})[o] == (a.podRules - {id})[o] && (b.snapshot - {id})[o] == (a.snapshot - {id})[o];
    }
  }

  // ---------------------------------------------------------------- add

  method AddToTargets(d0: Prefixes, targets: seq<Target>, cidr: string) returns (d: Prefixes)
    ensures d == AddPrefix(d0, Elems(targets), cidr)
  {
    d := d0;
    for j := 0 to |targets|
      invariant d == AddPrefix(d0, Elems(targets[..j]), cidr)
    {
      ElemsPrefix(targets, j);
      var t := targets[j];
      d := d[t := IpsAt(d, t) + {cidr}];
    }
    ElemsWhole(targets);
  }

  lemma {:induction false} AddPrefixTwice(d: Prefixes, a: set<Target>, b: set<Target>, cidr: string)
    ensures AddPrefix(AddPrefix(d, a, cidr), b, cidr) == AddPrefix(d, a + b, cidr)
  {
  }

  /** The entry once the rules `done` have been visited for an added pod. */
  ghost predicate AddedFor(a0: Artifacts, a: Artifacts, m: Mapping, pod: Pod, done: set<nat>) {
    a.counts == Bump(a0.counts, done, {}) &&
    a.podRules == (if done == {} then a0.podRules else a0.podRules[pod.id := RulesAt(a0, pod.id) + done]) &&
    a.desired == (if pod.address.Some? && done != {} then AddPrefix(a0.desired, TargetsOfRules(m, done), pod.address.value.cidr)
                  else a0.desired) &&
    a.snapshot == a0.snapshot && a.hasPending == a0.hasPending && a.pending == a0.pending
  }

  lemma {:induction false} AddPrefixNone(d: Prefixes, m: Mapping, cidr: string)
    ensures AddPrefix(d, TargetsOfRules(m, {}), cidr) == d
  {
    assert TargetsOfRules(m, {}) == {};
  }

  /** One matching rule of an added pod: tracking, prefixes of its targets, count. */
  method VisitAdded(a0: Artifacts, m: Mapping, pod: Pod, i: nat) returns (a: Artifacts)
    requires i < |m.rules|
    ensures a.podRules == a0.podRules[pod.id := RulesAt(a0, pod.id) + {i}]
    ensures a.counts == Bump(a0.counts, {i}, {})
    ensures a.desired == if pod.address.Some? then AddPrefix(a0.desired, RuleTargets(m, i), pod.address.value.cidr) else a0.desired
    ensures a.snapshot == a0.snapshot && a.hasPending == a0.hasPending && a.pending == a0.pending
  {
    var tracked := if pod.id in a0.podRules then a0.podRules[pod.id] else {};
    a := a0.(podRules := a0.podRules[pod.id := tracked + {i}]);
    if pod.address.Some? {
      var targets := ResolveRuleTargets(m.rules[i]);
      var desired := AddToTargets(a.desired, targets, pod.address.value.cidr);
      a := a.(desired := desired);
    }
    if i < |a.counts| {
      a := a.(counts := a.counts[i := a.counts[i] + 1]);
    }
  }

  lemma {:induction false} AddedForOne(a0: Artifacts, a: Artifacts, b: Artifacts, m: Mapping, pod: Pod, done: set<nat>, i: nat)
    requires AddedFor(a0, a, m, pod, done) && i !in done
    requires b.podRules == a.podRules[pod.id := RulesAt(a, pod.id) + {i}] && b.counts == Bump(a.counts, {i}, {})
    requires b.desired == if pod.address.Some? then AddPrefix(a.desired, RuleTargets(m, i), pod.address.value.cidr) else a.desired
    requires b.snapshot == a.snapshot && b.hasPending == a.hasPending && b.pending == a.pending
    ensures AddedFor(a0, b, m, pod, done + {i})
  {
    assert RulesAt(a, pod.id) + {i} == RulesAt(a0, pod.id) + (done + {i});
    if pod.address.Some? {
      AddPrefixNone(a0.desired, m, pod.address.value.cidr);
      AddPrefixTwice(a0.desired, TargetsOfRules(m, done), RuleTargets(m, i), pod.address.value.cidr);
      TargetsOfRulesUnion(m, done, {i});
      TargetsOfOneRule(m, i);
    }
  }

  /** `OnPodAdd` on an entry. */
  method AddPod(a0: Artifacts, m: Mapping, pod: Pod) returns (a: Artifacts)
    ensures a == AfterAdd(a0, m, pod)
  {
    var indices := MatchPodToRuleIndices(m, pod.labels);
    a := a0;
    var matched := false;
    for k := 0 to |indices|
      invariant AddedFor(a0, a, m, pod, Elems(indices[..k])) && matched == (k > 0)
    {
      assert indices[k] in indices;
      ElemsPrefix(indices, k);
      assert indices[k] !in Elems(indices[..k]);
      matched := true;
      ghost var before := a;
      a := VisitAdded(a, m, pod, indices[k]);
      AddedForOne(a0, before, a, m, pod, Elems(indices[..k]), indices[k]);
    }
    ElemsWhole(indices);
    assert matched == (Elems(indices) != {}) by { assert |indices| > 0 ==> indices[0] in Elems(indices); }
    if matched {
      if pod.address.Some? {
        a := a.(snapshot := a.snapshot[pod.id := pod.address.value]);
      } else {
        a := a.(pending := a.pending + 1, hasPending := true);
      }
    }
  }

  // ---------------------------------------------------------------- delete

  method DropFromTargets(d0: Prefixes, targets: seq<Target>, cidr: string) returns (d: Prefixes)
    ensures d == DropPrefix(d0, Elems(targets), cidr)
  {
    d := d0;
    for j := 0 to |targets|
      invariant d == DropPrefix(d0, Elems(targets[..j]), cidr)
    {
      ElemsPrefix(targets, j);
      var t := targets[j];
      DropPrefixTwice(d0, Elems(targets[..j]), {t}, cidr);
      if t in d {
        d := d[t := d[t] - {cidr}];
      }
      assert d == DropPrefix(DropPrefix(d0, Elems(targets[..j]), cidr), {t}, cidr);
    }
    ElemsWhole(targets);
  }

  lemma {:induction false} DropPrefixTwice(d: Prefixes, a: set<Target>, b: set<Target>, cidr: string)
    ensures DropPrefix(DropPrefix(d, a, cidr), b, cidr) == DropPrefix(d, a + b, cidr)
  {
    forall t | t in d ensures DropPrefix(DropPrefix(d, a, cidr), b, cidr)[t] == DropPrefix(d, a + b, cidr)[t] {
      assert d[t] - {cidr} - {cidr} == d[t] - {cidr};
    }
  }

  /** The rules of `s` among the first `k`. */
  function Below(s: set<nat>, k: nat): set<nat> {
    set i | i in s && i < k
  }

  lemma {:induction false} BelowStep(m: Mapping, s: set<nat>, k: nat)
    ensures Below(s, k + 1) == Below(s, k) + (if k in s then {k} else {})
    ensures TargetsOfRules(m, Below(s, k + 1)) == TargetsOfRules(m, Below(s, k)) + (if k in s then RuleTargets(m, k) else {})
  {
    assert Below(s, k + 1) == Below(s, k) + (if k in s then {k} else {});
    TargetsOfRulesUnion(m, Below(s, k), if k in s then {k} else {});
    TargetsOfOneRule(m, k);
  }

  /** The entry once the first `k` rules have been visited for a deleted pod. */
  ghost predicate RemovedFor(a0: Artifacts, a: Artifacts, m: Mapping, pod: Pod, k: nat) {
    a.counts == Bump(a0.counts, {}, Below(TouchedRules(a0, m, pod), k)) &&
    a.desired == (if pod.address.Some? then
                    DropPrefix(a0.desired, TargetsOfRules(m, Below(DroppedRules(a0, m, pod, pod.address.value.cidr), k)), pod.address.value.cidr)
                  else a0.desired) &&
    a.snapshot == a0.snapshot - {pod.id} && a.podRules == a0.podRules && a.pending == a0.pending
  }

  /** One contributing rule of a deleted pod: its count, and its prefix unless another pod of
      the rule has it. */
  method VisitRemoved(a0: Artifacts, m: Mapping, pod: Pod, i: nat) returns (a: Artifacts)
    requires i < |m.rules|
    ensures a.counts == Bump(a0.counts, {}, {i})
    ensures a.desired == if pod.address.Some? && !HasOther(a0, pod.id, i, pod.address.value.cidr)
                         then DropPrefix(a0.desired, RuleTargets(m, i), pod.address.value.cidr) else a0.desired
    ensures a.snapshot == a0.snapshot && a.podRules == a0.podRules && a.pending == a0.pending
  {
    a := a0;
    if i < |a.counts| && a.counts[i] > 0 {
      a := a.(counts := a.counts[i := a.counts[i] - 1]);
    }
    if pod.address.Some? {
      var other := HasOtherContributor(a0, pod.id, i, pod.address.value.cidr);
      if !other {
        var targets := ResolveRuleTargets(m.rules[i]);
        var desired := DropFromTargets(a.desired, targets, pod.address.value.cidr);
        a := a.(desired := desired);
      }
    }
  }

  lemma {:induction false} RemovedForOne(a0: Artifacts, a: Artifacts, b: Artifacts, m: Mapping, pod: Pod, i: nat)
    requires RemovedFor(a0, a, m, pod, i) && i in TouchedRules(a0, m, pod)
    requires b.counts == Bump(a.counts, {}, {i})
    requires b.desired == if pod.address.Some? && !HasOther(a, pod.id, i, pod.address.value.cidr)
                          then DropPrefix(a.desired, RuleTargets(m, i), pod.address.value.cidr) else a.desired
    requires b.snapshot == a.snapshot && b.podRules == a.podRules && b.pending == a.pending
    ensures RemovedFor(a0, b, m, pod, i + 1)
  {
    BelowStep(m, TouchedRules(a0, m, pod), i);
    if pod.address.Some? {
      var cidr := pod.address.value.cidr;
      var dropped := DroppedRules(a0, m, pod, cidr);
      assert a.snapshot - {pod.id} == a0.snapshot - {pod.id};
      OthersDecide(a0, a, pod.id, i, cidr);
      BelowStep(m, dropped, i);
      DropPrefixTwice(a0.desired, TargetsOfRules(m, Below(dropped, i)), RuleTargets(m, i), cidr);
    }
  }

  lemma {:induction false} RemovedForSkip(a0: Artifacts, a: Artifacts, m: Mapping, pod: Pod, i: nat)
    requires RemovedFor(a0, a, m, pod, i) && i !in TouchedRules(a0, m, pod)
    ensures RemovedFor(a0, a, m, pod, i + 1)
  {
    assert Below(TouchedRules(a0, m, pod), i + 1) == Below(TouchedRules(a0, m, pod), i);
    if pod.address.Some? {
      var dropped := DroppedRules(a0, m, pod, pod.address.value.cidr);
      assert Below(dropped, i + 1) == Below(dropped, i);
    }
  }

  lemma {:induction false} RemovedForNone(a0: Artifacts, m: Mapping, pod: Pod)
    ensures RemovedFor(a0, a0.(snapshot := a0.snapshot - {pod.id}), m, pod, 0)
  {
    if pod.address.Some? {
      assert Below(DroppedRules(a0, m, pod, pod.address.value.cidr), 0) == {};
      assert TargetsOfRules(m, {}) == {};
    }
  }

  lemma {:induction false} RemovedForAll(a0: Artifacts, m: Mapping, pod: Pod)
    ensures Below(TouchedRules(a0, m, pod), |m.rules|) == TouchedRules(a0, m, pod)
    ensures forall cidr :: Below(DroppedRules(a0, m, pod, cidr), |m.rules|) == DroppedRules(a0, m, pod, cidr)
  {
  }

  /** `OnPodDelete` on an entry. */
  method RemovePod(a0: Artifacts, m: Mapping, pod: Pod) returns (a: Artifacts)
    ensures a == AfterDelete(a0, m, pod)
  {
    var wasPending := IsPending(a0, pod.id);
    var matched := RulesAt(a0, pod.id);
    var live := MatchPodToRuleIndices(m, pod.labels);
    a := a0.(snapshot := a0.snapshot - {pod.id});
    RemovedForNone(a0, m, pod);
    for i := 0 to |m.rules|
      invariant RemovedFor(a0, a, m, pod, i)
    {
      assert i in live <==> i in Elems(live);
      if i in matched || i in live {
        ghost var before := a;
        a := VisitRemoved(a, m, pod, i);
        RemovedForOne(a0, before, a, m, pod, i);
      } else {
        RemovedForSkip(a0, a, m, pod, i);
      }
    }
    RemovedForAll(a0, m, pod);
    a := a.(podRules := a.podRules - {pod.id});
    if wasPending && a.pending > 0 {
      a := a.(pending := a.pending - 1);
    }
    a := a.(hasPending := a.pending > 0);
  }

  // ---------------------------------------------------------------- update

  /** The prefixes of the targets of rule `i` after visiting it. */
  ghost predicate Touched(d0: Prefixes, d: Prefixes, a: Artifacts, u: Change, i: nat, targets: set<Target>) {
    d.Keys == d0.Keys + targets &&
    forall t :: t in d ==> d[t] == if t in targets then Touch(a, u, i, IpsAt(d0, t)) else d0[t]
  }

  method TouchTargets(d0: Prefixes, a: Artifacts, u: Change, i: nat, targets: seq<Target>) returns (d: Prefixes)
    ensures Touched(d0, d, a, u, i, Elems(targets))
  {
    d := d0;
    for j := 0 to |targets|
      invariant Touched(d0, d, a, u, i, Elems(targets[..j]))
    {
      ElemsPrefix(targets, j);
      var t := targets[j];
      var ips := IpsAt(d, t);
      if i in u.oldRules && u.oldCidr.Some? {
        var other := HasOtherContributor(a, u.id, i, u.oldCidr.value);
        if !other {
          ips := ips - {u.oldCidr.value};
        }
      }
      if i in u.newRules && u.newCidr.Some? {
        ips := ips + {u.newCidr.value};
      }
      assert ips == Touch(a, u, i, IpsAt(d, t));
      assert ips == Touch(a, u, i, IpsAt(d0, t));
      d := d[t := ips];
    }
    ElemsWhole(targets);
  }

  lemma {:induction false} SettledStep(d: Prefixes, d': Prefixes, a: Artifacts, m: Mapping, u: Change, i: nat)
    requires d == SettledDesired(a, m, u, i) && i in u.oldRules + u.newRules
    requires Touched(d, d', a, u, i, RuleTargets(m, i))
    ensures d' == SettledDesired(a, m, u, i + 1)
  {
    AffectedStep(m, u, i);
    forall t | t in d' ensures d'[t] == Settle(a, m, u, t, i + 1) {
      SettledFrom(d, a, m, u, i, t);
    }
  }

  lemma {:induction false} SettledFrom(d: Prefixes, a: Artifacts, m: Mapping, u: Change, i: nat, t: Target)
    requires d == SettledDesired(a, m, u, i)
    ensures IpsAt(d, t) == Settle(a, m, u, t, i)
  {
    if t !in TargetsOfRules(m, Affected(u, i)) {
      SettleUntouched(a, m, u, t, i);
    }
  }

  lemma {:induction false} SettledSkip(a: Artifacts, m: Mapping, u: Change, i: nat)
    requires i !in u.oldRules + u.newRules
    ensures SettledDesired(a, m, u, i + 1) == SettledDesired(a, m, u, i)
  {
    AffectedStep(m, u, i);
  }

  lemma {:induction false} AffectedStep(m: Mapping, u: Change, i: nat)
    ensures TargetsOfRules(m, Affected(u, i + 1)) ==
            TargetsOfRules(m, Affected(u, i)) + (if i in u.oldRules + u.newRules then RuleTargets(m, i) else {})
  {
    var both := u.oldRules + u.newRules;
    assert Affected(u, i) == Below(both, i) && Affected(u, i + 1) == Below(both, i + 1);
    BelowStep(m, both, i);
  }

  /** The tracked rules of the updated pod after the first `k` rules; `None` if untracked. */
  function Moved(a: Artifacts, u: Change, k: nat): Option<set<nat>> {
    var up, down := Below(u.newRules - u.oldRules, k), Below(u.oldRules - u.newRules, k);
    if u.id in a.podRules || up != {} then Some(RulesAt(a, u.id) + up - down) else None
  }

  function Track(podRules: map<PodId, set<nat>>, id: PodId, rules: Option<set<nat>>): map<PodId, set<nat>> {
    if rules.Some? then podRules[id := rules.value] else podRules
  }

  /** The entry once the first `k` rules have been visited for an updated pod. */
  ghost predicate ChangedFor(a0: Artifacts, a: Artifacts, m: Mapping, u: Change, k: nat) {
    a.counts == Bump(a0.counts, Below(u.newRules - u.oldRules, k), Below(u.oldRules - u.newRules, k)) &&
    a.podRules == Track(a0.podRules, u.id, Moved(a0, u, k)) &&
    a.desired == SettledDesired(a0, m, u, k) &&
    a.snapshot == a0.snapshot && a.pending == a0.pending
  }

  lemma {:induction false} MovedStep(a: Artifacts, m: Mapping, u: Change, i: nat)
    ensures Moved(a, u, i + 1) ==
            if i !in u.oldRules && i in u.newRules then Some((if Moved(a, u, i).Some? then Moved(a, u, i).value else {}) + {i})
            else if i in u.oldRules && i !in u.newRules && Moved(a, u, i).Some? then Some(Moved(a, u, i).value - {i})
            else Moved(a, u, i)
  {
    var up, down := u.newRules - u.oldRules, u.oldRules - u.newRules;
    BelowStep(m, up, i);
    BelowStep(m, down, i);
    if i in up {
      assert Moved(a, u, i).None? ==> RulesAt(a, u.id) + Below(up, i) - Below(down, i) == {};
      assert RulesAt(a, u.id) + Below(up, i + 1) - Below(down, i + 1) == RulesAt(a, u.id) + Below(up, i) - Below(down, i) + {i};
    } else {
      assert Below(up, i + 1) == Below(up, i);
      if i in down {
        assert RulesAt(a, u.id) + Below(up, i + 1) - Below(down, i + 1) == RulesAt(a, u.id) + Below(up, i) - Below(down, i) - {i};
      } else {
        assert Below(down, i + 1) == Below(down, i);
      }
    }
  }

  /** The count and tracking of one affected rule. */
  method VisitTransition(a0: Artifacts, u: Change, i: nat) returns (a: Artifacts)
    ensures a.counts == Bump(a0.counts, if i in u.newRules - u.oldRules then {i} else {}, if i in u.oldRules - u.newRules then {i} else {})
    ensures a.podRules ==
            if i in u.newRules - u.oldRules then a0.podRules[u.id := RulesAt(a0, u.id) + {i}]
            else if i in u.oldRules - u.newRules && u.id in a0.podRules then a0.podRules[u.id := a0.podRules[u.id] - {i}]
            else a0.podRules
    ensures a == a0.(counts := a.counts, podRules := a.podRules)
  {
    a := a0;
    if i !in u.oldRules && i in u.newRules {
      if i < |a.counts| {
        a := a.(counts := a.counts[i := a.counts[i] + 1]);
      }
      var tracked := if u.id in a.podRules then a.podRules[u.id] else {};
      a := a.(podRules := a.podRules[u.id := tracked + {i}]);
    } else if i in u.oldRules && i !in u.newRules {
      if i < |a.counts| && a.counts[i] > 0 {
        a := a.(counts := a.counts[i := a.counts[i] - 1]);
      }
      if u.id in a.podRules {
        a := a.(podRules := a.podRules[u.id := a.podRules[u.id] - {i}]);
      }
    }
  }

  lemma {:induction false} CountsMove(counts: seq<int>, m: Mapping, u: Change, i: nat)
    ensures Bump(Bump(counts, Below(u.newRules - u.oldRules, i), Below(u.oldRules - u.newRules, i)),
                 if i in u.newRules - u.oldRules then {i} else {}, if i in u.oldRules - u.newRules then {i} else {}) ==
            Bump(counts, Below(u.newRules - u.oldRules, i + 1), Below(u.oldRules - u.newRules, i + 1))
  {
    BelowStep(m, u.newRules - u.oldRules, i);
    BelowStep(m, u.oldRules - u.newRules, i);
  }

  lemma {:induction false} TrackMoves(a0: Artifacts, a: Artifacts, b: Artifacts, m: Mapping, u: Change, i: nat)
    requires a.podRules == Track(a0.podRules, u.id, Moved(a0, u, i))
    requires b.podRules ==
             if i in u.newRules - u.oldRules then a.podRules[u.id := RulesAt(a, u.id) + {i}]
             else if i in u.oldRules - u.newRules && u.id in a.podRules then a.podRules[u.id := a.podRules[u.id] - {i}]
             else a.podRules
    ensures b.podRules == Track(a0.podRules, u.id, Moved(a0, u, i + 1))
  {
    MovedStep(a0, m, u, i);
    assert u.id in a.podRules <==> Moved(a0, u, i).Some?;
  }

  /** One affected rule of an updated pod: count, tracking, then each of its targets. */
  method VisitChanged(a0: Artifacts, a1: Artifacts, m: Mapping, u: Change, i: nat) returns (a: Artifacts)
    requires ChangedFor(a0, a1, m, u, i) && i < |m.rules| && i in u.oldRules + u.newRules
    ensures ChangedFor(a0, a, m, u, i + 1)
  {
    a := VisitTransition(a1, u, i);
    CountsMove(a0.counts, m, u, i);
    TrackMoves(a0, a1, a, m, u, i);
    var targets := ResolveRuleTargets(m.rules[i]);
    ghost var d := a.desired;
    assert a.podRules - {u.id} == a0.podRules - {u.id};
    var desired := TouchTargets(a.desired, a, u, i, targets);
    TouchedSame(d, desired, a, a0, u, i, RuleTargets(m, i));
    SettledStep(d, desired, a0, m, u, i);
    a := a.(desired := desired);
  }

  lemma {:induction false} TouchedSame(d: Prefixes, d': Prefixes, a: Artifacts, b: Artifacts, u: Change, i: nat, targets: set<Target>)
    requires Touched(d, d', a, u, i, targets)
    requires a.podRules - {u.id} == b.podRules - {u.id} && a.snapshot - {u.id} == b.snapshot - {u.id}
    ensures Touched(d, d', b, u, i, targets)
  {
    if u.oldCidr.Some? {
      OthersDecide(a, b, u.id, i, u.oldCidr.value);
    }
  }

  lemma {:induction false} ChangedForSkip(a0: Artifacts, a: Artifacts, m: Mapping, u: Change, i: nat)
    requires ChangedFor(a0, a, m, u, i) && i !in u.oldRules + u.newRules
    ensures ChangedFor(a0, a, m, u, i + 1)
  {
    SettledSkip(a0, m, u, i);
    assert Below(u.newRules - u.oldRules, i + 1) == Below(u.newRules - u.oldRules, i);
    assert Below(u.oldRules - u.newRules, i + 1) == Below(u.oldRules - u.newRules, i);
  }

  lemma {:induction false} ChangedForNone(a0: Artifacts, m: Mapping, u: Change)
    ensures ChangedFor(a0, a0, m, u, 0)
  {
    assert Below(u.newRules - u.oldRules, 0) == {} && Below(u.oldRules - u.newRules, 0) == {};
    assert Affected(u, 0) == {} && TargetsOfRules(m, {}) == {};
    if u.id in a0.podRules {
      assert RulesAt(a0, u.id) + {} - {} == a0.podRules[u.id];
    }
  }

  lemma {:induction false} ChangedForAll(a0: Artifacts, a: Artifacts, m: Mapping, u: Change)
    requires ChangedFor(a0, a, m, u, |m.rules|)
    requires forall i :: i in u.oldRules || i in u.newRules ==> i < |m.rules|
    ensures a.counts == Bump(a0.counts, u.newRules - u.oldRules, u.oldRules - u.newRules)
    ensures (if u.newRules == {} then a.podRules - {u.id} else a.podRules) == RulesAfter(a0, u)
  {
    assert Below(u.newRules - u.oldRules, |m.rules|) == u.newRules - u.oldRules;
    assert Below(u.oldRules - u.newRules, |m.rules|) == u.oldRules - u.newRules;
  }

  /** Visits the rules in order, skipping those neither object matches. */
  method VisitRules(a0: Artifacts, m: Mapping, u: Change) returns (a: Artifacts)
    ensures ChangedFor(a0, a, m, u, |m.rules|)
  {
    a := a0;
    ChangedForNone(a0, m, u);
    for i := 0 to |m.rules|
      invariant ChangedFor(a0, a, m, u, i)
    {
      if i in u.oldRules + u.newRules {
        a := VisitChanged(a0, a, m, u, i);
      } else {
        ChangedForSkip(a0, a, m, u, i);
      }
    }
  }

  /** `OnPodUpdate` on an entry. */
  method ChangePod(a0: Artifacts, m: Mapping, prior: Pod, next: Pod) returns (a: Artifacts)
    ensures a == AfterUpdate(a0, m, prior, next)
  {
    var oldIndices := MatchPodToRuleIndices(m, prior.labels);
    var newIndices := MatchPodToRuleIndices(m, next.labels);
    var u := Change(next.id, Elems(oldIndices), Elems(newIndices), Cidr(prior), Cidr(next));
    assert u == ChangeOf(m, prior, next);
    var visited := VisitRules(a0, m, u);
    ChangedForAll(a0, visited, m, u);
    a := FinishChange(visited, u, next, IsPending(a0, u.id));
    FinishedIsAfter(a0, visited, a, m, prior, next);
  }

  lemma {:induction false} FinishedIsAfter(a0: Artifacts, v: Artifacts, a: Artifacts, m: Mapping, prior: Pod, next: Pod)
    requires var u := ChangeOf(m, prior, next);
             && v.desired == SettledDesired(a0, m, u, |m.rules|)
             && v.counts == Bump(a0.counts, u.newRules - u.oldRules, u.oldRules - u.newRules)
             && (if u.newRules == {} then v.podRules - {u.id} else v.podRules) == RulesAfter(a0, u)
             && v.snapshot == a0.snapshot && v.pending == a0.pending
             && a.desired == v.desired && a.counts == v.counts && a.snapshot == SnapshotAfter(v, u, next)
             && a.podRules == (if u.newRules == {} then v.podRules - {u.id} else v.podRules)
             && a.hasPending == (a.pending > 0)
    requires var u, was := ChangeOf(m, prior, next), IsPending(a0, next.id);
             var now := u.newRules != {} && next.address.None?;
             a.pending == (if was && !now && v.pending > 0 then v.pending - 1 else if !was && now then v.pending + 1 else v.pending)
    ensures a == AfterUpdate(a0, m, prior, next)
  {
  }

  /** The snapshot row and the pending count of an updated pod. */
  method FinishChange(a0: Artifacts, u: Change, next: Pod, was: bool) returns (a: Artifacts)
    ensures a.desired == a0.desired && a.counts == a0.counts && a.snapshot == SnapshotAfter(a0, u, next)
    ensures a.podRules == if u.newRules == {} then a0.podRules - {u.id} else a0.podRules
    ensures var now := u.newRules != {} && next.address.None?;
            a.pending == (if was && !now && a0.pending > 0 then a0.pending - 1 else if !was && now then a0.pending + 1 else a0.pending)
    ensures a.hasPending == (a.pending > 0)
  {
    var now := false;
    a := a0;
    if u.newRules != {} {
      if next.address.Some? {
        a := a.(snapshot := a.snapshot[u.id := next.address.value]);
      } else {
        a := a.(snapshot := a.snapshot - {u.id});
        now := true;
      }
    } else {
      a := a.(snapshot := a.snapshot - {u.id}, podRules := a.podRules - {u.id});
    }
    if was && !now && a.pending > 0 {
      a := a.(pending := a.pending - 1);
    } else if !was && now {
      a := a.(pending := a.pending + 1);
    }
    a := a.(hasPending := a.pending > 0);
  }
}
