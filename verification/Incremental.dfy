/** The in-place cache mutations for one pod event, and exactly when they keep an entry equal
    to a full recompute. */
module Incremental {
  import opened Model
  import opened DesiredState

  // ---------------------------------------------------------------- parity

  /** Prefixes (an empty target counts as absent), snapshot and rule tracking are those of `P`. */
  ghost predicate SetParity(a: Artifacts, m: Mapping, P: Pods) {
    (forall t :: IpsAt(a.desired, t) == WantedIps(m, P, t)) &&
    a.snapshot == WantedSnapshot(m, P) &&
    a.podRules == WantedPodRules(m, P)
  }

  /** Every derived field is that of `P`. */
  ghost predicate Parity(a: Artifacts, m: Mapping, P: Pods) {
    SetParity(a, m, P) && Tracks(a, m, P)
  }

  /** A recompute is in parity with the pod set it was computed from. */
  lemma {:induction false} RecomputeParity(a: Artifacts, m: Mapping, P: Pods)
    requires Tracks(a, m, P) && Covers(a.desired, [m], P) && OneSpelling(m)
    ensures Parity(a, m, P)
  {
    forall t ensures IpsAt(a.desired, t) == WantedIps(m, P, t) {
      CoversPerTarget(a.desired, m, P, t);
    }
  }

  /** For the very pod set, parity holds exactly when no prefix set is fed under two spellings. */
  lemma {:induction false} RecomputeParityIff(a: Artifacts, m: Mapping, P: Pods)
    requires Tracks(a, m, P) && Covers(a.desired, [m], P) && a.desired.Keys <= FedTargets(m, P)
    ensures Parity(a, m, P) <==> FedUnderOneSpelling(m, P)
  {
    CoversPerTargetIff(a.desired, m, P);
  }

  // ---------------------------------------------------------------- the mutations as functions

  function RulesAt(a: Artifacts, id: PodId): set<nat> {
    if id in a.podRules then a.podRules[id] else {}
  }

  function Bump(counts: seq<int>, up: set<nat>, down: set<nat>): (r: seq<int>)
    ensures |r| == |counts|
  {
    seq(|counts|, i requires 0 <= i < |counts| =>
      if i in up then counts[i] + 1 else if i in down && counts[i] > 0 then counts[i] - 1 else counts[i])
  }

  function AddPrefix(d: Prefixes, targets: set<Target>, cidr: string): Prefixes {
    map t | t in d.Keys + targets :: if t in targets then IpsAt(d, t) + {cidr} else d[t]
  }

  function DropPrefix(d: Prefixes, targets: set<Target>, cidr: string): Prefixes {
    map t | t in d :: if t in targets then d[t] - {cidr} else d[t]
  }

  /** Another pod tracked for rule `i` still has prefix `cidr`. */
  ghost predicate HasOther(a: Artifacts, id: PodId, i: nat, cidr: string) {
    exists o :: o in a.podRules && o != id && i in a.podRules[o] && o in a.snapshot && a.snapshot[o].cidr == cidr
  }

  function AfterAdd(a: Artifacts, m: Mapping, pod: Pod): Artifacts {
    var rules := MatchSet(m, pod.labels);
    if rules == {} then a else
      var b := a.(
        counts := Bump(a.counts, rules, {}),
        podRules := a.podRules[pod.id := RulesAt(a, pod.id) + rules]);
      if pod.address.Some? then
        b.(desired := AddPrefix(a.desired, TargetsOfRules(m, rules), pod.address.value.cidr),
           snapshot := a.snapshot[pod.id := pod.address.value])
      else
        b.(pending := a.pending + 1, hasPending := true)
  }

  /** The rules `OnPodDelete` visits: those tracked for the pod and those its labels match. */
  function TouchedRules(a: Artifacts, m: Mapping, pod: Pod): set<nat> {
    set i: nat | i < |m.rules| && (i in RulesAt(a, pod.id) || i in MatchSet(m, pod.labels))
  }

  ghost function DroppedRules(a: Artifacts, m: Mapping, pod: Pod, cidr: string): set<nat> {
    set i | i in TouchedRules(a, m, pod) && !HasOther(a, pod.id, i, cidr)
  }

  predicate IsPending(a: Artifacts, id: PodId) {
    id in a.podRules && id !in a.snapshot
  }

  ghost function AfterDelete(a: Artifacts, m: Mapping, pod: Pod): Artifacts {
    var pending := if IsPending(a, pod.id) && a.pending > 0 then a.pending - 1 else a.pending;
    Artifacts(
      if pod.address.Some? then
        DropPrefix(a.desired, TargetsOfRules(m, DroppedRules(a, m, pod, pod.address.value.cidr)), pod.address.value.cidr)
      else a.desired,
      a.snapshot - {pod.id},
      Bump(a.counts, {}, TouchedRules(a, m, pod)),
      pending > 0,
      a.podRules - {pod.id},
      pending)
  }

  /** One pod update as the cache sees it. */
  datatype Change = Change(id: PodId, oldRules: set<nat>, newRules: set<nat>, oldCidr: Option<string>, newCidr: Option<string>)

  function Cidr(pod: Pod): Option<string> {
    if pod.address.Some? then Some(pod.address.value.cidr) else None
  }

  function ChangeOf(m: Mapping, prior: Pod, next: Pod): Change {
    Change(next.id, MatchSet(m, prior.labels), MatchSet(m, next.labels), Cidr(prior), Cidr(next))
  }

  ghost predicate Drops(a: Artifacts, u: Change, i: nat) {
    i in u.oldRules && u.oldCidr.Some? && !HasOther(a, u.id, i, u.oldCidr.value)
  }

  /** What visiting rule `i` does to the prefixes of one of its targets. */
  ghost function Touch(a: Artifacts, u: Change, i: nat, ips: set<string>): set<string> {
    var kept := if Drops(a, u, i) then ips - {u.oldCidr.value} else ips;
    if i in u.newRules && u.newCidr.Some? then kept + {u.newCidr.value} else kept
  }

  /** The prefixes of `t` once the first `k` rules have been visited. */
  ghost function Settle(a: Artifacts, m: Mapping, u: Change, t: Target, k: nat): set<string> {
    if k == 0 then IpsAt(a.desired, t) else
      var ips := Settle(a, m, u, t, k - 1);
      if k - 1 in u.oldRules + u.newRules && t in RuleTargets(m, k - 1) then Touch(a, u, k - 1, ips) else ips
  }

  /** The affected rules among the first `k`. */
  function Affected(u: Change, k: nat): set<nat> {
    set i | i in u.oldRules + u.newRules && i < k
  }

  ghost function SettledDesired(a: Artifacts, m: Mapping, u: Change, k: nat): Prefixes {
    map t | t in a.desired.Keys + TargetsOfRules(m, Affected(u, k)) :: Settle(a, m, u, t, k)
  }

  function RulesAfter(a: Artifacts, u: Change): map<PodId, set<nat>> {
    if u.newRules == {} then a.podRules - {u.id}
    else if u.id in a.podRules || u.newRules - u.oldRules != {} then
      a.podRules[u.id := RulesAt(a, u.id) + (u.newRules - u.oldRules) - (u.oldRules - u.newRules)]
    else a.podRules
  }

  function SnapshotAfter(a: Artifacts, u: Change, next: Pod): map<PodId, Address> {
    if u.newRules != {} && next.address.Some? then a.snapshot[u.id := next.address.value] else a.snapshot - {u.id}
  }

  ghost function AfterUpdate(a: Artifacts, m: Mapping, prior: Pod, next: Pod): Artifacts {
    var u := ChangeOf(m, prior, next);
    var was, now := IsPending(a, u.id), u.newRules != {} && next.address.None?;
    var pending := if was && !now && a.pending > 0 then a.pending - 1 else if !was && now then a.pending + 1 else a.pending;
    Artifacts(
      SettledDesired(a, m, u, |m.rules|),
      SnapshotAfter(a, u, next),
      Bump(a.counts, u.newRules - u.oldRules, u.oldRules - u.newRules),
      pending > 0,
      RulesAfter(a, u),
      pending)
  }

  // ---------------------------------------------------------------- the other pods

  /** Where the other pods `Q` are tracked as they are, another contributor is one of them. */
  lemma {:induction false} OthersTracked(a: Artifacts, m: Mapping, Q: Pods, id: PodId, i: nat, cidr: string)
    requires a.podRules - {id} == WantedPodRules(m, Q) && a.snapshot - {id} == WantedSnapshot(m, Q)
    ensures HasOther(a, id, i, cidr) <==> cidr in RuleIps(m, Q, i)
  {
    if HasOther(a, id, i, cidr) {
      var o :| o in a.podRules && o != id && i in a.podRules[o] && o in a.snapshot && a.snapshot[o].cidr == cidr;
      assert o in a.podRules - {id} && o in a.snapshot - {id};
      assert o in Matching(m, Q, i);
    }
    if cidr in RuleIps(m, Q, i) {
      var o :| o in Matching(m, Q, i) && Q[o].address.Some? && Q[o].address.value.cidr == cidr;
      assert o in WantedPodRules(m, Q) && o in WantedSnapshot(m, Q);
    }
  }

  /** Seen through a set-parity entry, another contributor is another pod of the rule. */
  lemma {:induction false} OthersOfRule(a: Artifacts, m: Mapping, P: Pods, id: PodId, i: nat, cidr: string)
    requires SetParity(a, m, P)
    ensures HasOther(a, id, i, cidr) <==> cidr in RuleIps(m, P - {id}, i)
  {
    DeleteKeepsTracking(m, P, id);
    OthersTracked(a, m, P - {id}, id, i, cidr);
  }

  /** A prefix is wanted at a target exactly when some rule of the target wants it. */
  lemma {:induction false} WantedByRule(m: Mapping, P: Pods, t: Target, cidr: string)
    ensures cidr in WantedIps(m, P, t) <==> exists i: nat :: t in RuleTargets(m, i) && cidr in RuleIps(m, P, i)
  {
    if cidr in WantedIps(m, P, t) {
      var id :| id in Feeders(m, P, t) && P[id].address.value.cidr == cidr;
      var i :| i in RulesOf(m, P[id]) && t in RuleTargets(m, i);
      assert id in Matching(m, P, i);
      assert cidr in RuleIps(m, P, i);
    }
    if i: nat :| t in RuleTargets(m, i) && cidr in RuleIps(m, P, i) {
      var id :| id in Matching(m, P, i) && P[id].address.Some? && P[id].address.value.cidr == cidr;
      assert t in TargetsOfRules(m, RulesOf(m, P[id]));
      assert id in Feeders(m, P, t);
    }
  }

  /** A pod set is its other pods plus the pod itself. */
  lemma {:induction false} Rejoin(P: Pods, id: PodId)
    requires id in P
    ensures (P - {id})[id := P[id]] == P
  {
  }

  // ---------------------------------------------------------------- add

  /** Adding a pod keeps the sets in parity, also when the pod set already has that pod. */
  lemma {:induction false} AddKeepsSets(a: Artifacts, m: Mapping, P: Pods, pod: Pod)
    requires SetParity(a, m, P) && pod.id.namespace == m.key.namespace
    requires pod.id in P ==> P[pod.id] == pod
    ensures SetParity(AfterAdd(a, m, pod), m, P[pod.id := pod])
  {
    AddKeepsTracking(a, m, P, pod);
    forall t ensures IpsAt(AfterAdd(a, m, pod).desired, t) == WantedIps(m, P[pod.id := pod], t) {
      AddPerTarget(a, m, P, pod, t);
    }
  }

  lemma {:induction false} AddKeepsTracking(a: Artifacts, m: Mapping, P: Pods, pod: Pod)
    requires SetParity(a, m, P) && pod.id.namespace == m.key.namespace
    requires pod.id in P ==> P[pod.id] == pod
    ensures AfterAdd(a, m, pod).snapshot == WantedSnapshot(m, P[pod.id := pod])
    ensures AfterAdd(a, m, pod).podRules == WantedPodRules(m, P[pod.id := pod])
  {
    if pod.id in P {
      assert P[pod.id := pod] == P;
      assert RulesAt(a, pod.id) + RulesOf(m, pod) == RulesOf(m, pod);
    } else {
      TrackedAdd(m, P, pod);
      assert RulesAt(a, pod.id) + RulesOf(m, pod) == RulesOf(m, pod);
    }
  }

  lemma {:induction false} AddPerTarget(a: Artifacts, m: Mapping, P: Pods, pod: Pod, t: Target)
    requires SetParity(a, m, P) && pod.id.namespace == m.key.namespace
    requires pod.id in P ==> P[pod.id] == pod
    ensures IpsAt(AfterAdd(a, m, pod).desired, t) == WantedIps(m, P[pod.id := pod], t)
  {
    AddedAt(a, m, pod, t);
    WantedIpsPut(m, P, pod, t);
    assert IpsAt(a.desired, t) == WantedIps(m, P, t);
  }

  /** Putting a pod in, also one that is there, adds what it brings. */
  lemma {:induction false} WantedIpsPut(m: Mapping, P: Pods, pod: Pod, t: Target)
    requires pod.id in P ==> P[pod.id] == pod
    ensures WantedIps(m, P[pod.id := pod], t) == WantedIps(m, P, t) + Gain(t in TargetsOfRules(m, RulesOf(m, pod)), pod)
  {
    if pod.id in P {
      var Q := P - {pod.id};
      Rejoin(P, pod.id);
      WantedIpsAdd(m, Q, pod, t);
      assert P[pod.id := pod] == P;
    } else {
      WantedIpsAdd(m, P, pod, t);
    }
  }

  lemma {:induction false} AddedAt(a: Artifacts, m: Mapping, pod: Pod, t: Target)
    requires pod.id.namespace == m.key.namespace
    ensures IpsAt(AfterAdd(a, m, pod).desired, t) == IpsAt(a.desired, t) + Gain(t in TargetsOfRules(m, RulesOf(m, pod)), pod)
  {
  }

  /** `OnPodAdd` keeps every field in parity for a pod not yet in the set. */
  lemma {:induction false} AddKeepsParity(a: Artifacts, m: Mapping, P: Pods, pod: Pod)
    requires Parity(a, m, P) && pod.id !in P && pod.id.namespace == m.key.namespace
    ensures Parity(AfterAdd(a, m, pod), m, P[pod.id := pod])
  {
    AddKeepsSets(a, m, P, pod);
    assert pod.id !in a.podRules;
    AddTracked(a, m, pod);
    TracksAdd(a, AfterAdd(a, m, pod), m, P, pod);
  }

  lemma {:induction false} AddTracked(a: Artifacts, m: Mapping, pod: Pod)
    requires pod.id.namespace == m.key.namespace && pod.id !in a.podRules
    ensures var b, rules := AfterAdd(a, m, pod), RulesOf(m, pod);
            && b.snapshot == (if rules == {} || pod.address.None? then a.snapshot else a.snapshot[pod.id := pod.address.value])
            && b.podRules == (if rules == {} then a.podRules else a.podRules[pod.id := rules])
            && |b.counts| == |a.counts|
            && (forall i :: 0 <= i < |a.counts| ==> b.counts[i] == a.counts[i] + (if i in rules then 1 else 0))
            && b.pending == a.pending + (if rules != {} && pod.address.None? then 1 else 0)
            && b.hasPending == (a.hasPending || (rules != {} && pod.address.None?))
  {
    assert RulesAt(a, pod.id) + RulesOf(m, pod) == RulesOf(m, pod);
  }

  // ---------------------------------------------------------------- delete

  /** Removing `pod` takes its prefix from a target that a pod of another rule still needs:
      some rule of the target that matches the pod has no other pod with that prefix, while
      another rule of the target has one. `Q` is the other pods. */
  ghost predicate DeleteClobbersAt(m: Mapping, Q: Pods, pod: Pod, t: Target) {
    pod.address.Some? &&
    (exists i: nat :: i in RulesOf(m, pod) && t in RuleTargets(m, i) && pod.address.value.cidr !in RuleIps(m, Q, i)) &&
    (exists j: nat :: t in RuleTargets(m, j) && pod.address.value.cidr in RuleIps(m, Q, j))
  }

  ghost predicate DeleteClobbers(m: Mapping, Q: Pods, pod: Pod) {
    exists t :: DeleteClobbersAt(m, Q, pod, t)
  }

  lemma {:induction false} SeparatedNeverDeleteClobbers(m: Mapping, Q: Pods, pod: Pod)
    requires RulesSeparated(m)
    ensures !DeleteClobbers(m, Q, pod)
  {
  }

  lemma {:induction false} TouchedIsMatched(a: Artifacts, m: Mapping, P: Pods, pod: Pod)
    requires SetParity(a, m, P) && pod.id.namespace == m.key.namespace
    requires pod.id in P ==> P[pod.id] == pod
    ensures TouchedRules(a, m, pod) == RulesOf(m, pod)
  {
  }

  /** The targets a delete takes the prefix from. */
  lemma {:induction false} DroppedTargets(a: Artifacts, m: Mapping, P: Pods, pod: Pod, cidr: string, t: Target)
    requires SetParity(a, m, P) && pod.id.namespace == m.key.namespace
    requires pod.id in P ==> P[pod.id] == pod
    ensures t in TargetsOfRules(m, DroppedRules(a, m, pod, cidr)) <==>
            exists i: nat :: i in RulesOf(m, pod) && t in RuleTargets(m, i) && cidr !in RuleIps(m, P - {pod.id}, i)
  {
    TouchedIsMatched(a, m, P, pod);
    forall i: nat ensures HasOther(a, pod.id, i, cidr) <==> cidr in RuleIps(m, P - {pod.id}, i) {
      OthersOfRule(a, m, P, pod.id, i, cidr);
    }
  }

  /** A target ends with the prefixes of the other pods exactly when it is not clobbered. */
  lemma {:induction false} DeletePerTarget(a: Artifacts, m: Mapping, P: Pods, pod: Pod, t: Target)
    requires SetParity(a, m, P) && pod.id.namespace == m.key.namespace
    requires pod.id in P ==> P[pod.id] == pod
    ensures IpsAt(AfterDelete(a, m, pod).desired, t) == WantedIps(m, P - {pod.id}, t) <==>
            !DeleteClobbersAt(m, P - {pod.id}, pod, t)
  {
    var Q := P - {pod.id};
    assert IpsAt(a.desired, t) == WantedIps(m, P, t);
    DeletedAt(a, m, pod, t);
    if pod.id in P {
      Rejoin(P, pod.id);
      WantedIpsAdd(m, Q, pod, t);
    } else {
      assert Q == P;
    }
    if pod.address.Some? {
      var cidr := pod.address.value.cidr;
      DroppedTargets(a, m, P, pod, cidr, t);
      WantedByRule(m, Q, t, cidr);
    }
  }

  lemma {:induction false} DeletedAt(a: Artifacts, m: Mapping, pod: Pod, t: Target)
    ensures IpsAt(AfterDelete(a, m, pod).desired, t) ==
            if pod.address.Some? && t in TargetsOfRules(m, DroppedRules(a, m, pod, pod.address.value.cidr))
            then IpsAt(a.desired, t) - {pod.address.value.cidr} else IpsAt(a.desired, t)
  {
  }

  /** Whatever the labels of the deleted object say: a delete reaches every rule the pod is tracked
      for and every rule its labels match, takes the prefix from its targets unless another pod of
      that rule has it, and uncounts the pod there. */
  lemma {:induction false} DeleteReachesTracked(a: Artifacts, m: Mapping, pod: Pod, i: nat, t: Target)
    requires i < |m.rules| && (i in RulesAt(a, pod.id) || Selects(m.rules[i].selector, pod.labels))
    ensures i < |a.counts| && a.counts[i] > 0 ==> AfterDelete(a, m, pod).counts[i] == a.counts[i] - 1
    ensures pod.address.Some? && t in RuleTargets(m, i) && !HasOther(a, pod.id, i, pod.address.value.cidr) ==>
              pod.address.value.cidr !in IpsAt(AfterDelete(a, m, pod).desired, t)
  {
    assert i in TouchedRules(a, m, pod);
    if pod.address.Some? && t in RuleTargets(m, i) && !HasOther(a, pod.id, i, pod.address.value.cidr) {
      assert i in DroppedRules(a, m, pod, pod.address.value.cidr);
      DeletedAt(a, m, pod, t);
    }
  }

  lemma {:induction false} DeleteKeepsTracking(m: Mapping, P: Pods, id: PodId)
    ensures WantedSnapshot(m, P) - {id} == WantedSnapshot(m, P - {id})
    ensures WantedPodRules(m, P) - {id} == WantedPodRules(m, P - {id})
  {
  }

  /** Deleting a pod, also one the pod set no longer has, keeps the sets in parity exactly
      when it clobbers no target. */
  lemma {:induction false} DeleteKeepsSetsIff(a: Artifacts, m: Mapping, P: Pods, pod: Pod)
    requires SetParity(a, m, P) && pod.id.namespace == m.key.namespace
    requires pod.id in P ==> P[pod.id] == pod
    ensures SetParity(AfterDelete(a, m, pod), m, P - {pod.id}) <==> !DeleteClobbers(m, P - {pod.id}, pod)
  {
    var b, Q := AfterDelete(a, m, pod), P - {pod.id};
    DeleteKeepsTracking(m, P, pod.id);
    forall t ensures IpsAt(b.desired, t) == WantedIps(m, Q, t) <==> !DeleteClobbersAt(m, Q, pod, t) {
      DeletePerTarget(a, m, P, pod, t);
    }
  }

  /** The counters after a delete; no `> 0` guard ever hides an underflow. */
  lemma {:induction false} DeleteKeepsCounters(a: Artifacts, m: Mapping, P: Pods, pod: Pod)
    requires Parity(a, m, P) && pod.id in P && P[pod.id] == pod && pod.id.namespace == m.key.namespace
    ensures CountsAre(AfterDelete(a, m, pod).counts, m, P - {pod.id})
    ensures AfterDelete(a, m, pod).pending == |Pending(m, P - {pod.id})|
    ensures forall i :: i in RulesOf(m, pod) ==> a.counts[i] > 0
    ensures IsPending(a, pod.id) ==> a.pending > 0
  {
    var Q := P - {pod.id};
    Rejoin(P, pod.id);
    TouchedIsMatched(a, m, P, pod);
    PendingAdd(m, Q, pod);
    forall i: nat | i < |m.rules| ensures |Matching(m, P, i)| == |Matching(m, Q, i)| + (if i in RulesOf(m, pod) then 1 else 0) {
      MatchingAdd(m, Q, pod, i);
    }
  }

  /** `OnPodDelete` keeps every field in parity exactly when it clobbers no target. */
  lemma {:induction false} DeleteKeepsParityIff(a: Artifacts, m: Mapping, P: Pods, pod: Pod)
    requires Parity(a, m, P) && pod.id in P && P[pod.id] == pod && pod.id.namespace == m.key.namespace
    ensures Parity(AfterDelete(a, m, pod), m, P - {pod.id}) <==> !DeleteClobbers(m, P - {pod.id}, pod)
  {
    DeleteKeepsSetsIff(a, m, P, pod);
    DeleteKeepsCounters(a, m, P, pod);
  }

  // ---------------------------------------------------------------- update

  /** Visiting rule `i` removes the old prefix from `t`. */
  ghost predicate DropsAt(m: Mapping, Q: Pods, u: Change, t: Target, i: nat) {
    i in u.oldRules && t in RuleTargets(m, i) && u.oldCidr.Some? && u.oldCidr.value !in RuleIps(m, Q, i)
  }

  /** Visiting rule `j` puts the old prefix back, because it is also the new one. */
  ghost predicate RestoresAt(m: Mapping, u: Change, t: Target, j: nat) {
    j in u.newRules && t in RuleTargets(m, j) && u.oldCidr.Some? && u.newCidr == u.oldCidr
  }

  /** The update takes the old prefix from `t` for good although it is still needed there:
      some rule removes it, no later rule puts it back, and either a rule of the target has
      another pod with it or the updated pod still brings it to the target. */
  ghost predicate UpdateClobbersAt(m: Mapping, Q: Pods, u: Change, t: Target) {
    u.oldCidr.Some? &&
    (exists i: nat :: DropsAt(m, Q, u, t, i) && forall j: nat :: i <= j ==> !RestoresAt(m, u, t, j)) &&
    ((exists j: nat :: t in RuleTargets(m, j) && u.oldCidr.value in RuleIps(m, Q, j)) ||
     (exists j: nat :: RestoresAt(m, u, t, j)))
  }

  ghost predicate UpdateClobbers(m: Mapping, Q: Pods, u: Change) {
    exists t :: UpdateClobbersAt(m, Q, u, t)
  }

  lemma {:induction false} SeparatedNeverUpdateClobbers(m: Mapping, Q: Pods, u: Change)
    requires RulesSeparated(m)
    ensures !UpdateClobbers(m, Q, u)
  {
  }

  ghost predicate GainsAt(m: Mapping, u: Change, t: Target, cidr: string, j: nat) {
    j in u.newRules && t in RuleTargets(m, j) && u.newCidr == Some(cidr)
  }

  /** A prefix other than the old one is only ever added. */
  lemma {:induction false} SettleOther(a: Artifacts, m: Mapping, u: Change, t: Target, k: nat, cidr: string)
    requires u.oldCidr != Some(cidr)
    ensures cidr in Settle(a, m, u, t, k) <==>
            cidr in IpsAt(a.desired, t) || exists j: nat :: j < k && GainsAt(m, u, t, cidr, j)
  {
    if k > 0 {
      SettleOther(a, m, u, t, k - 1, cidr);
      assert GainsAt(m, u, t, cidr, k - 1) ==> cidr in Settle(a, m, u, t, k);
    }
  }

  /** None of the first `k` rules removes the old prefix. */
  ghost predicate NeverDrops(m: Mapping, Q: Pods, u: Change, t: Target, k: nat) {
    forall i: nat :: i < k ==> !DropsAt(m, Q, u, t, i)
  }

  /** One of the first `k` rules puts the old prefix back and no later one removes it. */
  ghost predicate RestoresLast(m: Mapping, Q: Pods, u: Change, t: Target, k: nat) {
    exists j: nat :: j < k && RestoresAt(m, u, t, j) && forall i: nat :: j < i < k ==> !DropsAt(m, Q, u, t, i)
  }

  lemma {:induction false} RestoresLastStep(m: Mapping, Q: Pods, u: Change, t: Target, k: nat)
    ensures RestoresLast(m, Q, u, t, k + 1) <==> RestoresAt(m, u, t, k) || (RestoresLast(m, Q, u, t, k) && !DropsAt(m, Q, u, t, k))
  {
    if RestoresAt(m, u, t, k) {
      assert forall i: nat :: k < i < k + 1 ==> !DropsAt(m, Q, u, t, i);
    }
    if RestoresLast(m, Q, u, t, k) && !DropsAt(m, Q, u, t, k) {
      var j: nat :| j < k && RestoresAt(m, u, t, j) && forall i: nat :: j < i < k ==> !DropsAt(m, Q, u, t, i);
      assert forall i: nat :: j < i < k + 1 ==> !DropsAt(m, Q, u, t, i);
    }
  }

  /** The old prefix survives when no rule removes it, or when some rule puts it back and no
      later rule removes it. */
  lemma {:induction false} SettleOld(a: Artifacts, m: Mapping, P: Pods, u: Change, t: Target, k: nat)
    requires SetParity(a, m, P) && u.oldCidr.Some?
    ensures u.oldCidr.value in Settle(a, m, u, t, k) <==>
            (u.oldCidr.value in IpsAt(a.desired, t) && NeverDrops(m, P - {u.id}, u, t, k)) || RestoresLast(m, P - {u.id}, u, t, k)
  {
    if k > 0 {
      SettleOld(a, m, P, u, t, k - 1);
      OthersOfRule(a, m, P, u.id, k - 1, u.oldCidr.value);
      RestoresLastStep(m, P - {u.id}, u, t, k - 1);
      assert NeverDrops(m, P - {u.id}, u, t, k) <==> NeverDrops(m, P - {u.id}, u, t, k - 1) && !DropsAt(m, P - {u.id}, u, t, k - 1);
    }
  }

  /** The update event fits the pod set: same identity, and the set has the old or, when the
      event is already reflected, the new object. */
  ghost predicate FitsUpdate(m: Mapping, P: Pods, prior: Pod, next: Pod) {
    prior.id == next.id && next.id.namespace == m.key.namespace && next.id in P && (P[next.id] == prior || P[next.id] == next)
  }

  lemma {:induction false} UpdateOtherPrefix(a: Artifacts, m: Mapping, P: Pods, prior: Pod, next: Pod, t: Target, cidr: string)
    requires SetParity(a, m, P) && FitsUpdate(m, P, prior, next) && Cidr(prior) != Some(cidr)
    ensures cidr in Settle(a, m, ChangeOf(m, prior, next), t, |m.rules|) <==> cidr in WantedIps(m, P[next.id := next], t)
  {
    var u, Q := ChangeOf(m, prior, next), P - {next.id};
    SettleOther(a, m, u, t, |m.rules|, cidr);
    Rejoin(P, next.id);
    assert P[next.id := next] == Q[next.id := next];
    WantedIpsAdd(m, Q, P[next.id], t);
    WantedIpsAdd(m, Q, next, t);
    assert IpsAt(a.desired, t) == WantedIps(m, P, t);
    if t in TargetsOfRules(m, u.newRules) && u.newCidr == Some(cidr) {
      var j :| j in u.newRules && t in RuleTargets(m, j);
      assert GainsAt(m, u, t, cidr, j);
    }
  }

  /** Some removal is never made good. */
  ghost predicate DropsForGood(m: Mapping, Q: Pods, u: Change, t: Target) {
    exists i: nat :: DropsAt(m, Q, u, t, i) && forall j: nat :: i <= j ==> !RestoresAt(m, u, t, j)
  }

  ghost predicate Restores(m: Mapping, u: Change, t: Target) {
    exists j: nat :: RestoresAt(m, u, t, j)
  }

  lemma {:induction false} UpdateOldPrefix(a: Artifacts, m: Mapping, P: Pods, prior: Pod, next: Pod, t: Target)
    requires SetParity(a, m, P) && FitsUpdate(m, P, prior, next) && prior.address.Some?
    ensures var cidr := prior.address.value.cidr;
            (cidr in Settle(a, m, ChangeOf(m, prior, next), t, |m.rules|) <==> cidr in WantedIps(m, P[next.id := next], t)) <==>
            !UpdateClobbersAt(m, P - {next.id}, ChangeOf(m, prior, next), t)
  {
    var u, Q, cidr := ChangeOf(m, prior, next), P - {next.id}, prior.address.value.cidr;
    SettleOld(a, m, P, u, t, |m.rules|);
    assert IpsAt(a.desired, t) == WantedIps(m, P, t);
    OldPrefixWanted(m, P, prior, next, t);
    LastDrop(m, Q, u, t);
    ClobbersMeans(m, Q, u, t);
  }

  lemma {:induction false} ClobbersMeans(m: Mapping, Q: Pods, u: Change, t: Target)
    requires u.oldCidr.Some?
    ensures UpdateClobbersAt(m, Q, u, t) <==>
            DropsForGood(m, Q, u, t) && (u.oldCidr.value in WantedIps(m, Q, t) || Restores(m, u, t))
  {
    WantedByRule(m, Q, t, u.oldCidr.value);
  }

  /** Where the old prefix was wanted before and is wanted after. */
  lemma {:induction false} OldPrefixWanted(m: Mapping, P: Pods, prior: Pod, next: Pod, t: Target)
    requires FitsUpdate(m, P, prior, next) && prior.address.Some?
    ensures var u, Q, cidr := ChangeOf(m, prior, next), P - {next.id}, prior.address.value.cidr;
            && (cidr in WantedIps(m, P[next.id := next], t) <==>
                cidr in WantedIps(m, Q, t) || Restores(m, u, t))
            && (cidr in WantedIps(m, P, t) ==>
                cidr in WantedIps(m, Q, t) || Restores(m, u, t) || !NeverDrops(m, Q, u, t, |m.rules|))
            && (cidr in WantedIps(m, Q, t) ==> cidr in WantedIps(m, P, t))
  {
    var u, Q, cidr := ChangeOf(m, prior, next), P - {next.id}, prior.address.value.cidr;
    Rejoin(P, next.id);
    assert P[next.id := next] == Q[next.id := next];
    WantedIpsAdd(m, Q, P[next.id], t);
    WantedIpsAdd(m, Q, next, t);
    if t in TargetsOfRules(m, u.newRules) && u.newCidr == u.oldCidr {
      var j :| j in u.newRules && t in RuleTargets(m, j);
      assert RestoresAt(m, u, t, j);
    }
    if cidr in WantedIps(m, P, t) && cidr !in WantedIps(m, Q, t) && P[next.id] == prior {
      var i :| i in u.oldRules && t in RuleTargets(m, i);
      WantedByRule(m, Q, t, cidr);
      assert DropsAt(m, Q, u, t, i);
    }
  }

  /** Exactly one of: some removal is final, or none happens, or the last one is made good;
      where nothing is removed, any restoring rule restores last. */
  lemma {:induction false} LastDrop(m: Mapping, Q: Pods, u: Change, t: Target)
    requires forall i :: i in u.oldRules || i in u.newRules ==> i < |m.rules|
    ensures DropsForGood(m, Q, u, t) <==> !NeverDrops(m, Q, u, t, |m.rules|) && !RestoresLast(m, Q, u, t, |m.rules|)
    ensures NeverDrops(m, Q, u, t, |m.rules|) && Restores(m, u, t) ==> RestoresLast(m, Q, u, t, |m.rules|)
    ensures RestoresLast(m, Q, u, t, |m.rules|) ==> Restores(m, u, t)
  {
    if i: nat :| i < |m.rules| && DropsAt(m, Q, u, t, i) {
      var last := FinalDrop(m, Q, u, t, i, |m.rules|);
      if j: nat :| last <= j && RestoresAt(m, u, t, j) {
        assert j < |m.rules|;
      }
    }
  }

  /** The last removal among the first `k` rules. */
  lemma {:induction false} FinalDrop(m: Mapping, Q: Pods, u: Change, t: Target, i: nat, k: nat) returns (last: nat)
    requires i < k && DropsAt(m, Q, u, t, i)
    ensures last < k && DropsAt(m, Q, u, t, last) && forall r: nat :: last < r < k ==> !DropsAt(m, Q, u, t, r)
  {
    if DropsAt(m, Q, u, t, k - 1) {
      last := k - 1;
    } else {
      last := FinalDrop(m, Q, u, t, i, k - 1);
    }
  }

  /** A target ends with the prefixes of the new pod set exactly when it is not clobbered. */
  lemma {:induction false} UpdatePerTarget(a: Artifacts, m: Mapping, P: Pods, prior: Pod, next: Pod, t: Target)
    requires SetParity(a, m, P) && FitsUpdate(m, P, prior, next)
    ensures IpsAt(AfterUpdate(a, m, prior, next).desired, t) == WantedIps(m, P[next.id := next], t) <==>
            !UpdateClobbersAt(m, P - {next.id}, ChangeOf(m, prior, next), t)
  {
    var u, wanted := ChangeOf(m, prior, next), WantedIps(m, P[next.id := next], t);
    var settled := Settle(a, m, u, t, |m.rules|);
    SettledAt(a, m, u, t);
    forall cidr | Cidr(prior) != Some(cidr) ensures cidr in settled <==> cidr in wanted {
      UpdateOtherPrefix(a, m, P, prior, next, t, cidr);
    }
    if prior.address.Some? {
      UpdateOldPrefix(a, m, P, prior, next, t);
    }
    assert settled == wanted <==> forall cidr :: cidr in settled <==> cidr in wanted;
  }

  /** A target no affected rule reaches keeps its prefixes. */
  lemma {:induction false} SettleUntouched(a: Artifacts, m: Mapping, u: Change, t: Target, k: nat)
    requires t !in TargetsOfRules(m, Affected(u, k))
    ensures Settle(a, m, u, t, k) == IpsAt(a.desired, t)
  {
    if k > 0 {
      assert Affected(u, k - 1) <= Affected(u, k);
      SettleUntouched(a, m, u, t, k - 1);
      assert k - 1 in u.oldRules + u.newRules ==> k - 1 in Affected(u, k);
    }
  }

  lemma {:induction false} SettledAt(a: Artifacts, m: Mapping, u: Change, t: Target)
    ensures IpsAt(SettledDesired(a, m, u, |m.rules|), t) == Settle(a, m, u, t, |m.rules|)
  {
    if t !in TargetsOfRules(m, Affected(u, |m.rules|)) {
      SettleUntouched(a, m, u, t, |m.rules|);
    }
  }

  lemma {:induction false} UpdateKeepsRules(a: Artifacts, m: Mapping, P: Pods, prior: Pod, next: Pod)
    requires a.podRules == WantedPodRules(m, P) && FitsUpdate(m, P, prior, next)
    ensures RulesAfter(a, ChangeOf(m, prior, next)) == WantedPodRules(m, P[next.id := next])
  {
    var Q := P - {next.id};
    Rejoin(P, next.id);
    TrackedAdd(m, Q, P[next.id]);
    RulesAfterMoves(a, ChangeOf(m, prior, next), WantedPodRules(m, Q));
    TrackedAdd(m, Q, next);
    assert P[next.id := next] == Q[next.id := next];
  }

  lemma {:induction false} UpdateKeepsSnapshot(a: Artifacts, m: Mapping, P: Pods, prior: Pod, next: Pod)
    requires a.snapshot == WantedSnapshot(m, P) && FitsUpdate(m, P, prior, next)
    ensures SnapshotAfter(a, ChangeOf(m, prior, next), next) == WantedSnapshot(m, P[next.id := next])
  {
    var before, after := SnapshotAfter(a, ChangeOf(m, prior, next), next), WantedSnapshot(m, P[next.id := next]);
    assert before.Keys == after.Keys;
  }

  /** The tracked rules move from those of the old, or already the new, object to the new one's. */
  lemma {:induction false} RulesAfterMoves(a: Artifacts, u: Change, others: map<PodId, set<nat>>)
    requires u.id !in others
    requires a.podRules == others[u.id := u.oldRules] || a.podRules == others[u.id := u.newRules] ||
             (a.podRules == others && (u.oldRules == {} || u.newRules == {}))
    ensures RulesAfter(a, u) == if u.newRules == {} then others else others[u.id := u.newRules]
  {
    if u.newRules != {} {
      assert RulesAt(a, u.id) + (u.newRules - u.oldRules) - (u.oldRules - u.newRules) == u.newRules;
    }
  }

  /** Applying an update, also one already reflected in the pod set, keeps the sets in parity
      exactly when it clobbers no target. */
  lemma {:induction false} UpdateKeepsSetsIff(a: Artifacts, m: Mapping, P: Pods, prior: Pod, next: Pod)
    requires SetParity(a, m, P) && FitsUpdate(m, P, prior, next)
    ensures SetParity(AfterUpdate(a, m, prior, next), m, P[next.id := next]) <==>
            !UpdateClobbers(m, P - {next.id}, ChangeOf(m, prior, next))
  {
    UpdateKeepsRules(a, m, P, prior, next);
    UpdateKeepsSnapshot(a, m, P, prior, next);
    forall t ensures IpsAt(AfterUpdate(a, m, prior, next).desired, t) == WantedIps(m, P[next.id := next], t) <==>
                     !UpdateClobbersAt(m, P - {next.id}, ChangeOf(m, prior, next), t)
    {
      UpdatePerTarget(a, m, P, prior, next, t);
    }
  }

  lemma {:induction false} UpdateKeepsCounters(a: Artifacts, m: Mapping, P: Pods, prior: Pod, next: Pod)
    requires Parity(a, m, P) && FitsUpdate(m, P, prior, next) && P[next.id] == prior
    ensures CountsAre(AfterUpdate(a, m, prior, next).counts, m, P[next.id := next])
    ensures AfterUpdate(a, m, prior, next).pending == |Pending(m, P[next.id := next])|
    ensures forall i :: i in RulesOf(m, prior) ==> a.counts[i] > 0
    ensures IsPending(a, next.id) ==> a.pending > 0
  {
    UpdateKeepsPending(a, m, P, prior, next);
    forall i: nat | i < |m.rules|
      ensures AfterUpdate(a, m, prior, next).counts[i] == |Matching(m, P[next.id := next], i)|
      ensures i in RulesOf(m, prior) ==> a.counts[i] > 0
    {
      UpdateKeepsCount(a, m, P, prior, next, i);
    }
  }

  lemma {:induction false} UpdateKeepsCount(a: Artifacts, m: Mapping, P: Pods, prior: Pod, next: Pod, i: nat)
    requires CountsAre(a.counts, m, P) && FitsUpdate(m, P, prior, next) && P[next.id] == prior && i < |m.rules|
    ensures AfterUpdate(a, m, prior, next).counts[i] == |Matching(m, P[next.id := next], i)|
    ensures i in RulesOf(m, prior) ==> a.counts[i] > 0
  {
    MatchingWith(m, P, prior, i);
    MatchingWith(m, P[next.id := next], next, i);
    assert P[next.id := next] - {next.id} == P - {next.id};
    assert a.counts[i] == |Matching(m, P, i)|;
  }

  lemma {:induction false} UpdateKeepsPending(a: Artifacts, m: Mapping, P: Pods, prior: Pod, next: Pod)
    requires Parity(a, m, P) && FitsUpdate(m, P, prior, next) && P[next.id] == prior
    ensures AfterUpdate(a, m, prior, next).pending == |Pending(m, P[next.id := next])|
    ensures IsPending(a, next.id) ==> a.pending > 0
  {
    PendingWith(m, P, prior);
    PendingWith(m, P[next.id := next], next);
    assert P[next.id := next] - {next.id} == P - {next.id};
    assert IsPending(a, next.id) <==> RulesOf(m, prior) != {} && prior.address.None?;
  }

  lemma {:induction false} PendingWith(m: Mapping, P: Pods, pod: Pod)
    requires pod.id in P && P[pod.id] == pod
    ensures |Pending(m, P)| == |Pending(m, P - {pod.id})| + (if RulesOf(m, pod) != {} && pod.address.None? then 1 else 0)
  {
    Rejoin(P, pod.id);
    PendingAdd(m, P - {pod.id}, pod);
  }

  lemma {:induction false} MatchingWith(m: Mapping, P: Pods, pod: Pod, i: nat)
    requires pod.id in P && P[pod.id] == pod
    ensures |Matching(m, P, i)| == |Matching(m, P - {pod.id}, i)| + (if i in RulesOf(m, pod) then 1 else 0)
  {
    Rejoin(P, pod.id);
    MatchingAdd(m, P - {pod.id}, pod, i);
  }

  /** `OnPodUpdate` keeps every field in parity, whatever labels and IP change, exactly when
      it clobbers no target. */
  lemma {:induction false} UpdateKeepsParityIff(a: Artifacts, m: Mapping, P: Pods, prior: Pod, next: Pod)
    requires Parity(a, m, P) && FitsUpdate(m, P, prior, next) && P[next.id] == prior
    ensures Parity(AfterUpdate(a, m, prior, next), m, P[next.id := next]) <==>
            !UpdateClobbers(m, P - {next.id}, ChangeOf(m, prior, next))
  {
    UpdateKeepsSetsIff(a, m, P, prior, next);
    UpdateKeepsCounters(a, m, P, prior, next);
  }

  // ---------------------------------------------------------------- consequences

  /** A pod event that the pod set `P` already reflects. */
  datatype Event = Added(pod: Pod) | Updated(prior: Pod, next: Pod) | Deleted(pod: Pod)

  ghost predicate Reflected(e: Event, m: Mapping, P: Pods) {
    match e
    case Added(pod) => pod.id.namespace == m.key.namespace && pod.id in P && P[pod.id] == pod
    case Updated(prior, next) => FitsUpdate(m, P, prior, next) && P[next.id] == next
    case Deleted(pod) => pod.id.namespace == m.key.namespace && pod.id !in P
  }

  ghost function AfterEvent(a: Artifacts, m: Mapping, e: Event): Artifacts {
    match e
    case Added(pod) => AfterAdd(a, m, pod)
    case Updated(prior, next) => AfterUpdate(a, m, prior, next)
    case Deleted(pod) => AfterDelete(a, m, pod)
  }

  /** An event that a published recompute already contains, the latest of its pod, leaves
      prefixes, snapshot and rule tracking as they are. */
  lemma {:induction false} ReplayKeepsSets(a: Artifacts, m: Mapping, P: Pods, e: Event)
    requires RulesSeparated(m) && SetParity(a, m, P) && Reflected(e, m, P)
    ensures SetParity(AfterEvent(a, m, e), m, P)
  {
    match e
    case Added(pod) =>
      AddKeepsSets(a, m, P, pod);
      assert P[pod.id := pod] == P;
    case Updated(prior, next) =>
      UpdateKeepsSetsIff(a, m, P, prior, next);
      SeparatedNeverUpdateClobbers(m, P - {next.id}, ChangeOf(m, prior, next));
      assert P[next.id := next] == P;
    case Deleted(pod) =>
      DeleteKeepsSetsIff(a, m, P, pod);
      SeparatedNeverDeleteClobbers(m, P - {pod.id}, pod);
      assert P - {pod.id} == P;
  }

  /** The counters are not so forgiving: a replayed add leaves the counts right exactly when
      the pod matches no rule. */
  lemma {:induction false} ReplayedAddDrifts(a: Artifacts, m: Mapping, P: Pods, pod: Pod)
    requires Parity(a, m, P) && Reflected(Added(pod), m, P)
    ensures CountsAre(AfterAdd(a, m, pod).counts, m, P) <==> RulesOf(m, pod) == {}
  {
    if i :| i in RulesOf(m, pod) {
      assert AfterAdd(a, m, pod).counts[i] == a.counts[i] + 1;
    }
  }

  /** A prefix shared by two pods of one rule survives the deletion of either. */
  lemma {:induction false} SharedPrefixSurvives(a: Artifacts, m: Mapping, P: Pods, pod: Pod, other: PodId, i: nat, t: Target)
    requires RulesSeparated(m) && SetParity(a, m, P) && pod.id.namespace == m.key.namespace && pod.id in P && P[pod.id] == pod
    requires other in P && other != pod.id && i in RulesOf(m, P[other]) && t in RuleTargets(m, i)
    requires pod.address.Some? && P[other].address.Some? && P[other].address.value.cidr == pod.address.value.cidr
    ensures pod.address.value.cidr in IpsAt(AfterDelete(a, m, pod).desired, t)
  {
    var Q := P - {pod.id};
    DeletePerTarget(a, m, P, pod, t);
    SeparatedNeverDeleteClobbers(m, Q, pod);
    assert t in TargetsOfRules(m, RulesOf(m, Q[other]));
    assert other in Feeders(m, Q, t);
  }

  /** A mapping whose rules all have one and the same target. */
  lemma {:induction false} OneTarget(m: Mapping, t: Target)
    requires forall rule :: rule in m.rules ==> rule.refs == [Asg(t)]
    ensures OneSpelling(m) && WellFormedRefs(m)
    ensures forall i: nat :: i < |m.rules| ==> t in RuleTargets(m, i)
  {
    forall i: nat | i < |m.rules| ensures RuleTargets(m, i) == {t} {
      assert m.rules[i] in m.rules;
      assert Asg(t) in m.rules[i].refs;
    }
    assert AllTargets(m) <= {t};
  }

  /** Rule separation is needed: a pod that matches two rules of one target and then leaves
      the second loses its prefix there, although the first rule still wants it. */
  lemma {:induction false} SharedTargetIsClobbered() returns (m: Mapping, P: Pods, prior: Pod, next: Pod)
    ensures OneSpelling(m) && WellFormedRefs(m) && Keyed(P) && FitsUpdate(m, P, prior, next) && P[next.id] == prior
    ensures forall a :: Parity(a, m, P) ==> !Parity(AfterUpdate(a, m, prior, next), m, P[next.id := next])
  {
    var t := Target("asg", "asg");
    var all, web := MatchLabels(map[]), MatchLabels(map["app" := "web"]);
    m := Mapping(Key("ns", "m"), "uid", 1, [Rule(all, [Asg(t)]), Rule(web, [Asg(t)])]);
    var id, address := PodId("ns", "p", "u"), Some(Address("10.0.0.1", "10.0.0.1/32"));
    prior := Pod(id, map["app" := "web"], address);
    next := Pod(id, map[], address);
    P := map[id := prior];
    OneTarget(m, t);
    var u, Q := ChangeOf(m, prior, next), P - {id};
    assert Q == map[];
    assert t in RuleTargets(m, 0) && t in RuleTargets(m, 1);
    assert Selects(all, next.labels) && Selects(web, prior.labels);
    assert !Selects(web, next.labels) by { assert "app" in web.labels; }
    assert RestoresAt(m, u, t, 0) && DropsAt(m, Q, u, t, 1);
    assert UpdateClobbersAt(m, Q, u, t);
    forall a | Parity(a, m, P) ensures !Parity(AfterUpdate(a, m, prior, next), m, P[next.id := next]) {
      UpdateKeepsParityIff(a, m, P, prior, next);
    }
  }

  /** So it is for a delete: of two pods with one IP, the only one that a rule of the target
      selects goes, and takes the prefix of the other with it. */
  lemma {:induction false} DeleteIsClobbered() returns (m: Mapping, P: Pods, pod: Pod)
    ensures OneSpelling(m) && WellFormedRefs(m) && Keyed(P) && pod.id in P && P[pod.id] == pod && pod.id.namespace == m.key.namespace
    ensures forall a :: Parity(a, m, P) ==> !Parity(AfterDelete(a, m, pod), m, P - {pod.id})
  {
    var t := Target("asg", "asg");
    var web, db := MatchLabels(map["app" := "web"]), MatchLabels(map["app" := "db"]);
    m := Mapping(Key("ns", "m"), "uid", 1, [Rule(web, [Asg(t)]), Rule(db, [Asg(t)])]);
    var host := Address("10.0.0.1", "10.0.0.1/32");
    pod := Pod(PodId("ns", "web", "u"), map["app" := "web"], Some(host));
    var other := Pod(PodId("ns", "db", "v"), map["app" := "db"], Some(host));
    assert "web" != "db" by { assert |"web"| != |"db"|; }
    assert "app" in web.labels && !Selects(web, other.labels);
    P := map[pod.id := pod, other.id := other];
    OneTarget(m, t);
    SharedIpClobbers(m, pod, other, t);
    ClobberingDeleteLoses(m, P, pod);
  }

  lemma {:induction false} SharedIpClobbers(m: Mapping, pod: Pod, other: Pod, t: Target)
    requires |m.rules| == 2 && t in RuleTargets(m, 0) && t in RuleTargets(m, 1)
    requires pod.id != other.id && pod.id.namespace == other.id.namespace == m.key.namespace
    requires Selects(m.rules[0].selector, pod.labels) && !Selects(m.rules[0].selector, other.labels)
    requires Selects(m.rules[1].selector, other.labels) && pod.address.Some? && other.address == pod.address
    ensures DeleteClobbersAt(m, map[pod.id := pod, other.id := other] - {pod.id}, pod, t)
  {
    var Q := map[pod.id := pod, other.id := other] - {pod.id};
    assert Q == map[other.id := other];
    assert Matching(m, Q, 0) == {} && RuleIps(m, Q, 0) == {};
    assert other.id in Matching(m, Q, 1) && pod.address.value.cidr in RuleIps(m, Q, 1);
  }

  lemma {:induction false} ClobberingDeleteLoses(m: Mapping, P: Pods, pod: Pod)
    requires pod.id in P && P[pod.id] == pod && pod.id.namespace == m.key.namespace && DeleteClobbers(m, P - {pod.id}, pod)
    ensures forall a :: Parity(a, m, P) ==> !Parity(AfterDelete(a, m, pod), m, P - {pod.id})
  {
    forall a | Parity(a, m, P) ensures !Parity(AfterDelete(a, m, pod), m, P - {pod.id}) {
      DeleteKeepsParityIff(a, m, P, pod);
    }
  }

  /** One spelling is needed: a rule that names one ASG in two spellings makes every recompute
      leave one of them out. */
  lemma {:induction false} TwoSpellingsDisagree() returns (m: Mapping, P: Pods)
    ensures RulesSeparated(m) && WellFormedRefs(m) && Keyed(P)
    ensures forall a :: Tracks(a, m, P) && Covers(a.desired, [m], P) && a.desired.Keys <= FedTargets(m, P) ==> !Parity(a, m, P)
  {
    var t, u := Target("ASG", "asg"), Target("asg", "asg");
    m := Mapping(Key("ns", "m"), "uid", 1, [Rule(MatchLabels(map[]), [Asg(t), Asg(u)])]);
    var id := PodId("ns", "p", "u");
    P := map[id := Pod(id, map[], Some(Address("10.0.0.1", "10.0.0.1/32")))];
    assert "ASG"[0] != "asg"[0];
    assert Asg(t) in m.rules[0].refs && Asg(u) in m.rules[0].refs;
    assert t in RuleTargets(m, 0) && u in RuleTargets(m, 0);
    assert 0 in RulesOf(m, P[id]);
    assert id in Feeders(m, P, t) && id in Feeders(m, P, u);
    assert t in FedTargets(m, P) && u in FedTargets(m, P);
    forall a | Tracks(a, m, P) && Covers(a.desired, [m], P) && a.desired.Keys <= FedTargets(m, P) ensures !Parity(a, m, P) {
      RecomputeParityIff(a, m, P);
    }
  }

  // ---------------------------------------------------------------- pods that do not matter

  /** Replacing or dropping a pod that no rule matches changes nothing the mapping derives. */
  lemma {:induction false} IrrelevantPod(a: Artifacts, m: Mapping, P: Pods, P': Pods, id: PodId)
    requires P - {id} == P' - {id}
    requires id in P ==> RulesOf(m, P[id]) == {}
    requires id in P' ==> RulesOf(m, P'[id]) == {}
    requires Parity(a, m, P)
    ensures Parity(a, m, P')
  {
    forall o | o in P && RulesOf(m, P[o]) != {} ensures o in P' && P'[o] == P[o] {
      assert o in P - {id};
      assert (P - {id})[o] == (P' - {id})[o];
    }
    forall o | o in P' && RulesOf(m, P'[o]) != {} ensures o in P && P'[o] == P[o] {
      assert o in P' - {id};
      assert (P - {id})[o] == (P' - {id})[o];
    }
    SameMatches(a, m, P, P');
  }

  ghost predicate SamePods(m: Mapping, P: Pods, P': Pods) {
    (forall o :: o in P && RulesOf(m, P[o]) != {} ==> o in P' && P'[o] == P[o]) &&
    (forall o :: o in P' && RulesOf(m, P'[o]) != {} ==> o in P && P'[o] == P[o])
  }

  lemma {:induction false} SameWantedIps(m: Mapping, P: Pods, P': Pods, t: Target)
    requires SamePods(m, P, P')
    ensures WantedIps(m, P, t) == WantedIps(m, P', t)
  {
    assert Feeders(m, P, t) == Feeders(m, P', t);
  }

  lemma {:induction false} SameCounters(m: Mapping, P: Pods, P': Pods)
    requires SamePods(m, P, P')
    ensures Pending(m, P) == Pending(m, P')
    ensures forall i: nat :: Matching(m, P, i) == Matching(m, P', i)
  {
  }

  lemma {:induction false} SameTracking(m: Mapping, P: Pods, P': Pods)
    requires SamePods(m, P, P')
    ensures WantedSnapshot(m, P) == WantedSnapshot(m, P') && WantedPodRules(m, P) == WantedPodRules(m, P')
  {
  }

  lemma {:induction false} SameMatches(a: Artifacts, m: Mapping, P: Pods, P': Pods)
    requires SamePods(m, P, P') && Parity(a, m, P)
    ensures Parity(a, m, P')
  {
    SameTracking(m, P, P');
    SameCounters(m, P, P');
    forall i: nat | i < |m.rules| ensures a.counts[i] == |Matching(m, P', i)| {
      assert Matching(m, P, i) == Matching(m, P', i);
    }
    forall t ensures IpsAt(a.desired, t) == WantedIps(m, P', t) {
      SameWantedIps(m, P, P', t);
    }
  }
}
