/** Pod events that trail behind a published recompute: a queue of events of a pod may disturb
    its entry on the way, and leaves it as the recompute when it is drained. */
module Replay {
  import opened Model
  import opened DesiredState
  import opened Incremental
  import opened CacheState
  import opened PodHandler

  // ---------------------------------------------------------------- queues

  function Before(e: Event): Option<Pod> {
    match e
    case Added(_) => None
    case Updated(prior, _) => Some(prior)
    case Deleted(pod) => Some(pod)
  }

  function Behind(e: Event): Option<Pod> {
    match e
    case Added(pod) => Some(pod)
    case Updated(_, next) => Some(next)
    case Deleted(_) => None
  }

  ghost predicate Of(state: Option<Pod>, id: PodId) {
    state.Some? ==> state.value.id == id
  }

  /** The events of pod `id` since it was in state `first`, each starting where the last one ended. */
  ghost predicate Queue(events: seq<Event>, id: PodId, first: Option<Pod>)
    decreases |events|
  {
    Of(first, id) &&
    (events == [] || (Before(events[0]) == first && Queue(events[1..], id, Behind(events[0]))))
  }

  function Last(events: seq<Event>, first: Option<Pod>): Option<Pod>
    decreases |events|
  {
    if events == [] then first else Last(events[1..], Behind(events[0]))
  }

  ghost function AfterAll(a: Artifacts, m: Mapping, events: seq<Event>): Artifacts
    decreases |events|
  {
    if events == [] then a else AfterAll(AfterReaction(a, m, events[0]), m, events[1..])
  }

  // ---------------------------------------------------------------- what a pod in some state brings

  function RulesIn(m: Mapping, state: Option<Pod>): set<nat> {
    if state.Some? then RulesOf(m, state.value) else {}
  }

  function AddressIn(m: Mapping, state: Option<Pod>): Option<Address> {
    if RulesIn(m, state) != {} then state.value.address else None
  }

  ghost function Brings(m: Mapping, state: Option<Pod>, t: Target): set<string> {
    if state.Some? then Gain(t in TargetsOfRules(m, RulesIn(m, state)), state.value) else {}
  }

  function AddressAt(a: Artifacts, id: PodId): Option<Address> {
    if id in a.snapshot then Some(a.snapshot[id]) else None
  }

  // ---------------------------------------------------------------- an entry ahead of the events

  /** A target has every prefix of the other pods `Q`, and of the pod's own at least what the
      replayed state `now` and the listed state `listed` share and at most what they bring. */
  ghost predicate TargetLags(a: Artifacts, m: Mapping, Q: Pods, now: Option<Pod>, listed: Option<Pod>, t: Target) {
    var own, ips := Brings(m, now, t), IpsAt(a.desired, t);
    WantedIps(m, Q, t) + own * Brings(m, listed, t) <= ips <= WantedIps(m, Q, t) + own + Brings(m, listed, t)
  }

  ghost predicate OthersExact(a: Artifacts, m: Mapping, Q: Pods, id: PodId) {
    a.podRules - {id} == WantedPodRules(m, Q) && a.snapshot - {id} == WantedSnapshot(m, Q)
  }

  ghost predicate RulesLag(a: Artifacts, m: Mapping, id: PodId, now: Option<Pod>, listed: Option<Pod>) {
    RulesIn(m, now) * RulesIn(m, listed) <= RulesAt(a, id) <= RulesIn(m, now) + RulesIn(m, listed) &&
    (id in a.podRules && a.podRules[id] == {} ==> RulesIn(m, now) != {})
  }

  ghost predicate AddressLags(a: Artifacts, m: Mapping, id: PodId, now: Option<Pod>, listed: Option<Pod>) {
    AddressAt(a, id) == AddressIn(m, now) || AddressAt(a, id) == AddressIn(m, listed)
  }

  /** The entry of a recompute over `Q` and the pod as `listed`, once the queue has replayed up
      to the state `now` of the pod. */
  ghost predicate Lags(a: Artifacts, m: Mapping, Q: Pods, id: PodId, now: Option<Pod>, listed: Option<Pod>) {
    OthersExact(a, m, Q, id) && RulesLag(a, m, id, now, listed) && AddressLags(a, m, id, now, listed) &&
    forall t :: TargetLags(a, m, Q, now, listed, t)
  }

  // ---------------------------------------------------------------- one target

  /** With separated rules a prefix is wanted at a target exactly when its rule wants it. */
  lemma {:induction false} WantedByItsRule(m: Mapping, Q: Pods, t: Target, i: nat, cidr: string)
    requires RulesSeparated(m) && t in RuleTargets(m, i)
    ensures cidr in WantedIps(m, Q, t) <==> cidr in RuleIps(m, Q, i)
  {
    WantedByRule(m, Q, t, cidr);
  }

  lemma {:induction false} AddLags(a: Artifacts, m: Mapping, Q: Pods, pod: Pod, listed: Option<Pod>, t: Target)
    requires TargetLags(a, m, Q, None, listed, t) && pod.id.namespace == m.key.namespace
    ensures TargetLags(AfterAdd(a, m, pod), m, Q, Some(pod), listed, t)
  {
    AddedAt(a, m, pod, t);
  }

  lemma {:induction false} DeleteLags(a: Artifacts, m: Mapping, Q: Pods, pod: Pod, listed: Option<Pod>, t: Target)
    requires RulesSeparated(m) && OthersExact(a, m, Q, pod.id) && pod.id.namespace == m.key.namespace
    requires TargetLags(a, m, Q, Some(pod), listed, t)
    ensures TargetLags(AfterDelete(a, m, pod), m, Q, None, listed, t)
  {
    DeletedAt(a, m, pod, t);
    if pod.address.Some? {
      var cidr := pod.address.value.cidr;
      var dropped := TargetsOfRules(m, DroppedRules(a, m, pod, cidr));
      if t in dropped {
        var i :| i in DroppedRules(a, m, pod, cidr) && t in RuleTargets(m, i);
        OthersTracked(a, m, Q, pod.id, i, cidr);
        WantedByItsRule(m, Q, t, i, cidr);
      } else if i :| i in RulesOf(m, pod) && t in RuleTargets(m, i) {
        assert i in TouchedRules(a, m, pod);
        OthersTracked(a, m, Q, pod.id, i, cidr);
        WantedByItsRule(m, Q, t, i, cidr);
      }
    }
  }

  /** With separated rules only the rule of the target settles it. */
  lemma {:induction false} SettleOnce(a: Artifacts, m: Mapping, u: Change, t: Target, i: nat, k: nat)
    requires RulesSeparated(m) && t in RuleTargets(m, i)
    ensures Settle(a, m, u, t, k) ==
            if i < k && i in u.oldRules + u.newRules then Touch(a, u, i, IpsAt(a.desired, t)) else IpsAt(a.desired, t)
  {
    if k > 0 {
      SettleOnce(a, m, u, t, i, k - 1);
    }
  }

  /** What visiting rule `i`, the only one of its target, does there. */
  lemma {:induction false} TouchedAt(a: Artifacts, m: Mapping, Q: Pods, prior: Pod, next: Pod, t: Target, i: nat)
    requires RulesSeparated(m) && t in RuleTargets(m, i) && OthersExact(a, m, Q, next.id)
    ensures var u, ips := ChangeOf(m, prior, next), IpsAt(a.desired, t);
            Touch(a, u, i, ips) == ips - (Gain(i in u.oldRules, prior) - WantedIps(m, Q, t)) + Gain(i in u.newRules, next)
  {
    if prior.address.Some? {
      OthersTracked(a, m, Q, next.id, i, prior.address.value.cidr);
      WantedByItsRule(m, Q, t, i, prior.address.value.cidr);
    }
  }

  lemma {:induction false} BringsByItsRule(m: Mapping, pod: Pod, t: Target, i: nat)
    requires RulesSeparated(m) && t in RuleTargets(m, i) && pod.id.namespace == m.key.namespace
    ensures Brings(m, Some(pod), t) == Gain(i in MatchSet(m, pod.labels), pod)
  {
    assert t in TargetsOfRules(m, RulesOf(m, pod)) <==> i in RulesOf(m, pod);
  }

  /** What an update does to a target of rule `i`. */
  lemma {:induction false} UpdatedAt(a: Artifacts, m: Mapping, Q: Pods, prior: Pod, next: Pod, t: Target, i: nat)
    requires RulesSeparated(m) && t in RuleTargets(m, i) && prior.id == next.id && next.id.namespace == m.key.namespace
    requires OthersExact(a, m, Q, next.id)
    ensures IpsAt(AfterUpdate(a, m, prior, next).desired, t) ==
            IpsAt(a.desired, t) - (Brings(m, Some(prior), t) - WantedIps(m, Q, t)) + Brings(m, Some(next), t)
  {
    var u := ChangeOf(m, prior, next);
    SettledAt(a, m, u, t);
    SettleOnce(a, m, u, t, i, |m.rules|);
    TouchedAt(a, m, Q, prior, next, t, i);
    BringsByItsRule(m, prior, t, i);
    BringsByItsRule(m, next, t, i);
  }

  lemma {:induction false} UpdateLags(a: Artifacts, m: Mapping, Q: Pods, prior: Pod, next: Pod, listed: Option<Pod>, t: Target)
    requires RulesSeparated(m) && prior.id == next.id && next.id.namespace == m.key.namespace
    requires OthersExact(a, m, Q, next.id) && TargetLags(a, m, Q, Some(prior), listed, t)
    ensures TargetLags(AfterUpdate(a, m, prior, next), m, Q, Some(next), listed, t)
  {
    if i: nat :| t in RuleTargets(m, i) {
      UpdatedAt(a, m, Q, prior, next, t, i);
    } else {
      var u := ChangeOf(m, prior, next);
      SettledAt(a, m, u, t);
      SettleUntouched(a, m, u, t, |m.rules|);
    }
  }

  // ---------------------------------------------------------------- tracking

  lemma {:induction false} PutElsewhere<V>(a: map<PodId, V>, id: PodId, v: V)
    ensures a[id := v] - {id} == a - {id}
  {
  }

  lemma {:induction false} RemoveElsewhere<V>(a: map<PodId, V>, id: PodId)
    ensures a - {id} - {id} == a - {id}
  {
  }

  lemma {:induction false} AddOthers(a: Artifacts, m: Mapping, Q: Pods, pod: Pod)
    requires OthersExact(a, m, Q, pod.id)
    ensures OthersExact(AfterAdd(a, m, pod), m, Q, pod.id)
  {
    PutElsewhere(a.podRules, pod.id, RulesAt(a, pod.id) + MatchSet(m, pod.labels));
    if pod.address.Some? {
      PutElsewhere(a.snapshot, pod.id, pod.address.value);
    }
  }

  lemma {:induction false} AddRules(a: Artifacts, m: Mapping, pod: Pod, listed: Option<Pod>)
    requires RulesLag(a, m, pod.id, None, listed) && pod.id.namespace == m.key.namespace
    ensures RulesLag(AfterAdd(a, m, pod), m, pod.id, Some(pod), listed)
  {
    var b, rules := AfterAdd(a, m, pod), MatchSet(m, pod.labels);
    assert RulesAt(b, pod.id) == RulesAt(a, pod.id) + rules;
  }

  lemma {:induction false} AddAddress(a: Artifacts, m: Mapping, pod: Pod, listed: Option<Pod>)
    requires AddressLags(a, m, pod.id, None, listed) && pod.id.namespace == m.key.namespace
    ensures AddressLags(AfterAdd(a, m, pod), m, pod.id, Some(pod), listed)
  {
  }

  lemma {:induction false} DeleteTracks(a: Artifacts, m: Mapping, Q: Pods, pod: Pod, listed: Option<Pod>)
    requires OthersExact(a, m, Q, pod.id)
    ensures var b := AfterDelete(a, m, pod);
            OthersExact(b, m, Q, pod.id) && RulesLag(b, m, pod.id, None, listed) && AddressLags(b, m, pod.id, None, listed)
  {
    RemoveElsewhere(a.podRules, pod.id);
    RemoveElsewhere(a.snapshot, pod.id);
  }

  lemma {:induction false} UpdateOthers(a: Artifacts, m: Mapping, Q: Pods, prior: Pod, next: Pod)
    requires OthersExact(a, m, Q, next.id)
    ensures OthersExact(AfterUpdate(a, m, prior, next), m, Q, next.id)
  {
    var u := ChangeOf(m, prior, next);
    PutElsewhere(a.podRules, u.id, RulesAt(a, u.id) + (u.newRules - u.oldRules) - (u.oldRules - u.newRules));
    RemoveElsewhere(a.podRules, u.id);
    RemoveElsewhere(a.snapshot, u.id);
    if next.address.Some? {
      PutElsewhere(a.snapshot, u.id, next.address.value);
    }
    assert RulesAfter(a, u) - {u.id} == a.podRules - {u.id};
    assert SnapshotAfter(a, u, next) - {u.id} == a.snapshot - {u.id};
  }

  lemma {:induction false} UpdateRules(a: Artifacts, m: Mapping, prior: Pod, next: Pod, listed: Option<Pod>)
    requires RulesLag(a, m, next.id, Some(prior), listed) && prior.id == next.id && next.id.namespace == m.key.namespace
    ensures RulesLag(AfterUpdate(a, m, prior, next), m, next.id, Some(next), listed)
  {
    var b, u := AfterUpdate(a, m, prior, next), ChangeOf(m, prior, next);
    assert b.podRules == RulesAfter(a, u);
    if u.newRules != {} {
      assert RulesAt(b, u.id) == RulesAt(a, u.id) + (u.newRules - u.oldRules) - (u.oldRules - u.newRules);
    }
  }

  lemma {:induction false} UpdateAddress(a: Artifacts, m: Mapping, prior: Pod, next: Pod, listed: Option<Pod>)
    requires next.id.namespace == m.key.namespace
    ensures AddressLags(AfterUpdate(a, m, prior, next), m, next.id, Some(next), listed)
  {
    assert AfterUpdate(a, m, prior, next).snapshot == SnapshotAfter(a, ChangeOf(m, prior, next), next);
  }

  // ---------------------------------------------------------------- draining a queue

  /** A pod that no rule matches brings as little as one that is not there. */
  lemma {:induction false} UnmatchedLags(a: Artifacts, m: Mapping, Q: Pods, id: PodId, was: Option<Pod>, now: Option<Pod>, listed: Option<Pod>)
    requires Lags(a, m, Q, id, was, listed) && RulesIn(m, was) == RulesIn(m, now) == {}
    ensures Lags(a, m, Q, id, now, listed)
  {
    forall t ensures TargetLags(a, m, Q, now, listed, t) {
      assert TargetLags(a, m, Q, was, listed, t);
    }
  }

  lemma {:induction false} AddReaction(a: Artifacts, m: Mapping, Q: Pods, pod: Pod, listed: Option<Pod>)
    requires Lags(a, m, Q, pod.id, None, listed) && pod.id.namespace == m.key.namespace
    ensures Lags(AfterAdd(a, m, pod), m, Q, pod.id, Some(pod), listed)
  {
    AddOthers(a, m, Q, pod);
    AddRules(a, m, pod, listed);
    AddAddress(a, m, pod, listed);
    forall t ensures TargetLags(AfterAdd(a, m, pod), m, Q, Some(pod), listed, t) {
      assert TargetLags(a, m, Q, None, listed, t);
      AddLags(a, m, Q, pod, listed, t);
    }
  }

  lemma {:induction false} DeleteReaction(a: Artifacts, m: Mapping, Q: Pods, pod: Pod, listed: Option<Pod>)
    requires RulesSeparated(m) && Lags(a, m, Q, pod.id, Some(pod), listed) && pod.id.namespace == m.key.namespace
    ensures Lags(AfterDelete(a, m, pod), m, Q, pod.id, None, listed)
  {
    DeleteTracks(a, m, Q, pod, listed);
    forall t ensures TargetLags(AfterDelete(a, m, pod), m, Q, None, listed, t) {
      assert TargetLags(a, m, Q, Some(pod), listed, t);
      DeleteLags(a, m, Q, pod, listed, t);
    }
  }

  lemma {:induction false} UpdateReaction(a: Artifacts, m: Mapping, Q: Pods, prior: Pod, next: Pod, listed: Option<Pod>)
    requires RulesSeparated(m) && prior.id == next.id && next.id.namespace == m.key.namespace
    requires Lags(a, m, Q, next.id, Some(prior), listed)
    ensures Lags(AfterUpdate(a, m, prior, next), m, Q, next.id, Some(next), listed)
  {
    UpdateOthers(a, m, Q, prior, next);
    UpdateRules(a, m, prior, next, listed);
    UpdateAddress(a, m, prior, next, listed);
    forall t ensures TargetLags(AfterUpdate(a, m, prior, next), m, Q, Some(next), listed, t) {
      assert TargetLags(a, m, Q, Some(prior), listed, t);
      UpdateLags(a, m, Q, prior, next, listed, t);
    }
  }

  /** Every reaction moves the entry along with the replayed state. */
  lemma {:induction false} EventLags(a: Artifacts, m: Mapping, Q: Pods, id: PodId, e: Event, listed: Option<Pod>)
    requires RulesSeparated(m) && id.namespace == m.key.namespace && Of(Before(e), id) && Of(Behind(e), id)
    requires Lags(a, m, Q, id, Before(e), listed)
    ensures Lags(AfterReaction(a, m, e), m, Q, id, Behind(e), listed)
  {
    if !Concerns(m, e) {
      UnmatchedLags(a, m, Q, id, Before(e), Behind(e), listed);
    } else {
      match e
      case Added(pod) => AddReaction(a, m, Q, pod, listed);
      case Deleted(pod) => DeleteReaction(a, m, Q, pod, listed);
      case Updated(prior, next) =>
        if MatchSet(m, next.labels) == {} {
          DeleteReaction(a, m, Q, prior, listed);
          UnmatchedLags(AfterDelete(a, m, prior), m, Q, id, None, Some(next), listed);
        } else if MatchSet(m, prior.labels) == {} {
          UnmatchedLags(a, m, Q, id, Some(prior), None, listed);
          AddReaction(a, m, Q, next, listed);
        } else {
          UpdateReaction(a, m, Q, prior, next, listed);
        }
    }
  }

  lemma {:induction false} QueueLags(a: Artifacts, m: Mapping, Q: Pods, id: PodId, events: seq<Event>, first: Option<Pod>, listed: Option<Pod>)
    requires RulesSeparated(m) && id.namespace == m.key.namespace && Queue(events, id, first)
    requires Lags(a, m, Q, id, first, listed)
    ensures Lags(AfterAll(a, m, events), m, Q, id, Last(events, first), listed)
    decreases |events|
  {
    if events != [] {
      EventLags(a, m, Q, id, events[0], listed);
      QueueLags(AfterReaction(a, m, events[0]), m, Q, id, events[1..], Behind(events[0]), listed);
    }
  }

  function StateAt(P: Pods, id: PodId): Option<Pod> {
    if id in P then Some(P[id]) else None
  }

  lemma {:induction false} WantedWithPod(m: Mapping, P: Pods, id: PodId, t: Target)
    requires Of(StateAt(P, id), id)
    ensures WantedIps(m, P, t) == WantedIps(m, P - {id}, t) + Brings(m, StateAt(P, id), t)
  {
    if id in P {
      Rejoin(P, id);
      WantedIpsAdd(m, P - {id}, P[id], t);
    } else {
      assert P - {id} == P;
    }
  }

  /** A recompute lags behind no state of the pod yet to be replayed. */
  lemma {:induction false} RecomputeLags(a: Artifacts, m: Mapping, P: Pods, id: PodId, first: Option<Pod>)
    requires SetParity(a, m, P) && Of(StateAt(P, id), id)
    ensures Lags(a, m, P - {id}, id, first, StateAt(P, id))
  {
    var listed := StateAt(P, id);
    DeleteKeepsTracking(m, P, id);
    assert RulesAt(a, id) == RulesIn(m, listed);
    assert AddressAt(a, id) == AddressIn(m, listed);
    forall t ensures TargetLags(a, m, P - {id}, first, listed, t) {
      WantedWithPod(m, P, id, t);
    }
  }

  /** Once the queue has caught up with the listing, nothing lags. */
  lemma {:induction false} CaughtUp(a: Artifacts, m: Mapping, P: Pods, id: PodId)
    requires Of(StateAt(P, id), id) && Lags(a, m, P - {id}, id, StateAt(P, id), StateAt(P, id))
    ensures SetParity(a, m, P)
  {
    forall t ensures IpsAt(a.desired, t) == WantedIps(m, P, t) {
      assert TargetLags(a, m, P - {id}, StateAt(P, id), StateAt(P, id), t);
      WantedWithPod(m, P, id, t);
    }
    DeleteKeepsTracking(m, P, id);
    assert RulesAt(a, id) == RulesIn(m, StateAt(P, id));
    SameButOne(a.podRules, WantedPodRules(m, P), id);
    SameButOne(a.snapshot, WantedSnapshot(m, P), id);
  }

  lemma {:induction false} SameButOne<V>(a: map<PodId, V>, b: map<PodId, V>, id: PodId)
    requires a - {id} == b - {id} && (id in a <==> id in b) && (id in a ==> a[id] == b[id])
    ensures a == b
  {
    forall o | o in a ensures o in b && a[o] == b[o] {
      if o != id { assert o in a - {id} && (a - {id})[o] == (b - {id})[o]; }
    }
    forall o | o in b ensures o in a {
      if o != id { assert o in b - {id}; }
    }
  }

  /** Events of a pod that were still queued when a recompute already listed where they lead:
      however many, once the last is handled the prefixes, the snapshot and the tracked rules
      are those of the recompute. */
  lemma {:induction false} DrainedQueueRestores(a: Artifacts, m: Mapping, P: Pods, id: PodId, events: seq<Event>, first: Option<Pod>)
    requires RulesSeparated(m) && SetParity(a, m, P) && Of(StateAt(P, id), id) && id.namespace == m.key.namespace
    requires Queue(events, id, first) && Last(events, first) == StateAt(P, id)
    ensures SetParity(AfterAll(a, m, events), m, P)
  {
    RecomputeLags(a, m, P, id, first);
    QueueLags(a, m, P - {id}, id, events, first, StateAt(P, id));
    CaughtUp(AfterAll(a, m, events), m, P, id);
  }

  /** And at no point on the way has a target lost a prefix of another pod, or kept one that is
      neither another pod's nor the pod's own, listed or replayed. */
  lemma {:induction false} QueueOnlyDisturbsItsPod(a: Artifacts, m: Mapping, P: Pods, id: PodId, events: seq<Event>, first: Option<Pod>, t: Target)
    requires RulesSeparated(m) && SetParity(a, m, P) && Of(StateAt(P, id), id) && id.namespace == m.key.namespace
    requires Queue(events, id, first)
    ensures var ips := IpsAt(AfterAll(a, m, events).desired, t);
            && WantedIps(m, P - {id}, t) <= ips
            && ips <= WantedIps(m, P, t) + Brings(m, Last(events, first), t)
  {
    RecomputeLags(a, m, P, id, first);
    QueueLags(a, m, P - {id}, id, events, first, StateAt(P, id));
    assert TargetLags(AfterAll(a, m, events), m, P - {id}, Last(events, first), StateAt(P, id), t);
    WantedWithPod(m, P, id, t);
  }

  /** On the way there is something to see: with two address changes queued behind the listing,
      handling the first adds a prefix that the recompute does not have. */
  lemma {:induction false} QueuedUpdateDisturbs() returns (m: Mapping, P: Pods, events: seq<Event>, t: Target, stray: string)
    ensures RulesSeparated(m) && OneSpelling(m) && Keyed(P) && |events| == 2
    ensures exists id, first :: id in P && Queue(events, id, first) && Last(events, first) == StateAt(P, id)
    ensures stray !in WantedIps(m, P, t)
    ensures forall a :: SetParity(a, m, P) ==> stray in IpsAt(AfterReaction(a, m, events[0]).desired, t)
  {
    t := Target("asg", "asg");
    m := Mapping(Key("ns", "m"), "uid", 1, [Rule(MatchLabels(map[]), [Asg(t)])]);
    var id := PodId("ns", "p", "u");
    var one, two, three := Pod(id, map[], Some(Address("1", "1/32"))), Pod(id, map[], Some(Address("2", "2/32"))), Pod(id, map[], Some(Address("3", "3/32")));
    P := map[id := three];
    events := [Updated(one, two), Updated(two, three)];
    stray := "2/32";
    assert events[1..] == [Updated(two, three)] && events[1..][1..] == [];
    assert Queue([], id, Some(three)) && Queue(events[1..], id, Some(two));
    assert Last(events[1..], Some(two)) == Last([], Some(three));
    assert id in P && Queue(events, id, Some(one)) && Last(events, Some(one)) == StateAt(P, id);
    assert "1/32"[0] != "2/32"[0] && "2/32"[0] != "3/32"[0];
    assert Asg(t) in m.rules[0].refs;
    assert t in RuleTargets(m, 0) && AllTargets(m) <= {t};
    var u := ChangeOf(m, one, two);
    assert 0 in MatchSet(m, map[]);
    forall a | SetParity(a, m, P) ensures stray in IpsAt(AfterReaction(a, m, events[0]).desired, t) {
      assert AfterReaction(a, m, events[0]) == AfterUpdate(a, m, one, two);
      SettledAt(a, m, u, t);
      SettleOther(a, m, u, t, 1, stray);
      assert GainsAt(m, u, t, stray, 0);
    }
  }
}
