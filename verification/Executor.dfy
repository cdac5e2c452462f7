/** Running one action against Azure with conditional writes and recompute after a conflict,
    while anyone else may write in between. */
module Executor {
  import opened Model
  import opened DesiredState
  import opened Diff

  // ---------------------------------------------------------------- Azure and its other users

  datatype Version = Version(ips: set<string>, etag: nat)

  /** One change of a prefix set; `author` is the executor's action, `None` for another writer. */
  datatype Write = Write(key: string, before: Option<Version>, after: Option<Version>, author: Option<Action>)

  /** The prefix sets, the next entity tag, every change so far, and the number of requests served. */
  datatype Azure = Azure(sets: map<string, Version>, nextEtag: nat, log: seq<Write>, clock: nat)

  datatype Error = NotFound | PreconditionFailed | Failed(code: int) | Canceled

  /** What goes wrong with a request: nothing, an error before it took effect, or one after. */
  datatype Fault = NoFault | Before(error: Error) | After(error: Error)

  datatype External = External(key: string, ips: Option<set<string>>)

  /** What precedes and befalls one request: writes of others, a fault, whether a failed
      If-Match on a missing set is answered 404 rather than 412, and whether the ASG that would
      hold a missing set is itself gone, so that it cannot be written. */
  datatype Tick = Tick(writes: seq<External>, fault: Fault, missingIs404: bool, asgGone: bool)

  function TickAt(env: seq<Tick>, n: nat): Tick {
    if n < |env| then env[n] else Tick([], NoFault, false, false)
  }

  /** Faults are other than 404: a 404 is answered, by `Get` and `PutIf`, for a set that is not there. */
  ghost predicate Truthful(env: seq<Tick>) {
    forall tick :: tick in env ==> tick.fault == NoFault || tick.fault.error != NotFound
  }

  /** Every stored version has a tag older than the next one. */
  ghost predicate TagsOld(az: Azure) {
    forall key :: key in az.sets ==> az.sets[key].etag < az.nextEtag
  }

  function VersionAt(az: Azure, key: string): Option<Version> {
    if key in az.sets then Some(az.sets[key]) else None
  }

  /** Any write gets a fresh tag. */
  function Store(az: Azure, key: string, ips: Option<set<string>>, author: Option<Action>): Azure {
    var after := if ips.Some? then Some(Version(ips.value, az.nextEtag)) else None;
    az.(sets := if after.Some? then az.sets[key := after.value] else az.sets - {key},
        nextEtag := az.nextEtag + 1,
        log := az.log + [Write(key, VersionAt(az, key), after, author)])
  }

  function Interfere(az: Azure, writes: seq<External>): Azure
    decreases |writes|
  {
    if writes == [] then az
    else Store(Interfere(az, writes[..|writes| - 1]), writes[|writes| - 1].key, writes[|writes| - 1].ips, None)
  }

  /** The state a request finds. */
  function Arrive(env: seq<Tick>, az: Azure): Azure {
    Interfere(az.(clock := az.clock + 1), TickAt(env, az.clock).writes)
  }

  datatype Read = Read(az: Azure, found: Option<Version>, error: Option<Error>)
  datatype Done = Done(az: Azure, error: Option<Error>)

  function Get(env: seq<Tick>, az: Azure, key: string): Read {
    var here, fault := Arrive(env, az), TickAt(env, az.clock).fault;
    if fault != NoFault then Read(here, None, Some(fault.error))
    else if key in here.sets then Read(here, Some(here.sets[key]), None)
    else Read(here, None, Some(NotFound))
  }

  datatype Condition = IfMatch(etag: nat) | IfNoneMatch

  predicate Holds(az: Azure, key: string, c: Condition) {
    match c
    case IfMatch(etag) => key in az.sets && az.sets[key].etag == etag
    case IfNoneMatch => key !in az.sets
  }

  /** A conditional PUT. */
  function PutIf(env: seq<Tick>, az: Azure, key: string, ips: set<string>, c: Condition, author: Action): Done {
    var here, tick := Arrive(env, az), TickAt(env, az.clock);
    if tick.fault.Before? then Done(here, Some(tick.fault.error))
    else if key !in here.sets && tick.asgGone then Done(here, Some(NotFound))
    else if !Holds(here, key, c) then
      Done(here, Some(if key !in here.sets && tick.missingIs404 then NotFound else PreconditionFailed))
    else
      Done(Store(here, key, Some(ips), Some(author)), if tick.fault.After? then Some(tick.fault.error) else None)
  }

  /** DELETE; a set that is not there counts as deleted. */
  function DeleteSet(env: seq<Tick>, az: Azure, key: string, author: Action): Done {
    var here, fault := Arrive(env, az), TickAt(env, az.clock).fault;
    if fault.Before? then Done(here, Some(fault.error))
    else if key !in here.sets then Done(here, if fault.After? then Some(fault.error) else None)
    else Done(Store(here, key, None, Some(author)), if fault.After? then Some(fault.error) else None)
  }

  // ---------------------------------------------------------------- executing an action once

  /** Put reads first, and makes its write conditional on what it read. */
  function Put(env: seq<Tick>, az: Azure, a: Action): Done {
    var key, read := a.target.key, Get(env, az, a.target.key);
    if read.error == Some(NotFound) then PutIf(env, read.az, key, a.desired, IfNoneMatch, a)
    else if read.found.None? then Done(read.az, read.error)
    else PutIf(env, read.az, key, a.desired, IfMatch(read.found.value.etag), a)
  }

  /** A patch merges its delta into the version it read, conditional on that version. */
  function PatchSet(env: seq<Tick>, az: Azure, a: Action): Done {
    var read := Get(env, az, a.target.key);
    if read.found.None? then Done(read.az, read.error)
    else PutIf(env, read.az, a.target.key, PatchDelta(read.found.value.ips, a.add, a.remove), IfMatch(read.found.value.etag), a)
  }

  function ExecuteAction(env: seq<Tick>, az: Azure, a: Action): Done {
    match a.kind
    case Create => Put(env, az, a)
    case Update => Put(env, az, a)
    case Patch => PatchSet(env, az, a)
    case Delete => DeleteSet(env, az, a.target.key, a)
  }

  // ---------------------------------------------------------------- what writes mean

  /** A patch only adds what is desired and only removes what is not. */
  ghost predicate Towards(a: Action) {
    a.kind.Patch? ==> a.add <= a.desired && a.remove !! a.desired
  }

  /** `a` still serves the intent of `a0`. */
  ghost predicate SameIntent(a0: Action, a: Action) {
    a.target == a0.target && Towards(a) &&
    (a0.kind.Delete? ==> a.kind.Delete?) && (WantsAbsent(a0) ==> WantsAbsent(a)) &&
    (!a.kind.Delete? ==> a.desired == a0.desired) &&
    (a.kind.Delete? ==> a0.kind.Delete? || a0.desired == {})
  }

  /** The write does to the set exactly what its action says, relative to the very version it replaced. */
  ghost predicate Carries(w: Write, a: Action) {
    w.key == a.target.key &&
    match a.kind
    case Create => w.after.Some? && w.after.value.ips == a.desired
    case Update => w.after.Some? && w.after.value.ips == a.desired
    case Patch => w.before.Some? && w.after.Some? && w.after.value.ips == PatchDelta(w.before.value.ips, a.add, a.remove)
    case Delete => w.before.Some? && w.after.None?
  }

  /** Every write the executor made since `az0` carries an action of the same intent as `a0`. */
  ghost predicate OnlyIntended(az0: Azure, az: Azure, a0: Action) {
    az0.log <= az.log &&
    forall i :: |az0.log| <= i < |az.log| && az.log[i].author.Some? ==>
      SameIntent(a0, az.log[i].author.value) && Carries(az.log[i], az.log[i].author.value)
  }

  /** The action wants the set gone: a delete, or a patch towards nothing. */
  predicate WantsAbsent(a: Action) {
    a.kind.Delete? || (a.kind.Patch? && a.desired == {})
  }

  /** The set is already what the action is for. */
  ghost predicate Matches(az: Azure, a: Action) {
    if WantsAbsent(a) then a.target.key !in az.sets
    else a.target.key in az.sets && az.sets[a.target.key].ips == a.desired
  }

  /** The state right after a successful execution of `a`. */
  ghost predicate Installed(az: Azure, a: Action) {
    match a.kind
    case Delete => a.target.key !in az.sets
    case _ =>
      a.target.key in az.sets && |az.log| > 0 &&
      var w := az.log[|az.log| - 1];
      w.author == Some(a) && Carries(w, a) && w.after == Some(az.sets[a.target.key])
  }

  // ---------------------------------------------------------------- interference

  /** Others wrote, nobody else: tags stay old, our writes stay as they were, and a set whose
      tag is unchanged is unchanged. */
  lemma {:induction false} InterfereKeeps(az: Azure, writes: seq<External>)
    requires TagsOld(az)
    ensures var here := Interfere(az, writes);
            && TagsOld(here) && az.log <= here.log && az.nextEtag <= here.nextEtag && here.clock == az.clock
            && (forall i :: |az.log| <= i < |here.log| ==> here.log[i].author.None?)
            && (forall key :: key in here.sets ==> (key in az.sets && here.sets[key] == az.sets[key]) || here.sets[key].etag >= az.nextEtag)
    decreases |writes|
  {
    if writes != [] {
      InterfereKeeps(az, writes[..|writes| - 1]);
    }
  }

  /** What happens before a request is served. */
  lemma {:induction false} ArriveKeeps(env: seq<Tick>, az: Azure, az0: Azure, a0: Action)
    requires TagsOld(az) && OnlyIntended(az0, az, a0)
    ensures var here := Arrive(env, az);
            && TagsOld(here) && OnlyIntended(az0, here, a0)
            && (forall key :: key in here.sets ==> (key in az.sets && here.sets[key] == az.sets[key]) || here.sets[key].etag >= az.nextEtag)
  {
    InterfereKeeps(az.(clock := az.clock + 1), TickAt(env, az.clock).writes);
  }

  /** A write that carries an intended action. */
  lemma {:induction false} StoreKeeps(az: Azure, key: string, ips: Option<set<string>>, a: Action, az0: Azure, a0: Action)
    requires TagsOld(az) && OnlyIntended(az0, az, a0) && SameIntent(a0, a)
    requires var after := Store(az, key, ips, Some(a)); Carries(after.log[|az.log|], a)
    ensures var after := Store(az, key, ips, Some(a));
            && TagsOld(after) && OnlyIntended(az0, after, a0) && VersionAt(after, key) == after.log[|az.log|].after
  {
  }

  /** A conditional PUT that meets its condition on a version read before replaces that version. */
  lemma {:induction false} PutIfKeeps(env: seq<Tick>, az: Azure, ips: set<string>, c: Condition, a: Action, az0: Azure, a0: Action)
    requires Truthful(env) && TagsOld(az) && OnlyIntended(az0, az, a0) && SameIntent(a0, a) && !a.kind.Delete?
    requires c.IfMatch? ==> VersionAt(az, a.target.key).Some? && VersionAt(az, a.target.key).value.etag == c.etag
    requires if a.kind.Patch? then c.IfMatch? && ips == PatchDelta(VersionAt(az, a.target.key).value.ips, a.add, a.remove)
             else ips == a.desired
    ensures var r := PutIf(env, az, a.target.key, ips, c, a);
            && TagsOld(r.az) && OnlyIntended(az0, r.az, a0)
            && (r.error.None? ==> Installed(r.az, a))
            && (r.error == Some(NotFound) ==> a.target.key !in r.az.sets)
  {
    var here, key := Arrive(env, az), a.target.key;
    ArriveKeeps(env, az, az0, a0);
    if Holds(here, key, c) && !TickAt(env, az.clock).fault.Before? {
      assert c.IfMatch? ==> here.sets[key] == az.sets[key];
      StoreKeeps(here, key, Some(ips), a, az0, a0);
    }
  }

  lemma {:induction false} GetKeeps(env: seq<Tick>, az: Azure, key: string, az0: Azure, a0: Action)
    requires Truthful(env) && TagsOld(az) && OnlyIntended(az0, az, a0)
    ensures var r := Get(env, az, key);
            && TagsOld(r.az) && OnlyIntended(az0, r.az, a0)
            && (r.found.Some? ==> VersionAt(r.az, key) == r.found && r.error.None?)
            && (r.found.None? ==> r.error.Some?)
            && (r.error == Some(NotFound) ==> key !in r.az.sets)
  {
    ArriveKeeps(env, az, az0, a0);
  }

  /** One execution: only intended writes; success installs the action; a 404 means absence. */
  lemma {:induction false} ExecuteKeeps(env: seq<Tick>, az: Azure, a: Action, az0: Azure, a0: Action)
    requires Truthful(env) && TagsOld(az) && OnlyIntended(az0, az, a0) && SameIntent(a0, a)
    ensures var r := ExecuteAction(env, az, a);
            && TagsOld(r.az) && OnlyIntended(az0, r.az, a0)
            && (r.error.None? ==> Installed(r.az, a))
            && (r.error == Some(NotFound) ==> a.target.key !in r.az.sets)
  {
    if a.kind.Delete? {
      var here := Arrive(env, az);
      ArriveKeeps(env, az, az0, a0);
      if a.target.key in here.sets {
        StoreKeeps(here, a.target.key, None, a, az0, a0);
      }
    } else {
      var read := Get(env, az, a.target.key);
      GetKeeps(env, az, a.target.key, az0, a0);
      if read.found.Some? {
        var ips := if a.kind.Patch? then PatchDelta(read.found.value.ips, a.add, a.remove) else a.desired;
        PutIfKeeps(env, read.az, ips, IfMatch(read.found.value.etag), a, az0, a0);
      } else if read.error == Some(NotFound) && !a.kind.Patch? {
        PutIfKeeps(env, read.az, a.desired, IfNoneMatch, a, az0, a0);
      }
    }
  }

  // ---------------------------------------------------------------- presence

  /** Nobody else writes this set; requests may fail. */
  ghost predicate Unwritten(env: seq<Tick>, key: string) {
    forall tick :: tick in env ==> forall x :: x in tick.writes ==> x.key != key
  }

  /** An action with prefixes to install has not removed its set, a delete has not made one. */
  ghost predicate PresenceKept(az0: Azure, az: Azure, a0: Action) {
    if a0.kind.Delete? then a0.target.key in az.sets ==> a0.target.key in az0.sets
    else a0.desired != {} && a0.target.key in az0.sets ==> a0.target.key in az.sets
  }

  lemma {:induction false} InterfereElsewhere(az: Azure, writes: seq<External>, key: string)
    requires forall x :: x in writes ==> x.key != key
    ensures VersionAt(Interfere(az, writes), key) == VersionAt(az, key)
    decreases |writes|
  {
    if writes != [] {
      assert writes[|writes| - 1] in writes;
      InterfereElsewhere(az, writes[..|writes| - 1], key);
    }
  }

  lemma {:induction false} ArriveUnwritten(env: seq<Tick>, az: Azure, key: string)
    requires Unwritten(env, key)
    ensures VersionAt(Arrive(env, az), key) == VersionAt(az, key)
  {
    assert az.clock < |env| ==> env[az.clock] in env;
    InterfereElsewhere(az.(clock := az.clock + 1), TickAt(env, az.clock).writes, key);
  }

  lemma {:induction false} ExecuteKeepsPresence(env: seq<Tick>, az: Azure, a: Action, az0: Azure, a0: Action)
    requires Unwritten(env, a0.target.key) && SameIntent(a0, a) && PresenceKept(az0, az, a0)
    ensures PresenceKept(az0, ExecuteAction(env, az, a).az, a0)
  {
    ArriveUnwritten(env, az, a0.target.key);
    ArriveUnwritten(env, Arrive(env, az), a0.target.key);
  }

  lemma {:induction false} GetKeepsPresence(env: seq<Tick>, az: Azure, az0: Azure, a0: Action)
    requires Unwritten(env, a0.target.key) && PresenceKept(az0, az, a0)
    ensures PresenceKept(az0, Get(env, az, a0.target.key).az, a0)
  {
    ArriveUnwritten(env, az, a0.target.key);
  }

  // ---------------------------------------------------------------- recompute

  datatype Recomputed = NoOp | Next(action: Action) | Stopped(error: Error) | TooMany

  function SingleDesired(a: Action): Prefixes {
    if WantsAbsent(a) then map[] else map[a.target := a.desired]
  }

  function SingleActual(a: Action, found: Option<Version>): Prefixes {
    if found.Some? then map[a.target := found.value.ips] else map[]
  }

  /** The action a set in state `current` still needs, if any. */
  function Needed(a: Action, current: Option<Version>, percent: int): Option<Action> {
    if WantsAbsent(a) then
      if current.None? then None else Some(Action(Delete, a.target, {}, {}, {}))
    else if current.None? then Some(Action(Create, a.target, a.desired, {}, {}))
    else if current.value.ips == a.desired then None
    else
      var add, remove := a.desired - current.value.ips, current.value.ips - a.desired;
      if ShouldUsePatch(|add|, |remove|, |a.desired|, |current.value.ips|, percent)
      then Some(Action(Patch, a.target, a.desired, add, remove))
      else Some(Action(Update, a.target, a.desired, {}, {}))
  }

  function Recomputation(a: Action, found: Option<Version>, error: Option<Error>, percent: int): Recomputed {
    if error.Some? && error.value != NotFound then Stopped(error.value)
    else
      var needed := Needed(a, if error.Some? then None else found, percent);
      if needed.None? then NoOp else Next(needed.value)
  }

  /** Diffs the single target again. `found` is what the read returned, `error` its error; a
      404 counts as an absent set, any other error stops. The result is never `TooMany`. */
  method Recompute(a: Action, found: Option<Version>, error: Option<Error>, threshold: int) returns (r: Recomputed)
    ensures r == Recomputation(a, found, error, Clamp(threshold))
  {
    if error.Some? && error.value != NotFound {
      return Stopped(error.value);
    }
    var current := if error.Some? then None else found;
    var actions := ComputeDiff(SingleDesired(a), SingleActual(a, current), threshold);
    ghost var D, A :| Chooses(D, SingleDesired(a)) && Chooses(A, SingleActual(a, current)) && IsDiff(actions, D, A, Clamp(threshold));
    SingleDiff(a, current, actions, D, A, Clamp(threshold));
    if |actions| == 0 {
      return NoOp;
    }
    if |actions| > 1 {
      return TooMany;
    }
    return Next(actions[0]);
  }

  /** A diff of one target has at most one action, the needed one. */
  lemma {:induction false} SingleDiff(a: Action, found: Option<Version>, actions: seq<Action>, D: ByKey, A: ByKey, percent: int)
    requires Chooses(D, SingleDesired(a)) && Chooses(A, SingleActual(a, found)) && IsDiff(actions, D, A, percent)
    ensures actions == if Needed(a, found, percent).None? then [] else [Needed(a, found, percent).value]
  {
    var key := a.target.key;
    assert key in KeysOf({a.target});
    assert D.Keys <= {key} && A.Keys <= {key};
    assert |actions| > 1 ==> actions[0].target.key != actions[1].target.key;
    forall i | 0 <= i < |actions| ensures actions[i].target.key == key {
      assert actions[i] in actions;
    }
    if |actions| == 0 {
      assert !Differs(D, A, key);
    } else {
      assert actions[0] in actions;
      assert Correct(actions[0], D, A, percent);
    }
  }

  /** What is needed next serves the same intent. */
  lemma {:induction false} NeededKeepsIntent(a0: Action, a: Action, current: Option<Version>, percent: int)
    requires SameIntent(a0, a) && Needed(a, current, percent).Some?
    ensures SameIntent(a0, Needed(a, current, percent).value)
  {
  }

  // ---------------------------------------------------------------- the retry loop

  datatype Outcome = Outcome(error: Option<Error>, noOp: bool, finalKind: Kind)

  /** Success means: a no-op found the set already right at its last read; otherwise the last
      action was carried out on exactly the version it replaced. */
  ghost predicate Succeeded(az: Azure, out: Outcome, last: Action) {
    out.error.None? ==> out.finalKind == last.kind && if out.noOp then Matches(az, last) else Installed(az, last)
  }

  /** What holds of Azure at every point of the loop. */
  ghost predicate Sound(env: seq<Tick>, az0: Azure, az: Azure, a0: Action) {
    TagsOld(az) && OnlyIntended(az0, az, a0) && (Unwritten(env, a0.target.key) ==> PresenceKept(az0, az, a0))
  }

  lemma {:induction false} ExecuteSound(env: seq<Tick>, az: Azure, a: Action, az0: Azure, a0: Action)
    requires Truthful(env) && Sound(env, az0, az, a0) && SameIntent(a0, a)
    ensures var r := ExecuteAction(env, az, a);
            && Sound(env, az0, r.az, a0)
            && (r.error.None? ==> Installed(r.az, a))
            && (r.error == Some(NotFound) ==> a.target.key !in r.az.sets)
  {
    ExecuteKeeps(env, az, a, az0, a0);
    if Unwritten(env, a0.target.key) {
      ExecuteKeepsPresence(env, az, a, az0, a0);
    }
  }

  /** A read, and what a recompute from it means. */
  lemma {:induction false} GetSound(env: seq<Tick>, az: Azure, a: Action, az0: Azure, a0: Action, percent: int)
    requires Truthful(env) && Sound(env, az0, az, a0) && SameIntent(a0, a)
    ensures var r := Get(env, az, a.target.key);
            && Sound(env, az0, r.az, a0)
            && RecomputeMeans(r.az, a0, a, Recomputation(a, r.found, r.error, percent))
  {
    var r := Get(env, az, a.target.key);
    GetKeeps(env, az, a.target.key, az0, a0);
    if Unwritten(env, a0.target.key) {
      GetKeepsPresence(env, az, az0, a0);
    }
    MissingRecomputes(r.az, a0, a, percent);
    if r.found.Some? && Needed(a, r.found, percent).Some? {
      NeededKeepsIntent(a0, a, r.found, percent);
    }
  }

  /** A no-op finds the set right; a next action serves the same intent. */
  ghost predicate RecomputeMeans(az: Azure, a0: Action, a: Action, r: Recomputed) {
    match r
    case NoOp => Matches(az, a)
    case Next(next) => SameIntent(a0, next)
    case Stopped(_) => true
    case TooMany => false
  }

  lemma {:induction false} MissingRecomputes(az: Azure, a0: Action, a: Action, percent: int)
    requires SameIntent(a0, a)
    ensures a.target.key !in az.sets ==> RecomputeMeans(az, a0, a, Recomputation(a, None, Some(NotFound), percent))
  {
    if Needed(a, None, percent).Some? {
      NeededKeepsIntent(a0, a, None, percent);
    }
  }

  // ---------------------------------------------------------------- the history of the loop

  /** One execution within the loop: the state and action it started from and what came of it. */
  datatype Round = Round(az: Azure, action: Action, after: Azure, error: Option<Error>)

  ghost predicate Executed(env: seq<Tick>, r: Round) {
    Done(r.after, r.error) == ExecuteAction(env, r.az, r.action)
  }

  /** A patch found no set to patch. */
  predicate NothingToPatch(action: Action, error: Option<Error>) {
    action.kind.Patch? && error == Some(NotFound)
  }

  /** The execution met a conflict that calls for another one. */
  ghost predicate Conflicted(r: Round) {
    r.error == Some(PreconditionFailed) || NothingToPatch(r.action, r.error)
  }

  /** What is recomputed after a conflict, and the state it leaves: a patch without a set is
      recomputed against absence, anything else against a fresh read. */
  ghost function Reconsidered(env: seq<Tick>, r: Round, percent: int): (Azure, Recomputed) {
    if NothingToPatch(r.action, r.error) then (r.after, Recomputation(r.action, None, Some(NotFound), percent))
    else
      var read := Get(env, r.after, r.action.target.key);
      (read.az, Recomputation(r.action, read.found, read.error, percent))
  }

  /** After the conflict of round `r` the next one starts in `az` with `action`. */
  ghost predicate Leads(env: seq<Tick>, r: Round, az: Azure, action: Action, percent: int) {
    Conflicted(r) && Reconsidered(env, r, percent) == (az, Next(action))
  }

  function LastRound(rounds: seq<Round>): Round
    requires rounds != []
  {
    rounds[|rounds| - 1]
  }

  /** The rounds so far lead to a next one that starts in `az` with `action`. */
  ghost predicate Ready(env: seq<Tick>, az0: Azure, a0: Action, rounds: seq<Round>, az: Azure, action: Action, percent: int)
    decreases |rounds|, 1
  {
    History(env, az0, a0, rounds, percent) &&
    if rounds == [] then az == az0 && action == a0 else Leads(env, LastRound(rounds), az, action, percent)
  }

  /** The rounds so far: the first carries out `a0`, each later one what was recomputed after the
      conflict of the one before. */
  ghost predicate History(env: seq<Tick>, az0: Azure, a0: Action, rounds: seq<Round>, percent: int)
    decreases |rounds|, 0
  {
    rounds == [] ||
    var r := LastRound(rounds);
    Executed(env, r) && Ready(env, az0, a0, rounds[..|rounds| - 1], r.az, r.action, percent)
  }

  lemma {:induction false} HistoryGrows(env: seq<Tick>, az0: Azure, a0: Action, rounds: seq<Round>, r: Round, percent: int)
    requires Ready(env, az0, a0, rounds, r.az, r.action, percent) && Executed(env, r)
    ensures History(env, az0, a0, rounds + [r], percent)
  {
    assert (rounds + [r])[..|rounds|] == rounds;
  }

  /** The only ways to fail: cancelled; an error that is no conflict; a conflict in the last round
      allowed; or a read after a conflict that failed. */
  ghost predicate GaveUp(env: seq<Tick>, rounds: seq<Round>, az: Azure, e: Error, maxRetries: nat, cancelAt: nat) {
    (e == Canceled && az.clock >= cancelAt) ||
    (rounds != [] &&
     var r := LastRound(rounds);
     || (r.error == Some(e) && (Conflicted(r) ==> |rounds| == maxRetries))
     || (r.error == Some(PreconditionFailed) && |rounds| < maxRetries && e != NotFound &&
         Get(env, r.after, r.action.target.key).error == Some(e)))
  }

  /** The set is as `a0` wants it: gone, or with exactly the desired prefixes. */
  ghost predicate Settled(az: Azure, a0: Action) {
    var key := a0.target.key;
    if a0.kind.Delete? || (a0.kind.Patch? && a0.desired == {}) then key !in az.sets
    else (if key in az.sets then az.sets[key].ips else {}) == a0.desired
  }

  /** From the `n`-th request on, nobody else writes this set. */
  ghost predicate UnwrittenSince(env: seq<Tick>, key: string, n: nat) {
    forall i :: n <= i < |env| ==> forall x :: x in env[i].writes ==> x.key != key
  }

  lemma {:induction false} ArriveUnwrittenSince(env: seq<Tick>, az: Azure, key: string, n: nat)
    requires UnwrittenSince(env, key, n) && n <= az.clock && TagsOld(az)
    ensures VersionAt(Arrive(env, az), key) == VersionAt(az, key)
    ensures Arrive(env, az).clock == az.clock + 1 && TagsOld(Arrive(env, az))
  {
    var ahead := az.(clock := az.clock + 1);
    InterfereElsewhere(ahead, TickAt(env, az.clock).writes, key);
    InterfereKeeps(ahead, TickAt(env, az.clock).writes);
  }

  /** A no-op, found right at its read, settles what `a0` wants. */
  lemma {:induction false} MatchingSettles(az: Azure, a0: Action, a: Action)
    requires SameIntent(a0, a) && Matches(az, a)
    ensures Settled(az, a0)
  {
  }

  /** A patch recomputed from the version it then finds installs exactly the desired set. */
  lemma {:induction false} RecomputedPatchInstalls(env: seq<Tick>, az: Azure, a: Action, found: Option<Version>, percent: int, n: nat)
    requires UnwrittenSince(env, a.target.key, n) && n <= az.clock && TagsOld(az)
    requires VersionAt(az, a.target.key) == found && Needed(a, found, percent).Some? && Needed(a, found, percent).value.kind.Patch?
    ensures var next := Needed(a, found, percent).value; var r := ExecuteAction(env, az, next);
            r.error.None? ==> a.target.key in r.az.sets && r.az.sets[a.target.key].ips == a.desired
  {
    var next, key := Needed(a, found, percent).value, a.target.key;
    ArriveUnwrittenSince(env, az, key, n);
    ArriveUnwrittenSince(env, Arrive(env, az), key, n);
    assert PatchDelta(found.value.ips, next.add, next.remove) == a.desired;
  }

  /** Any other action that succeeds leaves what it says, whatever it found. */
  lemma {:induction false} WholeActionInstalls(env: seq<Tick>, az: Azure, a: Action)
    requires ExecuteAction(env, az, a).error.None? && !a.kind.Patch?
    ensures var after := ExecuteAction(env, az, a).az;
            if a.kind.Delete? then a.target.key !in after.sets
            else a.target.key in after.sets && after.sets[a.target.key].ips == a.desired
  {
  }

  /** An execution that succeeds after a conflict settles the set, if nobody else wrote it since
      that conflict: the action in force was recomputed from what is there. */
  lemma {:induction false} RetrySettles(env: seq<Tick>, before: Round, r: Round, a0: Action, percent: int)
    requires Truthful(env) && TagsOld(before.after) && SameIntent(a0, before.action)
    requires Reconsidered(env, before, percent) == (r.az, Next(r.action)) && Executed(env, r) && r.error.None?
    requires UnwrittenSince(env, a0.target.key, before.after.clock)
    ensures Settled(r.after, a0)
  {
    var a, key := before.action, a0.target.key;
    if NothingToPatch(a, before.error) {
      NeededKeepsIntent(a0, a, None, percent);
      WholeActionInstalls(env, r.az, r.action);
    } else {
      var read := Get(env, before.after, key);
      var found := if read.error.Some? then None else read.found;
      ArriveUnwrittenSince(env, before.after, key, before.after.clock);
      NeededKeepsIntent(a0, a, found, percent);
      if r.action.kind.Patch? {
        RecomputedPatchInstalls(env, r.az, a, found, percent, before.after.clock);
      } else {
        WholeActionInstalls(env, r.az, r.action);
      }
    }
  }

  /** What a successful outcome says of the set: a no-op left it settled; a retry settles it if
      nobody else wrote it since the conflict before. */
  ghost predicate SettledBy(env: seq<Tick>, az: Azure, a0: Action, rounds: seq<Round>, out: Outcome) {
    (out.noOp ==> Settled(az, a0)) &&
    (out.error.None? && |rounds| >= 2 && UnwrittenSince(env, a0.target.key, rounds[|rounds| - 2].after.clock) ==> Settled(az, a0))
  }

  /** The next action after a conflict, from a fresh read unless a patch found no set. */
  method Reconsider(env: seq<Tick>, az0: Azure, action: Action, error: Option<Error>, threshold: int, ghost r: Round)
    returns (az: Azure, next: Recomputed)
    requires r.after == az0 && r.action == action && r.error == error
    ensures (az, next) == Reconsidered(env, r, Clamp(threshold))
  {
    if NothingToPatch(action, error) {
      az := az0;
      next := Recompute(action, None, Some(NotFound), threshold);
    } else {
      var read := Get(env, az0, action.target.key);
      az := read.az;
      next := Recompute(action, read.found, read.error, threshold);
    }
  }

  /** What a recompute after a conflict means. */
  lemma {:induction false} ReconsideredSound(env: seq<Tick>, r: Round, az0: Azure, a0: Action, percent: int)
    requires Truthful(env) && Sound(env, az0, r.after, a0) && SameIntent(a0, r.action)
    requires r.error == Some(NotFound) ==> r.action.target.key !in r.after.sets
    ensures var (az, next) := Reconsidered(env, r, percent);
            Sound(env, az0, az, a0) && RecomputeMeans(az, a0, r.action, next)
  {
    if NothingToPatch(r.action, r.error) {
      MissingRecomputes(r.after, a0, r.action, percent);
    } else {
      GetSound(env, r.after, r.action, az0, a0, percent);
    }
  }

  /** No round started after the context was done. */
  ghost predicate InTime(rounds: seq<Round>, cancelAt: nat) {
    forall r :: r in rounds ==> r.az.clock < cancelAt
  }

  lemma {:induction false} InTimeGrows(rounds: seq<Round>, r: Round, cancelAt: nat)
    requires InTime(rounds, cancelAt) && r.az.clock < cancelAt
    ensures InTime(rounds + [r], cancelAt)
  {
  }

  /** What holds when a round is about to start. */
  ghost predicate MayExecute(env: seq<Tick>, az0: Azure, a0: Action, rounds: seq<Round>, az: Azure, action: Action, percent: int) {
    Sound(env, az0, az, a0) && SameIntent(a0, action) && Ready(env, az0, a0, rounds, az, action, percent) &&
    (rounds != [] ==> TagsOld(LastRound(rounds).after) && SameIntent(a0, LastRound(rounds).action))
  }

  /** What holds when a round is over. */
  ghost predicate HasExecuted(env: seq<Tick>, az0: Azure, a0: Action, rounds: seq<Round>, percent: int) {
    rounds != [] && History(env, az0, a0, rounds, percent) &&
    var r := LastRound(rounds);
    Sound(env, az0, r.after, a0) && SameIntent(a0, r.action) && (r.error == Some(NotFound) ==> r.action.target.key !in r.after.sets)
  }

  lemma {:induction false} RoundExecutes(env: seq<Tick>, az0: Azure, a0: Action, rounds: seq<Round>, r: Round, percent: int)
    requires Truthful(env) && MayExecute(env, az0, a0, rounds, r.az, r.action, percent) && Executed(env, r)
    ensures HasExecuted(env, az0, a0, rounds + [r], percent)
    ensures r.error.None? ==> Installed(r.after, r.action) && SettledBy(env, r.after, a0, rounds + [r], Outcome(None, false, r.action.kind))
  {
    ExecuteSound(env, r.az, r.action, az0, a0);
    HistoryGrows(env, az0, a0, rounds, r, percent);
    if rounds != [] && r.error.None? && UnwrittenSince(env, a0.target.key, LastRound(rounds).after.clock) {
      RetrySettles(env, LastRound(rounds), r, a0, percent);
    }
  }

  lemma {:induction false} RoundReconsiders(env: seq<Tick>, az0: Azure, a0: Action, rounds: seq<Round>, percent: int)
    requires Truthful(env) && HasExecuted(env, az0, a0, rounds, percent) && Conflicted(LastRound(rounds))
    ensures var (az, next) := Reconsidered(env, LastRound(rounds), percent);
            && Sound(env, az0, az, a0) && !next.TooMany?
            && (next.NoOp? ==> Matches(az, LastRound(rounds).action) && Settled(az, a0))
            && (next.Next? ==> MayExecute(env, az0, a0, rounds, az, next.action, percent))
            && (next.Stopped? ==> next.error != NotFound && !NothingToPatch(LastRound(rounds).action, LastRound(rounds).error) &&
                                  Get(env, LastRound(rounds).after, LastRound(rounds).action.target.key).error == Some(next.error))
  {
    var r := LastRound(rounds);
    var (az, next) := Reconsidered(env, r, percent);
    ReconsideredSound(env, r, az0, a0, percent);
    if next.NoOp? {
      MatchingSettles(az, a0, r.action);
    }
  }

  /** What the loop promises of its outcome, its writes and its rounds. */
  ghost predicate Reports(env: seq<Tick>, az0: Azure, a0: Action, rounds: seq<Round>, az: Azure, out: Outcome, last: Action,
                          maxRetries: nat, cancelAt: nat, percent: int) {
    // At most `maxRetries` rounds, none after the context was done, each following from the one before.
    && |rounds| <= maxRetries && InTime(rounds, cancelAt) && History(env, az0, a0, rounds, percent)
    && (rounds == [] ==> out.error == Some(Canceled) && az == az0 && az0.clock >= cancelAt)
    // Every write serves the intent of `a0`, and so does the action in force at the end.
    && Sound(env, az0, az, a0) && SameIntent(a0, last)
    // Success: the last round succeeded, or a read found the set right; failure only for a reason.
    && Succeeded(az, out, last) && SettledBy(env, az, a0, rounds, out)
    && (out.error.None? && !out.noOp <==> rounds != [] && LastRound(rounds).error.None?)
    && (rounds != [] && LastRound(rounds).error.None? ==> az == LastRound(rounds).after && out.finalKind == LastRound(rounds).action.kind)
    && (out.error.Some? ==> GaveUp(env, rounds, az, out.error.value, maxRetries, cancelAt))
    && (out.noOp ==> out.error.None?)
  }

  /** Failing reports: `e` is a reason to give up. */
  lemma {:induction false} FailureReports(env: seq<Tick>, az0: Azure, a0: Action, rounds: seq<Round>, az: Azure, e: Error, kind: Kind, last: Action,
                                          maxRetries: nat, cancelAt: nat, percent: int)
    requires |rounds| <= maxRetries && InTime(rounds, cancelAt) && History(env, az0, a0, rounds, percent)
    requires rounds == [] ==> e == Canceled && az == az0 && az0.clock >= cancelAt
    requires rounds != [] ==> LastRound(rounds).error.Some?
    requires Sound(env, az0, az, a0) && SameIntent(a0, last) && GaveUp(env, rounds, az, e, maxRetries, cancelAt)
    ensures Reports(env, az0, a0, rounds, az, Outcome(Some(e), false, kind), last, maxRetries, cancelAt, percent)
  {
  }

  lemma {:induction false} NoOpReports(env: seq<Tick>, az0: Azure, a0: Action, rounds: seq<Round>, az: Azure, last: Action,
                                       maxRetries: nat, cancelAt: nat, percent: int)
    requires 0 < |rounds| <= maxRetries && InTime(rounds, cancelAt) && History(env, az0, a0, rounds, percent)
    requires LastRound(rounds).error.Some? && Sound(env, az0, az, a0) && SameIntent(a0, last) && Matches(az, last) && Settled(az, a0)
    ensures Reports(env, az0, a0, rounds, az, Outcome(None, true, last.kind), last, maxRetries, cancelAt, percent)
  {
  }

  lemma {:induction false} SuccessReports(env: seq<Tick>, az0: Azure, a0: Action, rounds: seq<Round>, maxRetries: nat, cancelAt: nat, percent: int)
    requires |rounds| <= maxRetries && InTime(rounds, cancelAt) && HasExecuted(env, az0, a0, rounds, percent)
    requires var r := LastRound(rounds);
             r.error.None? && Installed(r.after, r.action) && SettledBy(env, r.after, a0, rounds, Outcome(None, false, r.action.kind))
    ensures var r := LastRound(rounds);
            Reports(env, az0, a0, rounds, r.after, Outcome(None, false, r.action.kind), r.action, maxRetries, cancelAt, percent)
  {
  }

  /** `executeWithETagRetry`. `cancelAt` is the request count from which the context is done;
      `rounds` records the executions and `last` is the action in force at the end. */
  method ExecuteWithETagRetry(env: seq<Tick>, az0: Azure, a0: Action, maxRetries: nat, threshold: int, cancelAt: nat)
    returns (az: Azure, out: Outcome, ghost rounds: seq<Round>, ghost last: Action)
    requires Truthful(env) && TagsOld(az0) && Towards(a0) && maxRetries >= 1
    ensures Reports(env, az0, a0, rounds, az, out, last, maxRetries, cancelAt, Clamp(threshold))
    ensures TagsOld(az) && OnlyIntended(az0, az, a0) && (Unwritten(env, a0.target.key) ==> PresenceKept(az0, az, a0))
    ensures out.noOp ==> out.error.None? && Settled(az, a0)
    ensures az0.clock >= cancelAt ==> az == az0 && out.error == Some(Canceled)
    ensures az0.clock < cancelAt && ExecuteAction(env, az0, a0).error.None? ==>
              az == ExecuteAction(env, az0, a0).az && out == Outcome(None, false, a0.kind)
  {
    az, out, rounds, last := RetryLoop(env, az0, a0, maxRetries, threshold, cancelAt);
    ReportsMean(env, az0, a0, rounds, az, out, last, maxRetries, cancelAt, Clamp(threshold));
  }

  lemma {:induction false} ReportsMean(env: seq<Tick>, az0: Azure, a0: Action, rounds: seq<Round>, az: Azure, out: Outcome, last: Action,
                                       maxRetries: nat, cancelAt: nat, percent: int)
    requires Reports(env, az0, a0, rounds, az, out, last, maxRetries, cancelAt, percent)
    ensures Sound(env, az0, az, a0)
    ensures out.noOp ==> out.error.None? && Settled(az, a0)
    ensures az0.clock >= cancelAt ==> az == az0 && out.error == Some(Canceled)
    ensures az0.clock < cancelAt && ExecuteAction(env, az0, a0).error.None? ==>
              az == ExecuteAction(env, az0, a0).az && out == Outcome(None, false, a0.kind)
  {
    if rounds != [] {
      HistoryStarts(env, az0, a0, rounds, percent);
      assert rounds[0] in rounds;
      if ExecuteAction(env, az0, a0).error.None? {
        FirstSuccessIsFinal(env, az0, a0, rounds, percent);
      }
    }
  }

  lemma {:induction false} HistoryStarts(env: seq<Tick>, az0: Azure, a0: Action, rounds: seq<Round>, percent: int)
    requires rounds != [] && History(env, az0, a0, rounds, percent)
    ensures rounds[0].az == az0 && rounds[0].action == a0
    decreases |rounds|
  {
    var front, r := rounds[..|rounds| - 1], LastRound(rounds);
    assert Ready(env, az0, a0, front, r.az, r.action, percent);
    if front != [] {
      HistoryStarts(env, az0, a0, front, percent);
    }
  }

  /** The loop itself. */
  method RetryLoop(env: seq<Tick>, az0: Azure, a0: Action, maxRetries: nat, threshold: int, cancelAt: nat)
    returns (az: Azure, out: Outcome, ghost rounds: seq<Round>, ghost last: Action)
    requires Truthful(env) && TagsOld(az0) && Towards(a0) && maxRetries >= 1
    ensures Reports(env, az0, a0, rounds, az, out, last, maxRetries, cancelAt, Clamp(threshold))
  {
    ghost var percent := Clamp(threshold);
    az, last, rounds := az0, a0, [];
    var action, finalKind := a0, a0.kind;
    var error := Canceled;
    var attempt := 1;
    while attempt <= maxRetries
      invariant 1 <= attempt <= maxRetries + 1 && |rounds| == attempt - 1
      invariant MayExecute(env, az0, a0, rounds, az, action, percent)
      invariant last == action && finalKind == action.kind && InTime(rounds, cancelAt)
      invariant rounds == [] ==> az == az0
      invariant rounds != [] ==> LastRound(rounds).error == Some(error)
    {
      if az.clock >= cancelAt {
        FailureReports(env, az0, a0, rounds, az, Canceled, finalKind, last, maxRetries, cancelAt, percent);
        return az, Outcome(Some(Canceled), false, finalKind), rounds, last;
      }
      var done := ExecuteAction(env, az, action);
      ghost var r := Round(az, action, done.az, done.error);
      RoundExecutes(env, az0, a0, rounds, r, percent);
      InTimeGrows(rounds, r, cancelAt);
      az, rounds := done.az, rounds + [r];
      if done.error.None? {
        SuccessReports(env, az0, a0, rounds, maxRetries, cancelAt, percent);
        return az, Outcome(None, false, finalKind), rounds, last;
      }
      error := done.error.value;
      if !NothingToPatch(action, done.error) {
        if error != PreconditionFailed {
          FailureReports(env, az0, a0, rounds, az, error, finalKind, last, maxRetries, cancelAt, percent);
          return az, Outcome(Some(error), false, finalKind), rounds, last;
        }
        if attempt == maxRetries {
          break;
        }
        if az.clock >= cancelAt {
          FailureReports(env, az0, a0, rounds, az, Canceled, finalKind, last, maxRetries, cancelAt, percent);
          return az, Outcome(Some(Canceled), false, finalKind), rounds, last;
        }
      }
      RoundReconsiders(env, az0, a0, rounds, percent);
      var next;
      az, next := Reconsider(env, az, action, done.error, threshold, r);
      match next {
        case Stopped(e) =>
          FailureReports(env, az0, a0, rounds, az, e, finalKind, last, maxRetries, cancelAt, percent);
          return az, Outcome(Some(e), false, finalKind), rounds, last;
        case TooMany => assert false;
        case NoOp =>
          NoOpReports(env, az0, a0, rounds, az, last, maxRetries, cancelAt, percent);
          return az, Outcome(None, true, finalKind), rounds, last;
        case Next(a) =>
          action, finalKind, last := a, a.kind, a;
      }
      attempt := attempt + 1;
    }
    out := Outcome(Some(error), false, finalKind);
    FailureReports(env, az0, a0, rounds, az, error, finalKind, last, maxRetries, cancelAt, percent);
  }

  // ---------------------------------------------------------------- consequences

  /** A first execution that succeeds is the only one. */
  lemma {:induction false} FirstSuccessIsFinal(env: seq<Tick>, az0: Azure, a0: Action, rounds: seq<Round>, percent: int)
    requires History(env, az0, a0, rounds, percent) && rounds != [] && ExecuteAction(env, az0, a0).error.None?
    ensures rounds == [Round(az0, a0, ExecuteAction(env, az0, a0).az, None)]
    decreases |rounds|
  {
    var front, r := rounds[..|rounds| - 1], LastRound(rounds);
    assert Executed(env, r);
    assert rounds == front + [r];
    if front != [] {
      FirstSuccessIsFinal(env, az0, a0, front, percent);
      assert false;
    }
  }

  /** Every round of a history is sound and serves the intent. */
  lemma {:induction false} HistorySound(env: seq<Tick>, az0: Azure, a0: Action, rounds: seq<Round>, percent: int)
    requires Truthful(env) && TagsOld(az0) && Towards(a0) && rounds != [] && History(env, az0, a0, rounds, percent)
    ensures HasExecuted(env, az0, a0, rounds, percent)
    decreases |rounds|
  {
    var front, r := rounds[..|rounds| - 1], LastRound(rounds);
    if front != [] {
      HistorySound(env, az0, a0, front, percent);
      RoundReconsiders(env, az0, a0, front, percent);
    }
    RoundExecutes(env, az0, a0, front, r, percent);
    assert rounds == front + [r];
  }

  /** From the `n`-th request on, no request fails, no ASG is gone and nobody else writes this set. */
  ghost predicate UndisturbedSince(env: seq<Tick>, key: string, n: nat) {
    UnwrittenSince(env, key, n) && forall i :: n <= i < |env| ==> env[i].fault == NoFault && !env[i].asgGone
  }

  /** The action recomputed after a conflict succeeds when nothing disturbs it any more. */
  lemma {:induction false} QuietRetrySucceeds(env: seq<Tick>, before: Round, r: Round, a0: Action, percent: int)
    requires Truthful(env) && TagsOld(before.after) && SameIntent(a0, before.action)
    requires Reconsidered(env, before, percent) == (r.az, Next(r.action)) && Executed(env, r)
    requires UndisturbedSince(env, a0.target.key, before.after.clock)
    ensures r.error.None?
  {
    var key, n := a0.target.key, before.after.clock;
    ArriveUnwrittenSince(env, before.after, key, n);
    ArriveUnwrittenSince(env, r.az, key, n);
    ArriveUnwrittenSince(env, Arrive(env, r.az), key, n);
  }

  /** Progress: once a conflict has been met, and nothing disturbs the set after it, the next
      round succeeds, or the read already finds the set settled; the loop cannot give up before
      its last round. */
  lemma {:induction false} QuietConflictIsResolved(env: seq<Tick>, az0: Azure, a0: Action, rounds: seq<Round>, az: Azure, out: Outcome, last: Action,
                                                   maxRetries: nat, cancelAt: nat, percent: int)
    requires Truthful(env) && TagsOld(az0) && Towards(a0) && rounds != [] && az.clock < cancelAt
    requires Reports(env, az0, a0, rounds, az, out, last, maxRetries, cancelAt, percent)
    ensures |rounds| >= 2 && UndisturbedSince(env, a0.target.key, rounds[|rounds| - 2].after.clock) ==> out.error.None? && Settled(az, a0)
    ensures var r := LastRound(rounds);
            (r.error == Some(PreconditionFailed) || (r.action.kind.Patch? && r.error == Some(NotFound))) &&
            |rounds| < maxRetries && UndisturbedSince(env, a0.target.key, r.after.clock) ==>
              out.noOp && out.error.None? && Settled(az, a0)
  {
    var key := a0.target.key;
    assert History(env, az0, a0, rounds, percent);
    HistorySound(env, az0, a0, rounds, percent);
    if |rounds| >= 2 && UndisturbedSince(env, key, rounds[|rounds| - 2].after.clock) {
      var front := rounds[..|rounds| - 1];
      assert Ready(env, az0, a0, front, LastRound(rounds).az, LastRound(rounds).action, percent);
      HistorySound(env, az0, a0, front, percent);
      QuietRetrySucceeds(env, LastRound(front), LastRound(rounds), a0, percent);
    } else if UndisturbedSince(env, key, LastRound(rounds).after.clock) {
      ArriveUnwrittenSince(env, LastRound(rounds).after, key, LastRound(rounds).after.clock);
    }
  }

  /** A conditional write replaces the version, or the absence, its condition speaks of. */
  lemma {:induction false} PutIfReplaces(env: seq<Tick>, az: Azure, key: string, ips: set<string>, c: Condition, a: Action)
    requires TagsOld(az) && (if c.IfMatch? then key in az.sets && az.sets[key].etag == c.etag else key !in az.sets)
    ensures var after := PutIf(env, az, key, ips, c, a).az;
            az.log <= after.log &&
            forall i :: |az.log| <= i < |after.log| && after.log[i].author.Some? ==> after.log[i].before == VersionAt(az, key)
  {
    var here := Arrive(env, az);
    InterfereKeeps(az.(clock := az.clock + 1), TickAt(env, az.clock).writes);
    assert Holds(here, key, c) ==> VersionAt(here, key) == VersionAt(az, key);
  }

  /** No lost update: what a create, update or patch writes replaces exactly the version, or the
      absence, that the same execution read. */
  lemma {:induction false} NoLostUpdate(env: seq<Tick>, az: Azure, a: Action, i: nat)
    requires Truthful(env) && TagsOld(az) && !a.kind.Delete?
    requires var after := ExecuteAction(env, az, a).az; |az.log| <= i < |after.log| && after.log[i].author.Some?
    ensures ExecuteAction(env, az, a).az.log[i].before == VersionAt(Get(env, az, a.target.key).az, a.target.key)
  {
    var read, key := Get(env, az, a.target.key), a.target.key;
    InterfereKeeps(az.(clock := az.clock + 1), TickAt(env, az.clock).writes);
    if read.found.Some? {
      var ips := if a.kind.Patch? then PatchDelta(read.found.value.ips, a.add, a.remove) else a.desired;
      PutIfReplaces(env, read.az, key, ips, IfMatch(read.found.value.etag), a);
    } else if read.error == Some(NotFound) && !a.kind.Patch? {
      PutIfReplaces(env, read.az, key, a.desired, IfNoneMatch, a);
    }
  }

  /** Every action of a diff may be executed: a patch only moves towards the desired set. */
  lemma {:induction false} DiffMovesTowards(actions: seq<Action>, D: ByKey, A: ByKey, percent: int)
    requires IsDiff(actions, D, A, percent)
    ensures forall a :: a in actions ==> Towards(a) && SameIntent(a, a)
  {
    forall a | a in actions ensures Towards(a) {
      assert Correct(a, D, A, percent);
    }
  }

  /** No write of the executor strays: a delete never stores anything, an action with prefixes
      to install never removes the set, and whatever a write adds is desired and whatever it
      removes is not. */
  lemma {:induction false} IntentKept(az0: Azure, az: Azure, a0: Action, i: nat)
    requires OnlyIntended(az0, az, a0) && |az0.log| <= i < |az.log| && az.log[i].author.Some?
    ensures az.log[i].key == a0.target.key
    ensures a0.kind.Delete? ==> az.log[i].after.None?
    ensures !a0.kind.Delete? && a0.desired != {} ==> az.log[i].after.Some?
    ensures az.log[i].before.Some? && az.log[i].after.Some? ==>
              var before, after := az.log[i].before.value.ips, az.log[i].after.value.ips;
              after - before <= a0.desired && (before - after) !! a0.desired
  {
    var w := az.log[i];
    assert SameIntent(a0, w.author.value) && Carries(w, w.author.value);
  }

  /** The prefixes of every set, without tags. */
  function View(az: Azure): Contents {
    map key | key in az.sets :: az.sets[key].ips
  }

  /** No request fails, no ASG is gone and nobody else writes this set. */
  ghost predicate Undisturbed(env: seq<Tick>, key: string) {
    forall tick :: tick in env ==> tick.fault == NoFault && !tick.asgGone && forall x :: x in tick.writes ==> x.key != key
  }

  lemma {:induction false} ArriveUndisturbed(env: seq<Tick>, az: Azure, key: string)
    requires Undisturbed(env, key)
    ensures VersionAt(Arrive(env, az), key) == VersionAt(az, key) && TickAt(env, az.clock).fault == NoFault && !TickAt(env, az.clock).asgGone
  {
    assert az.clock < |env| ==> env[az.clock] in env;
    ArriveUnwritten(env, az, key);
  }

  /** While others only write other sets, executing an action does to its set what the diff
      assumes, whatever the interleaving. */
  lemma {:induction false} UndisturbedExecution(env: seq<Tick>, az: Azure, a: Action)
    requires Undisturbed(env, a.target.key) && (a.kind.Patch? ==> a.target.key in az.sets)
    ensures ExecuteAction(env, az, a).error.None?
    ensures IpsOr(View(ExecuteAction(env, az, a).az), a.target.key) == IpsOr(ApplyAction(View(az), a), a.target.key)
  {
    ArriveUndisturbed(env, az, a.target.key);
    ArriveUndisturbed(env, Arrive(env, az), a.target.key);
  }

  /** Executed so, an action of a diff leaves its set exactly as desired. */
  lemma {:induction false} UndisturbedActionConverges(env: seq<Tick>, az: Azure, a: Action, D: ByKey, A: ByKey, percent: int)
    requires Undisturbed(env, a.target.key) && Correct(a, D, A, percent)
    requires IpsOr(View(az), a.target.key) == IpsOr(Ips(A), a.target.key)
    ensures ExecuteAction(env, az, a).error.None?
    ensures IpsOr(View(ExecuteAction(env, az, a).az), a.target.key) == IpsOr(Ips(D), a.target.key)
  {
    var key := a.target.key;
    if a.kind.Patch? {
      assert PatchDelta(A[key].ips, a.add, a.remove) == D[key].ips;
    }
    UndisturbedExecution(env, az, a);
  }
}
