/** The write-ahead ownership annotation and the cleanup finalizer: no prefix set of a mapping
    is ever orphaned, wherever a reconcile crashes. */
module Ownership {
  import opened Model
  import opened DesiredState
  import opened Diff
  import Executor

  // ---------------------------------------------------------------- the annotation's contents

  datatype ActionResult = ActionResult(action: Action, success: bool)

  function DeletedKeys(results: seq<ActionResult>): set<string> {
    set r | r in results && r.success && r.action.kind.Delete? :: r.action.target.key
  }

  /** Some action deleted the target's set, and succeeded. */
  ghost predicate SuccessfullyDeleted(results: seq<ActionResult>, key: string) {
    exists i :: 0 <= i < |results| && results[i].success && results[i].action.kind.Delete? && results[i].action.target.key == key
  }

  /** The keys owned after execution: every desired one, and every owned one not deleted. */
  function Owned(existing: set<string>, desired: set<string>, deleted: set<string>): set<string> {
    desired + (existing - deleted)
  }

  ghost predicate NoRepeats(refs: seq<Target>) {
    forall i, j :: 0 <= i < j < |refs| ==> refs[i].key != refs[j].key
  }

  /** The merged references have distinct keys, namely `seen`. */
  ghost predicate Merges(merged: seq<Target>, seen: set<string>) {
    NoRepeats(merged) && KeysOf(Elems(merged)) == seen
  }

  lemma {:induction false} MergesOne(merged: seq<Target>, seen: set<string>, t: Target)
    requires Merges(merged, seen) && t.key !in seen
    ensures Merges(merged + [t], seen + {t.key})
  {
    assert Elems(merged + [t]) == Elems(merged) + {t};
    forall i | 0 <= i < |merged| ensures merged[i].key != t.key {
      assert merged[i] in Elems(merged);
    }
  }

  /** Ownership after execution: every desired target, and every owned one that was not
      successfully deleted; each ASG once. */
  method UpdateOwnedAfterResults(existing: seq<Target>, desired: set<Target>, results: seq<ActionResult>) returns (merged: seq<Target>)
    ensures NoRepeats(merged)
    ensures KeysOf(Elems(merged)) == Owned(KeysOf(Elems(existing)), KeysOf(desired), DeletedKeys(results))
    ensures forall t :: t in existing && !SuccessfullyDeleted(results, t.key) ==> t.key in KeysOf(Elems(merged))
    ensures forall t :: t in merged ==> t in desired || (t in existing && !SuccessfullyDeleted(results, t.key))
  {
    var deleted: set<string> := {};
    for k := 0 to |results|
      invariant deleted == DeletedKeys(results[..k])
    {
      assert results[..k + 1] == results[..k] + [results[k]];
      if results[k].success && results[k].action.kind.Delete? {
        deleted := deleted + {results[k].action.target.key};
      }
    }
    assert results[..|results|] == results;
    var seen;
    merged, seen := MergeDesired(desired);
    for k := 0 to |existing|
      invariant Merges(merged, seen) && seen == KeysOf(desired) + (KeysOf(Elems(existing[..k])) - deleted)
      invariant forall t :: t in merged ==> t in desired || (t in existing && t.key !in deleted)
    {
      ElemsPrefix(existing, k);
      var ref := existing[k];
      assert KeysOf(Elems(existing[..k + 1])) == KeysOf(Elems(existing[..k])) + {ref.key};
      if ref.key !in seen && ref.key !in deleted {
        MergesOne(merged, seen, ref);
        merged, seen := merged + [ref], seen + {ref.key};
      }
    }
    ElemsWhole(existing);
  }

  method MergeDesired(desired: set<Target>) returns (merged: seq<Target>, seen: set<string>)
    ensures Merges(merged, seen) && seen == KeysOf(desired)
    ensures forall t :: t in merged ==> t in desired
  {
    merged, seen := [], {};
    var rest := desired;
    ghost var done: set<Target> := {};
    while rest != {}
      invariant rest <= desired && done == desired - rest
      invariant Merges(merged, seen) && seen == KeysOf(done)
      invariant forall t :: t in merged ==> t in desired
      decreases rest
    {
      var t :| t in rest;
      assert KeysOf(done + {t}) == KeysOf(done) + {t.key};
      if t.key !in seen {
        MergesOne(merged, seen, t);
        merged, seen := merged + [t], seen + {t.key};
      }
      rest, done := rest - {t}, done + {t};
    }
    assert done == desired;
  }

  // ---------------------------------------------------------------- planning the actions

  /** The actual state with every owned, no longer desired target present, if only as empty. */
  function Filled(actual: Prefixes, owned: set<Target>, desired: set<Target>): Prefixes {
    map t | t in actual.Keys + (owned - desired) :: if t in actual then actual[t] else {}
  }

  method FillOwned(actual0: Prefixes, owned: set<Target>, desired: set<Target>) returns (actual: Prefixes)
    ensures actual == Filled(actual0, owned, desired)
  {
    actual := actual0;
    var rest := owned;
    while rest != {}
      invariant rest <= owned && actual == Filled(actual0, owned - rest, desired)
      decreases rest
    {
      var t :| t in rest;
      assert owned - (rest - {t}) == (owned - rest) + {t};
      if t !in desired && t !in actual {
        actual := actual[t := {}];
      }
      rest := rest - {t};
    }
    assert owned - {} == owned;
  }

  /** The plan of a reconcile touches only desired and owned targets, deletes exactly those not
      desired, and deletes every owned target that is no longer desired, even one Azure lacks. */
  lemma {:induction false} PlanCoversOwned(desired: Prefixes, owned: set<Target>, actual: Prefixes, actions: seq<Action>, D: ByKey, A: ByKey, percent: int)
    requires actual.Keys <= desired.Keys + owned
    requires Chooses(D, desired) && Chooses(A, Filled(actual, owned, desired.Keys)) && IsDiff(actions, D, A, percent)
    ensures forall a :: a in actions ==>
              a.target.key in KeysOf(desired.Keys) + KeysOf(owned) && (a.kind.Delete? <==> a.target.key !in KeysOf(desired.Keys))
    ensures forall t :: t in owned && t.key !in KeysOf(desired.Keys) ==> exists a :: a in actions && a.kind.Delete? && a.target.key == t.key
  {
    forall a | a in actions
      ensures a.target.key in KeysOf(desired.Keys) + KeysOf(owned) && (a.kind.Delete? <==> a.target.key !in KeysOf(desired.Keys))
    {
      assert Correct(a, D, A, percent);
    }
    forall t | t in owned && t.key !in KeysOf(desired.Keys)
      ensures exists a :: a in actions && a.kind.Delete? && a.target.key == t.key
    {
      assert t !in desired;
      assert t in Filled(actual, owned, desired.Keys);
      assert t.key in A && Differs(D, A, t.key);
      var a :| a in actions && a.target.key == t.key;
      assert Correct(a, D, A, percent);
    }
  }

  /** When every planned action succeeds, the annotation ends as exactly the desired targets. */
  lemma {:induction false} OwnershipConverges(desired: Prefixes, owned: set<Target>, actual: Prefixes, results: seq<ActionResult>, D: ByKey, A: ByKey, percent: int)
    requires actual.Keys <= desired.Keys + owned
    requires Chooses(D, desired) && Chooses(A, Filled(actual, owned, desired.Keys))
    requires IsDiff(seq(|results|, i requires 0 <= i < |results| => results[i].action), D, A, percent)
    requires forall r :: r in results ==> r.success
    ensures Owned(Owned(KeysOf(owned), KeysOf(desired.Keys), {}), KeysOf(desired.Keys), DeletedKeys(results)) == KeysOf(desired.Keys)
  {
    var actions := seq(|results|, i requires 0 <= i < |results| => results[i].action);
    PlanCoversOwned(desired, owned, actual, actions, D, A, percent);
    forall key | key in KeysOf(owned) && key !in KeysOf(desired.Keys) ensures key in DeletedKeys(results) {
      var t :| t in owned && t.key == key;
      var a :| a in actions && a.kind.Delete? && a.target.key == key;
      var i :| 0 <= i < |actions| && actions[i] == a;
      assert results[i] in results;
    }
  }

  // ---------------------------------------------------------------- deleting a mapping's sets

  /** What befalls the cleanup of one candidate. */
  datatype Cleanup = NoClient | ListFails | DeleteFails(landed: bool) | Works

  /** The candidates whose set goes. */
  function Gone(candidates: set<string>, fate: map<string, Cleanup>): set<string>
    requires candidates <= fate.Keys
  {
    set key | key in candidates && (fate[key].Works? || fate[key] == DeleteFails(true))
  }

  /** The candidates whose cleanup fails: a delete is only tried where the set exists. */
  function Failing(candidates: set<string>, fate: map<string, Cleanup>, azure: set<string>): set<string>
    requires candidates <= fate.Keys
  {
    set key | key in candidates && !fate[key].Works? && (fate[key].DeleteFails? ==> key in azure)
  }

  /** The deletion path: lists each candidate and deletes the mapping's set there, collecting
      the failures. `fate` gives the outcome of each candidate's requests. */
  method ReconcileDelete(azure0: set<string>, candidates: set<string>, fate: map<string, Cleanup>)
    returns (azure: set<string>, failed: set<string>)
    requires candidates <= fate.Keys
    ensures azure == azure0 - Gone(candidates, fate)
    ensures failed == Failing(candidates, fate, azure0)
    ensures failed == {} ==> azure !! candidates
    ensures (forall key :: key in candidates ==> fate[key].Works?) ==> failed == {} && azure == azure0 - candidates
    ensures forall key :: key in failed ==> key in candidates && (fate[key].NoClient? || fate[key].ListFails? || fate[key].DeleteFails?)
    ensures forall key :: key in candidates && (fate[key].NoClient? || fate[key].ListFails?) ==> key in failed
    ensures forall key :: key in azure0 && key in candidates && fate[key].DeleteFails? ==> key in failed
    ensures forall key :: key in azure0 && key !in candidates ==> key in azure
  {
    azure, failed := azure0, {};
    var rest := candidates;
    while rest != {}
      invariant rest <= candidates
      invariant forall key :: key in azure <==>
                  key in azure0 && !(key in candidates && key !in rest && (fate[key].Works? || fate[key] == DeleteFails(true)))
      invariant failed == set key | key in candidates - rest && !fate[key].Works? && (fate[key].DeleteFails? ==> key in azure0)
      invariant forall key :: key in azure && key in candidates && key !in rest ==> key in failed
      decreases rest
    {
      var key :| key in rest;
      match fate[key] {
        case NoClient => failed := failed + {key};
        case ListFails => failed := failed + {key};
        case DeleteFails(landed) =>
          if key in azure {
            failed := failed + {key};
            azure := if landed then azure - {key} else azure;
          }
        case Works =>
          azure := azure - {key};
      }
      rest := rest - {key};
    }
  }

  // ---------------------------------------------------------------- one mapping, over time

  /** The stored mapping: its finalizer, its ownership annotation (`None` when absent) and the
      targets its spec names. */
  datatype Object = Object(deleting: bool, finalizer: bool, annotation: Option<set<string>>, spec: set<string>)

  /** Where the reconcile of this mapping is; `respelled` says that a desired target is spelled
      otherwise in the annotation that was read. */
  datatype Pc =
    | Idle
    | Loaded(owned: set<string>)
    | Planned(owned: set<string>, desired: set<string>, respelled: bool)
    | Executing(desired: set<string>, pre: set<string>, pending: set<string>, deleted: set<string>)
    | Cleaning(todo: set<string>, failed: bool)

  /** `azure` is the targets where a prefix set with the mapping's ownership key exists. */
  datatype World = World(stored: Option<Object>, azure: set<string>, pc: Pc)

  const Start := World(None, {}, Idle)

  function Annotated(o: Object): set<string> {
    if o.annotation.Some? then o.annotation.value else {}
  }

  /** Cleanup candidates: the owned targets, or the spec's when no ownership is recorded. */
  function Candidates(o: Object): set<string> {
    if Annotated(o) != {} then Annotated(o) else o.spec
  }

  /** A reconcile works on the object it has `seen`, which may be any outdated one. */
  datatype Step =
    | CreateObject(spec: set<string>)
    | EditSpec(spec: set<string>)
    | RequestDelete
    | Vanish
    | Crash
    | ForeignDelete(key: string)
    | AddFinalizer
    | Load(seen: Object)
    | Plan(desired: set<string>, respelled: bool)
    | WriteAhead(actions: set<string>, landed: bool, ok: bool)
    | Act(key: string, present: bool, success: bool)
    | WriteBehind(landed: bool)
    | BeginCleanup(seen: Object)
    | CleanOne(key: string, present: bool, success: bool)
    | EndCleanup(landed: bool, lastFinalizer: bool)

  ghost predicate Enabled(w: World, s: Step) {
    match s
    case CreateObject(_) => w.stored.None?
    case EditSpec(_) => w.stored.Some?
    case RequestDelete => w.stored.Some?
    case Vanish => w.stored.Some? && w.stored.value.deleting && !w.stored.value.finalizer
    case Crash => true
    case ForeignDelete(_) => true
    case AddFinalizer => w.pc.Idle? && w.stored.Some? && !w.stored.value.deleting && !w.stored.value.finalizer
    case Load(seen) => w.pc.Idle? && !seen.deleting && seen.finalizer
    case Plan(desired, respelled) => w.pc.Loaded? && (respelled ==> !(desired !! w.pc.owned))
    case WriteAhead(actions, landed, ok) =>  // `PlanIsEnabled`
      w.pc.Planned? && w.pc.owned - w.pc.desired <= actions <= w.pc.desired + w.pc.owned &&
      (ok ==> landed) && (landed ==> w.stored.Some?)
    case Act(key, present, success) =>  // `ExecutionIsEnabled`
      w.pc.Executing? && key in w.pc.pending &&
      (key in w.pc.desired ==> (key in w.azure ==> present)) &&
      (key !in w.pc.desired ==> (present ==> key in w.azure && !success))
    case WriteBehind(landed) => w.pc.Executing? && w.pc.pending == {} && (landed ==> w.stored.Some?)
    case BeginCleanup(seen) => w.pc.Idle? && seen.deleting && seen.finalizer
    case CleanOne(key, present, success) =>  // `CleanupSteps`
      w.pc.Cleaning? && key in w.pc.todo && (present ==> key in w.azure && !success)
    case EndCleanup(landed, _) => w.pc.Cleaning? && w.pc.todo == {} && (landed ==> w.stored.Some?)
  }

  ghost function Do(w: World, s: Step): World
    requires Enabled(w, s)
  {
    match s
    case CreateObject(spec) => w.(stored := Some(Object(false, false, None, spec)))
    case EditSpec(spec) => w.(stored := Some(w.stored.value.(spec := spec)))
    case RequestDelete =>
      if w.stored.value.finalizer then w.(stored := Some(w.stored.value.(deleting := true))) else w.(stored := None)
    case Vanish => w.(stored := None)
    case Crash => w.(pc := Idle)
    case ForeignDelete(key) => w.(azure := w.azure - {key})
    case AddFinalizer => w.(stored := Some(w.stored.value.(finalizer := true)))
    case Load(seen) => w.(pc := Loaded(Annotated(seen)))
    case Plan(desired, respelled) => w.(pc := Planned(w.pc.owned, desired, respelled))
    case WriteAhead(actions, landed, ok) =>
      var pre := Owned(w.pc.owned, w.pc.desired, {});
      var started := Executing(w.pc.desired, pre, actions, {});
      if pre == w.pc.owned && !w.pc.respelled then w.(pc := started)
      else w.(stored := if landed then Some(w.stored.value.(annotation := Some(pre))) else w.stored,
              pc := if ok then started else Idle)
    case Act(key, present, success) =>
      w.(azure := if present then w.azure + {key} else w.azure - {key},
         pc := w.pc.(pending := w.pc.pending - {key},
                     deleted := if success && key !in w.pc.desired then w.pc.deleted + {key} else w.pc.deleted))
    case WriteBehind(landed) =>
      var post := Owned(w.pc.pre, w.pc.desired, w.pc.deleted);
      w.(stored := if landed && post != w.pc.pre then Some(w.stored.value.(annotation := Some(post))) else w.stored,
         pc := Idle)
    case BeginCleanup(seen) => w.(pc := Cleaning(Candidates(seen), false))
    case CleanOne(key, present, success) =>
      w.(azure := if present then w.azure else w.azure - {key},
         pc := Cleaning(w.pc.todo - {key}, w.pc.failed || !success))
    case EndCleanup(landed, lastFinalizer) =>
      if w.pc.failed || !landed then w.(pc := Idle)
      else w.(stored := if lastFinalizer && w.stored.value.deleting then None else Some(w.stored.value.(finalizer := false)),
              pc := Idle)
  }

  // ---------------------------------------------------------------- what the steps stand for

  function ActionKeys(actions: seq<Action>): set<string> {
    set a | a in actions :: a.target.key
  }

  /** A plan, with the targets of any diff as its actions, may be carried out. */
  lemma {:induction false} PlanIsEnabled(w: World, desired: Prefixes, owned: set<Target>, actual: Prefixes, actions: seq<Action>, D: ByKey, A: ByKey, percent: int)
    requires w.pc.Planned? && w.pc.owned == KeysOf(owned) && w.pc.desired == KeysOf(desired.Keys)
    requires actual.Keys <= desired.Keys + owned
    requires Chooses(D, desired) && Chooses(A, Filled(actual, owned, desired.Keys)) && IsDiff(actions, D, A, percent)
    ensures Enabled(w, WriteAhead(ActionKeys(actions), false, false))
    ensures w.stored.Some? ==> forall ok :: Enabled(w, WriteAhead(ActionKeys(actions), true, ok))
    ensures forall a :: a in actions ==> (a.kind.Delete? <==> a.target.key !in w.pc.desired) && Executor.Towards(a)
  {
    PlanCoversOwned(desired, owned, actual, actions, D, A, percent);
    Executor.DiffMovesTowards(actions, D, A, percent);
    forall key | key in w.pc.owned - w.pc.desired ensures key in ActionKeys(actions) {
      var t :| t in owned && t.key == key;
    }
  }

  /** What `Executor.ExecuteWithETagRetry` promises of an action of the plan, when only this
      mapping writes the set, is what `Act` allows. */
  lemma {:induction false} ExecutionIsEnabled(w: World, a0: Action, last: Action, az0: Executor.Azure, az: Executor.Azure, out: Executor.Outcome)
    requires w.pc.Executing? && a0.target.key in w.pc.pending
    requires if a0.target.key in w.pc.desired then !a0.kind.Delete? && a0.desired != {} else a0.kind.Delete?
    requires a0.target.key in w.azure <==> a0.target.key in az0.sets
    requires Executor.SameIntent(a0, last) && Executor.PresenceKept(az0, az, a0) && Executor.Succeeded(az, out, last)
    ensures var present, success := a0.target.key in az.sets, out.error.None?;
            Enabled(w, Act(a0.target.key, present, success)) &&
            (a0.target.key in Do(w, Act(a0.target.key, present, success)).azure <==> present)
  {
  }

  /** `ReconcileDelete`, candidate by candidate, is a run of `CleanOne` steps with its outcome. */
  lemma {:induction false} CleanupSteps(w: World, fate: map<string, Cleanup>) returns (steps: seq<Step>)
    requires w.pc.Cleaning? && w.pc.todo <= fate.Keys
    ensures Runs(w, steps) && forall s :: s in steps ==> s.CleanOne?
    ensures After(w, steps) ==
            World(w.stored, w.azure - Gone(w.pc.todo, fate), Cleaning({}, w.pc.failed || Failing(w.pc.todo, fate, w.azure) != {}))
    decreases w.pc.todo
  {
    steps := [];
    if w.pc.todo == {} {
      assert Gone({}, fate) == {} && Failing({}, fate, w.azure) == {};
    } else {
      var key :| key in w.pc.todo;
      var s := CleanOne(key, key in w.azure - Gone({key}, fate), key !in Failing({key}, fate, w.azure));
      CleanOneStep(w, fate, key);
      var rest := CleanupSteps(Do(w, s), fate);
      steps := [s] + rest;
      assert steps[1..] == rest;
    }
  }

  lemma {:induction false} CleanOneStep(w: World, fate: map<string, Cleanup>, key: string)
    requires w.pc.Cleaning? && w.pc.todo <= fate.Keys && key in w.pc.todo
    ensures var s := CleanOne(key, key in w.azure - Gone({key}, fate), key !in Failing({key}, fate, w.azure));
            && Enabled(w, s)
            && var v := Do(w, s);
               && v.azure - Gone(v.pc.todo, fate) == w.azure - Gone(w.pc.todo, fate)
               && (v.pc.failed || Failing(v.pc.todo, fate, v.azure) != {} <==> w.pc.failed || Failing(w.pc.todo, fate, w.azure) != {})
  {
    var s := CleanOne(key, key in w.azure - Gone({key}, fate), key !in Failing({key}, fate, w.azure));
    var v := Do(w, s);
    assert v.azure == w.azure - Gone({key}, fate);
    assert Gone(w.pc.todo, fate) == Gone(v.pc.todo, fate) + Gone({key}, fate);
    assert Failing(w.pc.todo, fate, w.azure) == Failing(v.pc.todo, fate, v.azure) + Failing({key}, fate, w.azure);
    assert key !in Failing({key}, fate, w.azure) ==> Failing({key}, fate, w.azure) == {};
  }

  /** The execution steps of the results of a plan; `present` is where a set exists afterwards. */
  function ActsOf(results: seq<ActionResult>, present: set<string>): seq<Step> {
    seq(|results|, i requires 0 <= i < |results| =>
      Act(results[i].action.target.key, results[i].action.target.key in present, results[i].success))
  }

  function ResultKeys(results: seq<ActionResult>): set<string> {
    set r | r in results :: r.action.target.key
  }

  /** The results are of the pending actions, one each, and each can come about
      (`ExecutionIsEnabled`). */
  ghost predicate Reported(w: World, results: seq<ActionResult>, present: set<string>)
    requires w.pc.Executing?
  {
    ResultKeys(results) == w.pc.pending &&
    (forall i, j :: 0 <= i < j < |results| ==> results[i].action.target.key != results[j].action.target.key) &&
    forall r :: r in results ==>
      (r.action.kind.Delete? <==> r.action.target.key !in w.pc.desired) &&
      Enabled(w, Act(r.action.target.key, r.action.target.key in present, r.success))
  }

  lemma {:induction false} ReportedRest(w: World, results: seq<ActionResult>, present: set<string>)
    requires w.pc.Executing? && Reported(w, results, present) && results != []
    ensures Enabled(w, ActsOf(results, present)[0])
    ensures var v := Do(w, ActsOf(results, present)[0]); v.pc.Executing? && Reported(v, results[1..], present)
  {
    var first, rest := results[0], results[1..];
    var key := first.action.target.key;
    assert first in results && key !in ResultKeys(rest);
    assert results == [first] + rest;
    assert ResultKeys(results) == {key} + ResultKeys(rest);
    forall r | r in rest ensures r in results && r.action.target.key != key {}
  }

  /** Taking the execution steps empties the plan and records exactly the successful deletes. */
  lemma {:induction false} ExecutionSteps(w: World, results: seq<ActionResult>, present: set<string>)
    requires w.pc.Executing? && Reported(w, results, present)
    ensures Runs(w, ActsOf(results, present))
    ensures var v := After(w, ActsOf(results, present));
            v.stored == w.stored && v.pc == w.pc.(pending := {}, deleted := w.pc.deleted + DeletedKeys(results))
    decreases |results|
  {
    var steps := ActsOf(results, present);
    if results == [] {
      assert w.pc.pending == {} && DeletedKeys(results) == {};
      assert steps == [];
    } else {
      ReportedRest(w, results, present);
      assert steps[1..] == ActsOf(results[1..], present);
      ExecutionSteps(Do(w, steps[0]), results[1..], present);
      assert results[0] in results && results == [results[0]] + results[1..];
    }
  }

  /** After the results of a plan, the write-behind stores exactly the references that
      `UpdateOwnedAfterResults` returns for them, if these differ from the write-ahead's. */
  lemma {:induction false} WriteBehindStores(w: World, results: seq<ActionResult>, present: set<string>, existing: seq<Target>, desired: set<Target>, merged: seq<Target>)
    requires w.pc.Executing? && Reported(w, results, present) && w.stored.Some? && w.pc.deleted == {}
    requires w.pc.pre == KeysOf(Elems(existing)) && w.pc.desired == KeysOf(desired)
    requires KeysOf(Elems(merged)) == Owned(KeysOf(Elems(existing)), KeysOf(desired), DeletedKeys(results))
    ensures Runs(w, ActsOf(results, present)) && Enabled(After(w, ActsOf(results, present)), WriteBehind(true))
    ensures var v := Do(After(w, ActsOf(results, present)), WriteBehind(true));
            Recorded(v) == if KeysOf(Elems(merged)) != w.pc.pre then KeysOf(Elems(merged)) else Recorded(w)
  {
    ExecutionSteps(w, results, present);
    assert {} + DeletedKeys(results) == DeletedKeys(results);
  }

  // ---------------------------------------------------------------- runs

  ghost predicate Runs(w: World, steps: seq<Step>)
    decreases |steps|
  {
    steps == [] || (Enabled(w, steps[0]) && Runs(Do(w, steps[0]), steps[1..]))
  }

  ghost function After(w: World, steps: seq<Step>): World
    requires Runs(w, steps)
    decreases |steps|
  {
    if steps == [] then w else After(Do(w, steps[0]), steps[1..])
  }

  // ---------------------------------------------------------------- safety

  /** The targets the stored mapping records as owned. */
  function Recorded(w: World): set<string> {
    if w.stored.Some? then Annotated(w.stored.value) else {}
  }

  predicate HasFinalizer(w: World) {
    w.stored.Some? && w.stored.value.finalizer
  }

  /** Every existing prefix set of the mapping is listed in its stored annotation. */
  ghost predicate Covered(w: World) {
    w.azure <= Recorded(w)
  }

  /** Without the finalizer, or without the object, no prefix set is left. */
  ghost predicate Guarded(w: World) {
    HasFinalizer(w) || w.azure == {}
  }

  /** What the running reconcile knows still holds. */
  ghost predicate PcOk(w: World) {
    match w.pc
    case Idle => true
    case Loaded(_) => true
    case Planned(owned, desired, respelled) => respelled ==> !(desired !! owned)
    case Executing(desired, pre, pending, deleted) =>
      && desired + pending <= pre && desired <= Recorded(w) && (desired != {} ==> HasFinalizer(w))
      && deleted !! w.azure && deleted !! desired && (w.azure <= pre || pre == desired)
    case Cleaning(todo, failed) => !failed ==> w.azure <= todo
  }

  ghost predicate Inv(w: World) {
    Covered(w) && Guarded(w) && PcOk(w)
  }

  /** The write-ahead update is skipped: it would not change the annotation that was read. */
  predicate Skips(w: World)
    requires w.pc.Planned?
  {
    w.pc.desired <= w.pc.owned && !w.pc.respelled
  }

  /** What was read is good enough to start: no existing set is outside what the annotation
      will be written to, if it will be written at all; where the write-ahead update is skipped
      the stored annotation already lists what may be created; and what may be created is
      guarded by the finalizer. */
  ghost predicate SafeToStart(w: World)
    requires w.pc.Planned?
  {
    && (w.azure <= w.pc.desired + w.pc.owned || (w.pc.desired == w.pc.owned && Skips(w)))
    && (Skips(w) ==> w.pc.desired <= Recorded(w))
    && (w.stored.Some? && w.pc.desired != {} ==> HasFinalizer(w))
  }

  /** The step does not act on a dangerously outdated read. */
  ghost predicate SafeRead(w: World, s: Step)
    requires Enabled(w, s)
  {
    match s
    case WriteAhead(_, _, _) => SafeToStart(w)
    case BeginCleanup(seen) => w.azure <= Candidates(seen)
    case _ => true
  }

  ghost predicate ReadsSafely(w: World, steps: seq<Step>)
    requires Runs(w, steps)
    decreases |steps|
  {
    steps == [] || (SafeRead(w, steps[0]) && ReadsSafely(Do(w, steps[0]), steps[1..]))
  }

  lemma {:induction false} StepKeeps(w: World, s: Step)
    requires Inv(w) && Enabled(w, s) && SafeRead(w, s)
    ensures Inv(Do(w, s))
  {
  }

  lemma {:induction false} RunKeeps(w: World, steps: seq<Step>)
    requires Inv(w) && Runs(w, steps) && ReadsSafely(w, steps)
    ensures Inv(After(w, steps))
    decreases |steps|
  {
    if steps != [] {
      StepKeeps(w, steps[0]);
      RunKeeps(Do(w, steps[0]), steps[1..]);
    }
  }

  /** Write-ahead ownership: every run, with crashes between any two steps, any mix of failures
      and outdated reads that are not dangerous, ends (so: always is) in a state where each
      existing prefix set is listed in the annotation. */
  lemma {:induction false} NeverOrphaned(steps: seq<Step>)
    requires Runs(Start, steps) && ReadsSafely(Start, steps)
    ensures Covered(After(Start, steps))
  {
    RunKeeps(Start, steps);
  }

  /** The step that takes the finalizer off, or the object away, finds no prefix set left. */
  lemma {:induction false} FinalizerOutlivesSets(steps: seq<Step>, s: Step)
    requires Runs(Start, steps) && ReadsSafely(Start, steps)
    requires var w := After(Start, steps); Enabled(w, s) && SafeRead(w, s) && HasFinalizer(w) && !HasFinalizer(Do(w, s))
    ensures var w := After(Start, steps); s.EndCleanup? && !w.pc.failed && w.azure == {} && Do(w, s).azure == {}
  {
    RunKeeps(Start, steps);
    StepKeeps(After(Start, steps), s);
  }

  // ---------------------------------------------------------------- progress

  lemma {:induction false} RunThen(w: World, steps: seq<Step>, s: Step)
    requires Runs(w, steps) && Enabled(After(w, steps), s)
    ensures Runs(w, steps + [s]) && After(w, steps + [s]) == Do(After(w, steps), s)
    decreases |steps|
  {
    var longer := steps + [s];
    if steps == [] {
      assert longer == [s] && longer[1..] == [];
    } else {
      assert longer[0] == steps[0] && longer[1..] == steps[1..] + [s];
      RunThen(Do(w, steps[0]), steps[1..], s);
    }
  }

  /** A cleanup whose requests all work, and whose last update lands, takes the finalizer off and
      leaves no set among its candidates. */
  lemma {:induction false} CleanupCompletes(w: World, lastFinalizer: bool) returns (steps: seq<Step>)
    requires w.pc.Cleaning? && !w.pc.failed && w.stored.Some?
    ensures Runs(w, steps + [EndCleanup(true, lastFinalizer)])
    ensures var v := After(w, steps + [EndCleanup(true, lastFinalizer)]);
            !HasFinalizer(v) && v.azure == w.azure - w.pc.todo && v.pc.Idle?
    ensures forall s :: s in steps ==> s.CleanOne? && s.success
    decreases w.pc.todo
  {
    var end := EndCleanup(true, lastFinalizer);
    if w.pc.todo == {} {
      steps := [];
      RunThen(w, [], end);
    } else {
      var key :| key in w.pc.todo;
      var s := CleanOne(key, false, true);
      var rest := CleanupCompletes(Do(w, s), lastFinalizer);
      steps := [s] + rest;
      assert (steps + [end])[1..] == rest + [end];
    }
  }

  /** The deletion of a mapping can always complete: from any sound idle state, an up-to-date
      cleanup whose requests work removes every set and lets the object go. */
  lemma {:induction false} DeletionCompletes(w: World) returns (steps: seq<Step>)
    requires Inv(w) && w.pc.Idle? && HasFinalizer(w) && w.stored.value.deleting
    ensures Runs(w, steps) && ReadsFresh(w, steps) && After(w, steps) == Start
  {
    var begin := BeginCleanup(w.stored.value);
    var cleaning := Do(w, begin);
    assert w.azure <= Candidates(w.stored.value);
    var rest := CleanupCompletes(cleaning, true);
    var tail := rest + [EndCleanup(true, true)];
    CleanupReadsNothing(cleaning, tail);
    steps := [begin] + tail;
    assert steps[1..] == tail;
    CleanupVanishes(cleaning, tail);
  }

  lemma {:induction false} CleanupReadsNothing(w: World, steps: seq<Step>)
    requires Runs(w, steps) && forall s :: s in steps ==> s.CleanOne? || s.EndCleanup?
    ensures ReadsFresh(w, steps)
    decreases |steps|
  {
    if steps != [] {
      assert steps[0] in steps;
      CleanupReadsNothing(Do(w, steps[0]), steps[1..]);
    }
  }

  /** Cleaning an object under deletion, to the end and as its last finalizer, lets it go. */
  lemma {:induction false} CleanupVanishes(w: World, steps: seq<Step>)
    requires Runs(w, steps) && steps != [] && w.pc.Cleaning? && w.stored.Some? && w.stored.value.deleting
    requires forall i :: 0 <= i < |steps| - 1 ==> steps[i].CleanOne?
    requires steps[|steps| - 1] == EndCleanup(true, true) && !HasFinalizer(After(w, steps)) && HasFinalizer(w)
    ensures After(w, steps).stored.None?
    decreases |steps|
  {
    if |steps| > 1 {
      assert steps[0].CleanOne?;
      CleanupVanishes(Do(w, steps[0]), steps[1..]);
    } else {
      assert steps[1..] == [];
    }
  }

  /** A reconcile all of whose actions succeed ends with exactly the desired targets recorded, and
      no set anywhere else. */
  lemma {:induction false} SuccessSettlesOwnership(w: World, results: seq<ActionResult>, present: set<string>)
    requires Inv(w) && w.pc.Executing? && Reported(w, results, present) && w.stored.Some?
    requires w.pc.deleted == {} && Recorded(w) == w.pc.pre && w.pc.pre - w.pc.desired <= w.pc.pending
    requires forall r :: r in results ==> r.success
    ensures Runs(w, ActsOf(results, present)) && Enabled(After(w, ActsOf(results, present)), WriteBehind(true))
    ensures var v := Do(After(w, ActsOf(results, present)), WriteBehind(true)); Recorded(v) == w.pc.desired && v.azure <= w.pc.desired
  {
    var steps := ActsOf(results, present);
    ExecutionSteps(w, results, present);
    QuietKeeps(w, steps);
    StepKeeps(After(w, steps), WriteBehind(true));
    forall key | key in w.pc.pre - w.pc.desired ensures key in DeletedKeys(results) {
      var r :| r in results && r.action.target.key == key;
    }
    assert Owned(w.pc.pre, w.pc.desired, DeletedKeys(results)) == w.pc.desired;
    assert {} + DeletedKeys(results) == DeletedKeys(results);
  }

  // ---------------------------------------------------------------- up-to-date reads

  /** Every object a reconcile works on is the stored one. */
  ghost predicate ReadsFresh(w: World, steps: seq<Step>)
    requires Runs(w, steps)
    decreases |steps|
  {
    steps == [] ||
    (((steps[0].Load? || steps[0].BeginCleanup?) ==> w.stored == Some(steps[0].seen)) && ReadsFresh(Do(w, steps[0]), steps[1..]))
  }

  /** What was read is still stored. */
  ghost predicate StillFresh(w: World) {
    w.pc.Loaded? || w.pc.Planned? ==> HasFinalizer(w) && w.pc.owned == Recorded(w)
  }

  /** Reconciles of one mapping are serialised, so an up-to-date read stays good enough. */
  lemma {:induction false} FreshReadsAreSafe(w: World, steps: seq<Step>)
    requires Inv(w) && StillFresh(w) && Runs(w, steps) && ReadsFresh(w, steps)
    ensures ReadsSafely(w, steps)
    decreases |steps|
  {
    if steps != [] {
      assert SafeRead(w, steps[0]);
      StepKeeps(w, steps[0]);
      FreshReadsAreSafe(Do(w, steps[0]), steps[1..]);
    }
  }

  lemma {:induction false} FreshReadsNeverOrphan(steps: seq<Step>)
    requires Runs(Start, steps) && ReadsFresh(Start, steps)
    ensures Covered(After(Start, steps))
  {
    FreshReadsAreSafe(Start, steps);
    NeverOrphaned(steps);
  }

  // ---------------------------------------------------------------- exactly when a read is safe

  /** No step acts on another read. */
  ghost predicate Quiet(steps: seq<Step>) {
    forall s :: s in steps ==> !s.WriteAhead? && !s.BeginCleanup?
  }

  /** Whatever happens until another read is acted on, no set is lost. */
  ghost predicate NeverLost(w: World) {
    forall steps :: Runs(w, steps) && Quiet(steps) ==> Covered(After(w, steps))
  }

  lemma {:induction false} QuietKeeps(w: World, steps: seq<Step>)
    requires Inv(w) && Runs(w, steps) && Quiet(steps)
    ensures Inv(After(w, steps))
    decreases |steps|
  {
    if steps != [] {
      assert steps[0] in steps;
      StepKeeps(w, steps[0]);
      QuietKeeps(Do(w, steps[0]), steps[1..]);
    }
  }

  lemma {:induction false} InvNeverLost(w: World)
    requires Inv(w)
    ensures NeverLost(w)
  {
    forall steps | Runs(w, steps) && Quiet(steps) ensures Covered(After(w, steps)) {
      QuietKeeps(w, steps);
    }
  }

  /** One step, and then what follows it. */
  lemma {:induction false} Lost(w: World, s: Step)
    requires Enabled(w, s) && !s.WriteAhead? && !s.BeginCleanup? && !NeverLost(Do(w, s))
    ensures !NeverLost(w)
  {
    var rest :| Runs(Do(w, s), rest) && Quiet(rest) && !Covered(After(Do(w, s), rest));
    var steps := [s] + rest;
    assert steps[1..] == rest;
    assert Runs(w, steps) && Quiet(steps) && !Covered(After(w, steps));
  }

  lemma {:induction false} LostNow(w: World)
    requires !Covered(w)
    ensures !NeverLost(w)
  {
    assert Runs(w, []) && Quiet([]) && !Covered(After(w, []));
  }

  /** A set outside what was read is dropped from the annotation once a delete has succeeded. */
  lemma {:induction false} WriteBehindLoses(w: World, x: string, c: string)
    requires w.pc.Executing? && w.stored.Some? && w.pc.pending !! w.pc.desired
    requires x in w.azure && x !in w.pc.pending && x !in w.pc.pre + w.pc.desired
    requires c in w.pc.pre && c !in w.pc.desired && c in w.pc.pending + w.pc.deleted
    ensures !NeverLost(w)
    decreases w.pc.pending
  {
    if w.pc.pending == {} {
      var v := Do(w, WriteBehind(true));
      assert x in v.azure && x !in Recorded(v);
      LostNow(v);
      Lost(w, WriteBehind(true));
    } else {
      var key :| key in w.pc.pending;
      var s := Act(key, false, true);
      WriteBehindLoses(Do(w, s), x, c);
      Lost(w, s);
    }
  }

  /** Every way in which an outdated read fails `SafeToStart` lets some run lose a set. */
  lemma {:induction false} UnsafeStartLoses(w: World) returns (s: Step)
    requires Inv(w) && w.pc.Planned? && !SafeToStart(w)
    ensures s.WriteAhead? && Enabled(w, s) && !NeverLost(Do(w, s))
  {
    var owned, desired := w.pc.owned, w.pc.desired;
    var pre := Owned(owned, desired, {});
    assert pre == desired + owned;
    if !(w.azure <= pre || (desired == owned && Skips(w))) {
      var x :| x in w.azure && x !in pre;
      s := WriteAhead(owned - desired, true, true);
      if Skips(w) {
        assert !(owned <= desired);
        var c :| c in owned && c !in desired;
        WriteBehindLoses(Do(w, s), x, c);
      } else {
        assert x in Do(w, s).azure && x !in Recorded(Do(w, s));
        LostNow(Do(w, s));
      }
    } else if Skips(w) && !(desired <= Recorded(w)) {
      var z :| z in desired && z !in Recorded(w);
      s := WriteAhead(owned - desired + {z}, false, false);
      ActUncovered(Do(w, s), z);
    } else {
      var z :| z in desired;
      s := WriteAhead(owned - desired + {z}, true, true);
      ActUnguarded(Do(w, s), z);
    }
  }

  lemma {:induction false} ActUncovered(w: World, z: string)
    requires w.pc.Executing? && z in w.pc.pending && z in w.pc.desired && z !in Recorded(w)
    ensures !NeverLost(w)
  {
    var s := Act(z, true, true);
    assert z in Do(w, s).azure && z !in Recorded(Do(w, s));
    LostNow(Do(w, s));
    Lost(w, s);
  }

  lemma {:induction false} ActUnguarded(w: World, z: string)
    requires w.pc.Executing? && z in w.pc.pending && z in w.pc.desired && w.stored.Some? && !HasFinalizer(w)
    ensures !NeverLost(w)
  {
    var s := Act(z, true, true);
    var v := Do(Do(w, s), RequestDelete);
    assert z in v.azure && z !in Recorded(v);
    LostNow(v);
    Lost(Do(w, s), RequestDelete);
    Lost(w, s);
  }

  /** Acting on what was read, up to date or not, loses no set whatever happens next if and only
      if it was safe to start. */
  lemma {:induction false} SafeToStartIff(w: World)
    requires Inv(w) && w.pc.Planned?
    ensures SafeToStart(w) <==> forall s: Step :: s.WriteAhead? && Enabled(w, s) ==> NeverLost(Do(w, s))
  {
    if SafeToStart(w) {
      forall s: Step | s.WriteAhead? && Enabled(w, s) ensures NeverLost(Do(w, s)) {
        StepKeeps(w, s);
        InvNeverLost(Do(w, s));
      }
    } else {
      var s := UnsafeStartLoses(w);
    }
  }

  /** A cleanup that misses a set goes on to remove the finalizer. */
  lemma {:induction false} CleanupLoses(w: World, x: string)
    requires w.pc.Cleaning? && !w.pc.failed && w.stored.Some? && x in w.azure && x !in w.pc.todo
    ensures !NeverLost(w)
    decreases w.pc.todo
  {
    if w.pc.todo == {} {
      var s := EndCleanup(true, true);
      var v := Do(w, s);
      if v.stored.None? {
        LostNow(v);
      } else {
        assert x in Do(v, RequestDelete).azure;
        LostNow(Do(v, RequestDelete));
        Lost(v, RequestDelete);
      }
      Lost(w, s);
    } else {
      var key :| key in w.pc.todo;
      var s := CleanOne(key, false, true);
      CleanupLoses(Do(w, s), x);
      Lost(w, s);
    }
  }

  /** A cleanup of the object that was read loses no set if and only if its candidates include
      every existing one. */
  lemma {:induction false} SafeCleanupIff(w: World, seen: Object)
    requires Inv(w) && Enabled(w, BeginCleanup(seen))
    ensures var candidates := if seen.annotation.Some? && seen.annotation.value != {} then seen.annotation.value else seen.spec;
            w.azure <= candidates <==> NeverLost(Do(w, BeginCleanup(seen)))
  {
    if w.azure <= Candidates(seen) {
      StepKeeps(w, BeginCleanup(seen));
      InvNeverLost(Do(w, BeginCleanup(seen)));
    } else {
      var x :| x in w.azure && x !in Candidates(seen);
      CleanupLoses(Do(w, BeginCleanup(seen)), x);
    }
  }

  // ---------------------------------------------------------------- outdated reads that lose a set

  /** The annotation is overwritten: "a" was recorded after the read. */
  lemma {:induction false} StaleReadOrphans() returns (w: World)
    ensures Inv(w) && w == World(Some(Object(false, true, Some({"a"}), {"b"})), {"a"}, Planned({}, {"b"}, false))
    ensures Enabled(w, WriteAhead({"b"}, true, true)) && !Covered(Do(w, WriteAhead({"b"}, true, true)))
  {
    w := World(Some(Object(false, true, Some({"a"}), {"b"})), {"a"}, Planned({}, {"b"}, false));
    var v := Do(w, WriteAhead({"b"}, true, true));
    assert "a" in v.azure && Recorded(v) == Owned({}, {"b"}, {}) && "a" !in Recorded(v);
  }

  /** The write-ahead update is skipped: "z" was given up after the read, and is created again. */
  lemma {:induction false} StaleReadSkips() returns (w: World, s: Step)
    ensures Inv(w) && w == World(Some(Object(false, true, Some({}), {"z"})), {}, Planned({"z"}, {"z"}, false))
    ensures s == WriteAhead({"z"}, false, false) && Enabled(w, s) && Enabled(Do(w, s), Act("z", true, true))
    ensures !Covered(Do(Do(w, s), Act("z", true, true)))
  {
    w := World(Some(Object(false, true, Some({}), {"z"})), {}, Planned({"z"}, {"z"}, false));
    s := WriteAhead({"z"}, false, false);
    assert "z" in Do(Do(w, s), Act("z", true, true)).azure;
  }

  /** The annotation is shrunk: deleting "c" drops "a", which was recorded after the read. */
  lemma {:induction false} StaleReadShrinks() returns (w: World, s: Step)
    ensures Inv(w) && w.pc == Planned({"b", "c"}, {"b"}, false) && Recorded(w) == w.azure == {"a", "b", "c"}
    ensures s == WriteAhead({"c"}, false, false) && Enabled(w, s) && Enabled(Do(w, s), Act("c", false, true))
    ensures var v := Do(Do(w, s), Act("c", false, true));
            Enabled(v, WriteBehind(true)) && !Covered(Do(v, WriteBehind(true)))
  {
    w := World(Some(Object(false, true, Some({"a", "b", "c"}), {"b"})), {"a", "b", "c"}, Planned({"b", "c"}, {"b"}, false));
    s := WriteAhead({"c"}, false, false);
    var v := Do(Do(w, s), Act("c", false, true));
    var u := Do(v, WriteBehind(true));
    assert "c" in v.pc.pre && "c" !in Owned(v.pc.pre, v.pc.desired, v.pc.deleted);
    assert "a" in u.azure && "a" !in Recorded(u);
  }

  /** A cleanup misses "b", which was recorded after the read. */
  lemma {:induction false} StaleCleanupOrphans() returns (w: World, seen: Object)
    ensures Inv(w) && w == World(Some(Object(true, true, Some({"a", "b"}), {})), {"a", "b"}, Idle)
    ensures seen == Object(true, true, Some({"a"}), {}) && Enabled(w, BeginCleanup(seen)) && !NeverLost(Do(w, BeginCleanup(seen)))
  {
    w := World(Some(Object(true, true, Some({"a", "b"}), {})), {"a", "b"}, Idle);
    seen := Object(true, true, Some({"a"}), {});
    assert "b" in w.azure && "a" in Annotated(seen) && "b" !in Candidates(seen);
    SafeCleanupIff(w, seen);
  }
}
