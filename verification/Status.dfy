/** Mapping status rows, and how last-sync times survive reordered, inserted or removed rules. */
module Status {
  import opened Model

  /** Zero is the unset time. */
  type Time = int

  datatype SyncState = SyncPending | SyncError | Synced

  /** A row's error text: none, messages in order, or a sorted and deduplicated set of them. */
  datatype RowError = NoError | Listed(messages: seq<string>) | Sorted(distinct: set<string>)

  datatype Row = Row(hash: string, matchedPods: int, state: SyncState, error: RowError, lastSync: Time)

  datatype Condition = Condition(kind: string, status: string, reason: string, message: RowError, generation: int, transition: Time)

  datatype Status = Status(mappingCount: nat, conditions: seq<Condition>, rows: seq<Row>)

  datatype Phase = PhasePending | PhaseFinal

  /** A rule as the status sees it: its selector hash and the keys of its valid targets. */
  datatype RuleRow = RuleRow(hash: string, targets: seq<string>)

  datatype Issue = Issue(rule: int, message: string)

  datatype Result = Result(target: string, success: bool, message: string)

  datatype Input = Input(
    rules: seq<RuleRow>,
    previous: seq<Row>,
    results: seq<Result>,
    matchedPods: seq<int>,
    issues: seq<Issue>,
    reconcileError: Option<string>,
    generation: int,
    phase: Phase,
    now: Time)

  // ---------------------------------------------------------------- the verdict of a row

  function MessagesFor(issues: seq<Issue>, rule: int): seq<string>
    decreases |issues|
  {
    if issues == [] then []
    else
      var last := issues[|issues| - 1];
      MessagesFor(issues[..|issues| - 1], rule) + (if last.rule == rule then [last.message] else [])
  }

  /** The failures of the row's targets. */
  function Failures(x: Input, rule: RuleRow): set<string> {
    set r | r in x.results && !r.success && r.target in rule.targets :: r.message
  }

  predicate Systemic(x: Input) {
    x.reconcileError.Some? && |x.results| == 0 && |x.issues| == 0 && x.phase.PhaseFinal?
  }

  /** State and error of row `i`; the last-sync time is kept unless the row is synced now. */
  function Verdict(x: Input, i: nat): (SyncState, RowError)
    requires i < |x.rules|
  {
    if |x.issues| > 0 then
      var messages := MessagesFor(x.issues, i);
      (SyncError, Listed(if messages != [] then messages else ["spec validation failed"]))
    else if x.phase.PhasePending? then (SyncPending, NoError)
    else if Systemic(x) then (SyncError, Listed([x.reconcileError.value]))
    else if Failures(x, x.rules[i]) != {} then (SyncError, Sorted(Failures(x, x.rules[i])))
    else (Synced, NoError)
  }

  predicate Keeps(x: Input, i: nat)
    requires i < |x.rules|
  {
    !Verdict(x, i).0.Synced?
  }

  function Conditions(x: Input, clock: Time): seq<Condition> {
    var accepted := Condition("Accepted", "True", "SpecValid", NoError, x.generation, clock);
    if |x.issues| > 0 then
      [Condition("Accepted", "False", "SpecInvalid", Listed(AllMessages(x.issues)), x.generation, clock),
       Condition("Reconciled", "False", "ValidationFailed", Listed(["validation failed"]), x.generation, clock)]
    else if x.phase.PhasePending? then
      [accepted, Condition("Reconciled", "Unknown", "Reconciling", NoError, x.generation, clock)]
    else if x.reconcileError.Some? then
      [accepted, Condition("Reconciled", "False", "ReconcileFailed", Listed([x.reconcileError.value]), x.generation, clock)]
    else if exists r :: r in x.results && !r.success then
      [accepted, Condition("Reconciled", "False", "ReconcileFailed", Listed(["one or more actions failed"]), x.generation, clock)]
    else
      [accepted, Condition("Reconciled", "True", "ReconcileSucceeded", NoError, x.generation, clock)]
  }

  function AllMessages(issues: seq<Issue>): seq<string> {
    seq(|issues|, i requires 0 <= i < |issues| => issues[i].message)
  }

  // ---------------------------------------------------------------- last-sync times

  predicate HashMode(previous: seq<Row>) {
    exists row :: row in previous && row.hash != ""
  }

  /** The last-sync times of the rows with this hash, in order. */
  function TimesOf(rows: seq<Row>, hash: string): seq<Time>
    decreases |rows|
  {
    if rows == [] then []
    else TimesOf(rows[..|rows| - 1], hash) + (if rows[|rows| - 1].hash == hash then [rows[|rows| - 1].lastSync] else [])
  }

  /** Per row, the hash it keeps a time for, if it keeps one. */
  function Marks(x: Input): seq<Option<string>> {
    seq(|x.rules|, i requires 0 <= i < |x.rules| => if Keeps(x, i) then Some(x.rules[i].hash) else None)
  }

  /** How many of the first `i` rows kept a time for this hash. */
  function Taken(marks: seq<Option<string>>, hash: string, i: nat): nat
    requires i <= |marks|
  {
    if i == 0 then 0 else Taken(marks, hash, i - 1) + (if marks[i - 1] == Some(hash) then 1 else 0)
  }

  /** The time row `i` shows: in hash mode the next unused time of its hash. */
  function LastSync(x: Input, i: nat): Time
    requires i < |x.rules|
  {
    if !Keeps(x, i) then x.now
    else if HashMode(x.previous) then
      var times, k := TimesOf(x.previous, x.rules[i].hash), Taken(Marks(x), x.rules[i].hash, i);
      if k < |times| then times[k] else 0
    else if i < |x.previous| then x.previous[i].lastSync
    else 0
  }

  function RowOf(x: Input, i: nat): Row
    requires i < |x.rules|
  {
    Row(x.rules[i].hash, if i < |x.matchedPods| then x.matchedPods[i] else 0, Verdict(x, i).0, Verdict(x, i).1, LastSync(x, i))
  }

  function RowsOf(x: Input): seq<Row> {
    seq(|x.rules|, i requires 0 <= i < |x.rules| => RowOf(x, i))
  }

  // ---------------------------------------------------------------- the computation

  type Queues = map<string, seq<Time>>

  function Queue(q: Queues, hash: string): seq<Time> {
    if hash in q then q[hash] else []
  }

  method BuildPreviousLastSyncBySelector(rows: seq<Row>) returns (q: Queues)
    ensures forall hash :: Queue(q, hash) == TimesOf(rows, hash)
  {
    q := map[];
    for k := 0 to |rows|
      invariant forall hash :: Queue(q, hash) == TimesOf(rows[..k], hash)
    {
      assert rows[..k + 1][..k] == rows[..k];
      q := q[rows[k].hash := Queue(q, rows[k].hash) + [rows[k].lastSync]];
    }
    assert rows[..|rows|] == rows;
  }

  /** Pops the earliest time of a hash, if any is left. */
  method PopPreviousLastSync(q0: Queues, hash: string) returns (q: Queues, time: Option<Time>)
    ensures time == if Queue(q0, hash) == [] then None else Some(Queue(q0, hash)[0])
    ensures Queue(q, hash) == if Queue(q0, hash) == [] then [] else Queue(q0, hash)[1..]
    ensures forall other :: other != hash ==> Queue(q, other) == Queue(q0, other)
  {
    if hash !in q0 || |q0[hash]| == 0 {
      return q0, None;
    }
    return q0[hash := q0[hash][1..]], Some(q0[hash][0]);
  }

  function DropUpTo<T>(s: seq<T>, k: nat): seq<T> {
    if k <= |s| then s[k..] else []
  }

  /** The queues hold, per hash, the times not yet taken by the first `i` rows. */
  ghost predicate Left(q: Queues, x: Input, i: nat)
    requires i <= |x.rules|
  {
    forall hash :: Queue(q, hash) == DropUpTo(TimesOf(x.previous, hash), Taken(Marks(x), hash, i))
  }

  /** The time of one row, popped from its hash's queue or taken by index. */
  method PreserveLastSync(x: Input, i: nat, hashMode: bool, q0: Queues) returns (q: Queues, lastSync: Time)
    requires i < |x.rules| && hashMode == HashMode(x.previous) && (hashMode ==> Left(q0, x, i))
    ensures lastSync == LastSync(x, i) && (hashMode ==> Left(q, x, i + 1))
  {
    q, lastSync := q0, 0;
    if !Keeps(x, i) {
      lastSync := x.now;
    } else if hashMode {
      var time;
      q, time := PopPreviousLastSync(q0, x.rules[i].hash);
      PopLeaves(q0, q, x, i);
      if time.Some? {
        lastSync := time.value;
      }
    } else if i < |x.previous| {
      lastSync := x.previous[i].lastSync;
    }
  }

  lemma {:induction false} PopLeaves(q0: Queues, q: Queues, x: Input, i: nat)
    requires i < |x.rules| && Keeps(x, i) && Left(q0, x, i)
    requires var hash := x.rules[i].hash;
             Queue(q, hash) == if Queue(q0, hash) == [] then [] else Queue(q0, hash)[1..]
    requires forall other :: other != x.rules[i].hash ==> Queue(q, other) == Queue(q0, other)
    ensures Left(q, x, i + 1)
  {
    forall hash ensures Queue(q, hash) == DropUpTo(TimesOf(x.previous, hash), Taken(Marks(x), hash, i + 1)) {
      assert Queue(q0, hash) == DropUpTo(TimesOf(x.previous, hash), Taken(Marks(x), hash, i));
      TakenStep(Marks(x), hash, i);
      assert Marks(x)[i] == Some(x.rules[i].hash);
      DropOneMore(TimesOf(x.previous, hash), Taken(Marks(x), hash, i));
    }
  }

  lemma {:induction false} TakenStep(marks: seq<Option<string>>, hash: string, i: nat)
    requires i < |marks|
    ensures Taken(marks, hash, i + 1) == Taken(marks, hash, i) + (if marks[i] == Some(hash) then 1 else 0)
  {
  }

  lemma {:induction false} DropOneMore<T>(s: seq<T>, k: nat)
    ensures DropUpTo(s, k + 1) == if DropUpTo(s, k) == [] then [] else DropUpTo(s, k)[1..]
  {
  }

  method ComputeRow(x: Input, i: nat, hashMode: bool, q0: Queues) returns (q: Queues, row: Row)
    requires i < |x.rules| && hashMode == HashMode(x.previous) && (hashMode ==> Left(q0, x, i))
    ensures row == RowOf(x, i) && (hashMode ==> Left(q, x, i + 1))
  {
    var lastSync;
    q, lastSync := PreserveLastSync(x, i, hashMode, q0);
    var verdict := Verdict(x, i);
    var matched := if i < |x.matchedPods| then x.matchedPods[i] else 0;
    row := Row(x.rules[i].hash, matched, verdict.0, verdict.1, lastSync);
  }

  /** Before the first row no time is taken. */
  lemma {:induction false} NothingTaken(q: Queues, x: Input)
    requires forall hash :: Queue(q, hash) == TimesOf(x.previous, hash)
    ensures Left(q, x, 0)
  {
  }

  lemma {:induction false} PrefixGrows<T>(s: seq<T>, i: nat)
    requires i < |s|
    ensures s[..i + 1] == s[..i] + [s[i]]
  {
  }

  method ComputeRows(x: Input) returns (rows: seq<Row>)
    ensures rows == RowsOf(x)
  {
    var hashMode := HashMode(x.previous);
    var queues := BuildPreviousLastSyncBySelector(x.previous);
    NothingTaken(queues, x);
    ghost var all := RowsOf(x);
    rows := [];
    for i := 0 to |x.rules|
      invariant rows == all[..i] && (hashMode ==> Left(queues, x, i))
    {
      var row;
      queues, row := ComputeRow(x, i, hashMode, queues);
      PrefixGrows(all, i);
      rows := rows + [row];
    }
    assert all[..|all|] == all;
  }

  method ComputeStatus(x: Input, clock: Time) returns (status: Status)
    ensures IsStatus(status, x, clock)
  {
    var rows := ComputeRows(x);
    status := Status(|x.rules|, Conditions(x, clock), rows);
  }

  /** The status an input determines. */
  ghost predicate IsStatus(s: Status, x: Input, clock: Time) {
    s.mappingCount == |x.rules| && s.conditions == Conditions(x, clock) && s.rows == RowsOf(x)
  }

  // ---------------------------------------------------------------- each time has one source

  /** How many of the rows have this hash. */
  function CountHash(rows: seq<Row>, hash: string): nat
    decreases |rows|
  {
    if rows == [] then 0 else CountHash(rows[..|rows| - 1], hash) + (if rows[|rows| - 1].hash == hash then 1 else 0)
  }

  /** The row the `k`-th time of a hash came from: it has that hash and time, and exactly `k`
      rows with the hash precede it. */
  lemma {:induction false} SourceOf(rows: seq<Row>, hash: string, k: nat) returns (n: nat)
    requires k < |TimesOf(rows, hash)|
    ensures n < |rows| && rows[n].hash == hash && rows[n].lastSync == TimesOf(rows, hash)[k]
    ensures CountHash(rows[..n], hash) == k && |TimesOf(rows[..n], hash)| == k
    decreases |rows|
  {
    var front := rows[..|rows| - 1];
    if k < |TimesOf(front, hash)| {
      n := SourceOf(front, hash, k);
      assert rows[..n] == front[..n];
    } else {
      n := |front|;
      TimesCount(front, hash);
    }
  }

  lemma {:induction false} TimesCount(rows: seq<Row>, hash: string)
    ensures |TimesOf(rows, hash)| == CountHash(rows, hash)
    decreases |rows|
  {
    if rows != [] {
      TimesCount(rows[..|rows| - 1], hash);
    }
  }

  lemma {:induction false} TakenGrows(marks: seq<Option<string>>, hash: string, i: nat, j: nat)
    requires i < j <= |marks| && marks[i] == Some(hash)
    ensures Taken(marks, hash, i) < Taken(marks, hash, j)
    decreases j
  {
    if j > i + 1 {
      TakenGrows(marks, hash, i, j - 1);
    }
  }

  /** The previous row whose time row `i` shows. */
  ghost predicate Source(x: Input, i: nat, n: nat)
    requires i < |x.rules|
  {
    n < |x.previous| && x.previous[n].hash == x.rules[i].hash &&
    CountHash(x.previous[..n], x.rules[i].hash) == Taken(Marks(x), x.rules[i].hash, i) &&
    LastSync(x, i) == x.previous[n].lastSync
  }

  /** In hash mode the kept times of a hash are a first-in-first-out prefix of the previous
      ones: row `i` shows the time of the previous row with as many predecessors of its hash as
      have been kept before it; past the end nothing is invented. */
  lemma {:induction false} KeptTimesAreFifo(x: Input, i: nat)
    requires i < |x.rules| && Keeps(x, i) && exists row :: row in x.previous && row.hash != ""
    ensures if Taken(Marks(x), x.rules[i].hash, i) < CountHash(x.previous, x.rules[i].hash) then exists n :: Source(x, i, n)
            else LastSync(x, i) == 0
  {
    var hash := x.rules[i].hash;
    TimesCount(x.previous, hash);
    if Taken(Marks(x), hash, i) < CountHash(x.previous, hash) {
      var n := SourceOf(x.previous, hash, Taken(Marks(x), hash, i));
      assert Source(x, i, n);
    }
  }

  /** No previous row lends its time twice. */
  lemma {:induction false} NoTimeIsUsedTwice(x: Input, i: nat, j: nat, n: nat)
    requires i < j < |x.rules| && Keeps(x, i) && Keeps(x, j) && Source(x, i, n)
    ensures !Source(x, j, n)
  {
    if x.rules[i].hash == x.rules[j].hash {
      TakenGrows(Marks(x), x.rules[i].hash, i, j);
    }
  }

  // ---------------------------------------------------------------- recomputing is stable

  ghost predicate SameCondition(a: Condition, b: Condition) {
    a.kind == b.kind && a.status == b.status && a.reason == b.reason && a.message == b.message && a.generation == b.generation
  }

  /** `statusSemanticEqual`: everything but transition times. */
  ghost predicate SemanticEqual(a: Status, b: Status) {
    a.mappingCount == b.mappingCount && |a.conditions| == |b.conditions| && a.rows == b.rows &&
    forall i :: 0 <= i < |a.conditions| ==> SameCondition(a.conditions[i], b.conditions[i])
  }

  method StatusSemanticEqual(a: Status, b: Status) returns (equal: bool)
    ensures equal <==> SemanticEqual(a, b)
  {
    if a.mappingCount != b.mappingCount || |a.conditions| != |b.conditions| {
      return false;
    }
    for i := 0 to |a.conditions|
      invariant forall j :: 0 <= j < i ==> SameCondition(a.conditions[j], b.conditions[j])
    {
      var c, d := a.conditions[i], b.conditions[i];
      if c.kind != d.kind || c.status != d.status || c.reason != d.reason || c.message != d.message || c.generation != d.generation {
        return false;
      }
    }
    if |a.rows| != |b.rows| {
      return false;
    }
    for i := 0 to |a.rows|
      invariant forall j :: 0 <= j < i ==> a.rows[j] == b.rows[j]
    {
      if a.rows[i] != b.rows[i] {
        return false;
      }
    }
    return true;
  }

  /** The status as if no condition had ever changed. */
  ghost function Timeless(s: Status): Status {
    s.(conditions := seq(|s.conditions|, i requires 0 <= i < |s.conditions| => s.conditions[i].(transition := 0)))
  }

  /** Semantic equality is equality but for the transition times. */
  lemma {:induction false} SemanticEqualIff(a: Status, b: Status)
    ensures SemanticEqual(a, b) <==> Timeless(a) == Timeless(b)
  {
    if Timeless(a) == Timeless(b) {
      assert |Timeless(a).conditions| == |Timeless(b).conditions|;
      forall i | 0 <= i < |a.conditions| ensures SameCondition(a.conditions[i], b.conditions[i]) {
        assert Timeless(a).conditions[i] == Timeless(b).conditions[i];
      }
    }
    if SemanticEqual(a, b) {
      forall i | 0 <= i < |a.conditions| ensures Timeless(a).conditions[i] == Timeless(b).conditions[i] {
        assert SameCondition(a.conditions[i], b.conditions[i]);
      }
    }
  }

  /** A row that keeps its time is not preceded by a synced row of the same hash. */
  ghost predicate NoSyncedBefore(x: Input) {
    forall i, j :: 0 <= i < j < |x.rules| && x.rules[i].hash == x.rules[j].hash && Keeps(x, j) ==> Keeps(x, i)
  }

  lemma {:induction false} TimeAtPosition(rows: seq<Row>, i: nat)
    requires i < |rows|
    ensures CountHash(rows[..i], rows[i].hash) < |TimesOf(rows, rows[i].hash)|
    ensures TimesOf(rows, rows[i].hash)[CountHash(rows[..i], rows[i].hash)] == rows[i].lastSync
    decreases |rows|
  {
    var front := rows[..|rows| - 1];
    if i < |front| {
      TimeAtPosition(front, i);
      assert front[..i] == rows[..i];
    } else {
      TimesCount(front, rows[i].hash);
    }
  }

  /** Where every earlier row of the hash keeps its time, as many were taken as there are. */
  lemma {:induction false} TakenIsPosition(marks: seq<Option<string>>, rows: seq<Row>, hash: string, i: nat)
    requires i <= |marks| == |rows|
    requires forall j :: 0 <= j < i ==> (marks[j] == Some(hash) <==> rows[j].hash == hash)
    ensures Taken(marks, hash, i) == CountHash(rows[..i], hash)
  {
    if i > 0 {
      TakenIsPosition(marks, rows, hash, i - 1);
      assert rows[..i][..i - 1] == rows[..i - 1];
    }
  }

  lemma {:induction false} MarksAgain(x: Input, rows: seq<Row>)
    ensures Marks(x.(previous := rows)) == Marks(x)
  {
    var y := x.(previous := rows);
    forall i | 0 <= i < |x.rules| ensures Verdict(y, i) == Verdict(x, i) {}
    assert forall i :: 0 <= i < |x.rules| ==> Marks(y)[i] == Marks(x)[i];
  }

  /** Recomputing from its own output keeps the last-sync time of each row. */
  lemma {:induction false} LastSyncIsStable(x: Input, s: Status, clock: Time, i: nat)
    requires IsStatus(s, x, clock) && NoSyncedBefore(x) && i < |x.rules|
    ensures LastSync(x.(previous := s.rows), i) == LastSync(x, i)
  {
    var y := x.(previous := s.rows);
    assert Verdict(y, i) == Verdict(x, i);
    assert s.rows[i].lastSync == LastSync(x, i);
    if Keeps(x, i) && HashMode(s.rows) {
      MarksAgain(x, s.rows);
      assert forall j :: 0 <= j < i ==> s.rows[j].hash == x.rules[j].hash;
      TakenIsPosition(Marks(y), s.rows, x.rules[i].hash, i);
      TimeAtPosition(s.rows, i);
    }
  }

  lemma {:induction false} ConditionsAgain(x: Input, rows: seq<Row>, clock: Time, later: Time)
    ensures var a, b := Conditions(x, clock), Conditions(x.(previous := rows), later);
            |a| == |b| == 2 && SameCondition(a[0], b[0]) && SameCondition(a[1], b[1])
  {
  }

  /** The recomputed row differs from the row at most in its time. */
  lemma {:induction false} SameRowButTime(x: Input, rows: seq<Row>, i: nat)
    requires i < |x.rules|
    ensures RowOf(x.(previous := rows), i) == RowOf(x, i).(lastSync := LastSync(x.(previous := rows), i))
  {
    assert Verdict(x.(previous := rows), i) == Verdict(x, i);
  }

  /** So the recomputed status is semantically equal exactly when every time is shown again. */
  lemma {:induction false} EqualIffTimesAgain(x: Input, s: Status, t: Status, clock: Time, later: Time)
    requires IsStatus(s, x, clock) && IsStatus(t, x.(previous := s.rows), later)
    ensures SemanticEqual(s, t) <==> forall i :: 0 <= i < |x.rules| ==> LastSync(x.(previous := s.rows), i) == s.rows[i].lastSync
  {
    ConditionsAgain(x, s.rows, clock, later);
    forall i | 0 <= i < |x.rules|
      ensures s.rows[i] == t.rows[i] <==> LastSync(x.(previous := s.rows), i) == s.rows[i].lastSync
    {
      SameRowButTime(x, s.rows, i);
    }
  }

  /** A status recomputed from its own output with unchanged inputs is semantically equal to
      it, in hash mode and in index mode, whenever no kept row follows a synced one of its hash. */
  lemma {:induction false} RecomputeIsStable(x: Input, s: Status, t: Status, clock: Time, later: Time)
    requires IsStatus(s, x, clock) && IsStatus(t, x.(previous := s.rows), later) && NoSyncedBefore(x)
    ensures SemanticEqual(s, t)
  {
    EqualIffTimesAgain(x, s, t, clock, later);
    forall i | 0 <= i < |x.rules| ensures LastSync(x.(previous := s.rows), i) == s.rows[i].lastSync {
      LastSyncIsStable(x, s, clock, i);
    }
  }

  /** No rule has a hash, so the rows of the status are matched by index. */
  ghost predicate Hashless(x: Input) {
    forall r :: r in x.rules ==> r.hash == ""
  }

  /** Matched by index, every row finds its own time again, whatever the verdicts. */
  lemma {:induction false} IndexModeIsStable(x: Input, s: Status, t: Status, clock: Time, later: Time)
    requires IsStatus(s, x, clock) && IsStatus(t, x.(previous := s.rows), later) && Hashless(x)
    ensures SemanticEqual(s, t)
  {
    EqualIffTimesAgain(x, s, t, clock, later);
    forall i | 0 <= i < |x.rules| ensures s.rows[i].hash == "" {
      assert x.rules[i] in x.rules;
    }
    assert !HashMode(s.rows);
    forall i | 0 <= i < |x.rules| ensures LastSync(x.(previous := s.rows), i) == s.rows[i].lastSync {
      SameRowButTime(x, s.rows, i);
    }
  }

  /** No previous row shows the current time. */
  ghost predicate ClockAdvanced(x: Input) {
    x.now != 0 && forall row :: row in x.previous ==> row.lastSync != x.now
  }

  lemma {:induction false} KeptTimeIsOld(x: Input, i: nat)
    requires i < |x.rules| && Keeps(x, i) && ClockAdvanced(x)
    ensures LastSync(x, i) != x.now
  {
    var hash := x.rules[i].hash;
    if HashMode(x.previous) && Taken(Marks(x), hash, i) < |TimesOf(x.previous, hash)| {
      var n := SourceOf(x.previous, hash, Taken(Marks(x), hash, i));
      assert x.previous[n] in x.previous;
    }
  }

  /** Nothing is taken from a hash across rows that keep no time for it. */
  lemma {:induction false} TakenIsFlat(marks: seq<Option<string>>, hash: string, i: nat, j: nat)
    requires i <= j <= |marks| && forall k :: i <= k < j ==> marks[k] != Some(hash)
    ensures Taken(marks, hash, j) == Taken(marks, hash, i)
    decreases j
  {
    if i < j {
      TakenIsFlat(marks, hash, i, j - 1);
    }
  }

  /** Row `i` is synced, row `j` after it has the same hash and keeps its time. */
  ghost predicate SyncedBefore(x: Input, i: nat, j: nat) {
    i < j < |x.rules| && x.rules[i].hash == x.rules[j].hash && !Keeps(x, i) && Keeps(x, j)
  }

  /** The first kept row after the first synced row of a hash takes over its current time. */
  lemma {:induction false} FirstKeptDrifts(x: Input, s: Status, clock: Time, f: nat, g: nat)
    requires IsStatus(s, x, clock) && HashMode(s.rows) && SyncedBefore(x, f, g)
    requires forall k :: 0 <= k < f && x.rules[k].hash == x.rules[g].hash ==> Keeps(x, k)
    requires forall k :: f < k < g && x.rules[k].hash == x.rules[g].hash ==> !Keeps(x, k)
    ensures LastSync(x.(previous := s.rows), g) == x.now
  {
    var y, hash := x.(previous := s.rows), x.rules[g].hash;
    MarksAgain(x, s.rows);
    assert forall j :: 0 <= j <= f ==> s.rows[j].hash == x.rules[j].hash;
    TakenIsPosition(Marks(y), s.rows, hash, f);
    TakenIsFlat(Marks(y), hash, f, g);
    TimeAtPosition(s.rows, f);
  }

  /** A synced row before a kept one of its hash makes some row drift. */
  lemma {:induction false} SyncedBeforeMovesTime(x: Input, s: Status, clock: Time, i: nat, j: nat) returns (g: nat)
    requires IsStatus(s, x, clock) && HashMode(s.rows) && ClockAdvanced(x) && SyncedBefore(x, i, j)
    ensures g < |x.rules| && LastSync(x.(previous := s.rows), g) != s.rows[g].lastSync
    decreases i + j
  {
    if k :| 0 <= k < i && x.rules[k].hash == x.rules[j].hash && !Keeps(x, k) {
      g := SyncedBeforeMovesTime(x, s, clock, k, j);
    } else if k :| i < k < j && x.rules[k].hash == x.rules[j].hash && Keeps(x, k) {
      g := SyncedBeforeMovesTime(x, s, clock, i, k);
    } else {
      g := j;
      FirstKeptDrifts(x, s, clock, i, g);
      KeptTimeIsOld(x, g);
    }
  }

  /** Exactly when a status recomputed from its own output is semantically equal to it: no kept
      row follows a synced one of its hash, or the rows are matched by index. */
  lemma {:induction false} RecomputeIsStableIff(x: Input, s: Status, t: Status, clock: Time, later: Time)
    requires IsStatus(s, x, clock) && IsStatus(t, x.(previous := s.rows), later) && ClockAdvanced(x)
    ensures SemanticEqual(s, t) <==> NoSyncedBefore(x) || Hashless(x)
  {
    if NoSyncedBefore(x) {
      RecomputeIsStable(x, s, t, clock, later);
    } else if Hashless(x) {
      IndexModeIsStable(x, s, t, clock, later);
    } else {
      var r :| r in x.rules && r.hash != "";
      var n :| 0 <= n < |x.rules| && x.rules[n] == r;
      assert s.rows[n] in s.rows && s.rows[n].hash != "";
      var i, j :| 0 <= i < j < |x.rules| && x.rules[i].hash == x.rules[j].hash && Keeps(x, j) && !Keeps(x, i);
      var g := SyncedBeforeMovesTime(x, s, clock, i, j);
      EqualIffTimesAgain(x, s, t, clock, later);
    }
  }

  /** A pending status, and one with validation issues, always recompute to themselves. */
  lemma {:induction false} PendingIsStable(x: Input)
    requires x.phase.PhasePending? || |x.issues| > 0
    ensures NoSyncedBefore(x)
  {
  }

  /** The condition is needed: of two rules with one hash, the first synced and the second
      failing, the recomputed second row takes over the first one's time. */
  lemma {:induction false} SyncedBeforeDrifts() returns (x: Input, s: Status)
    ensures IsStatus(s, x, 0) && |x.rules| == 2 && LastSync(x.(previous := s.rows), 1) != s.rows[1].lastSync
  {
    var failing := Result("b", false, "boom");
    var earlier := Row("h", 0, Synced, NoError, 5);
    x := Input([RuleRow("h", ["a"]), RuleRow("h", ["b"])], [earlier], [failing], [], [], None, 1, PhaseFinal, 9);
    s := Status(2, Conditions(x, 0), [RowOf(x, 0), RowOf(x, 1)]);
    assert failing in x.results && earlier in x.previous;
    assert Failures(x, x.rules[0]) == {};
    assert "boom" in Failures(x, x.rules[1]);
    assert s.rows[0] in s.rows;
    FirstKeptDrifts(x, s, 0, 0, 1);
    KeptTimeIsOld(x, 1);
  }

  // ---------------------------------------------------------------- what the rows report

  /** In the final phase a row fails exactly when some action on one of its targets failed, and
      its error is then exactly those messages; otherwise it is synced now. */
  lemma {:induction false} FailuresShow(x: Input, s: Status, clock: Time, i: nat)
    requires IsStatus(s, x, clock) && i < |x.rules| && x.issues == [] && x.phase.PhaseFinal?
    requires x.reconcileError.None? || x.results != []
    ensures s.rows[i].state == SyncError <==> exists r :: r in x.results && !r.success && r.target in x.rules[i].targets
    ensures s.rows[i].state == SyncError ==> s.rows[i].error.Sorted?
    ensures s.rows[i].state == SyncError ==>
              forall message :: message in s.rows[i].error.distinct <==>
                exists r :: r in x.results && !r.success && r.target in x.rules[i].targets && r.message == message
    ensures s.rows[i].state != SyncError ==> s.rows[i].state == Synced && s.rows[i].error == NoError && s.rows[i].lastSync == x.now
  {
    if r :| r in x.results && !r.success && r.target in x.rules[i].targets {
      assert r.message in Failures(x, x.rules[i]);
    }
  }

  /** In the other cases all rows report the same: pending, or a reconcile error that left no results. */
  lemma {:induction false} OtherwiseAllShow(x: Input, s: Status, clock: Time, i: nat)
    requires IsStatus(s, x, clock) && i < |x.rules| && x.issues == []
    ensures x.phase.PhasePending? ==> s.rows[i].state == SyncPending && s.rows[i].error == NoError
    ensures x.phase.PhaseFinal? && x.reconcileError.Some? && x.results == [] ==>
              s.rows[i].state == SyncError && s.rows[i].error == Listed([x.reconcileError.value])
  {
  }

  /** `at` lists, in order, where the issues of a rule are, and `messages` what they say. */
  ghost predicate Locates(at: seq<nat>, issues: seq<Issue>, rule: int, messages: seq<string>) {
    |at| == |messages| &&
    (forall k :: 0 <= k < |at| ==> at[k] < |issues| && issues[at[k]].rule == rule && issues[at[k]].message == messages[k]) &&
    (forall k, l :: 0 <= k < l < |at| ==> at[k] < at[l]) &&
    (forall j: nat :: j < |issues| && issues[j].rule == rule ==> j in at)
  }

  lemma {:induction false} LocatesMore(at: seq<nat>, issues: seq<Issue>, issue: Issue, rule: int, messages: seq<string>)
    requires Locates(at, issues, rule, messages)
    ensures issue.rule == rule ==> Locates(at + [|issues|], issues + [issue], rule, messages + [issue.message])
    ensures issue.rule != rule ==> Locates(at, issues + [issue], rule, messages)
  {
    var more := issues + [issue];
    forall j: nat | j < |more| && more[j].rule == rule ensures j in at + [|issues|] {
      if j < |issues| {
        assert issues[j].rule == rule;
      }
    }
    forall j: nat | j < |issues| && more[j].rule == rule ensures j in at {
      assert issues[j].rule == rule;
    }
  }

  /** The messages of a rule are those of its issues, in order. */
  lemma {:induction false} MessagesInOrder(issues: seq<Issue>, rule: int) returns (at: seq<nat>)
    ensures Locates(at, issues, rule, MessagesFor(issues, rule))
    decreases |issues|
  {
    at := [];
    if issues != [] {
      var front, last := issues[..|issues| - 1], issues[|issues| - 1];
      at := MessagesInOrder(front, rule);
      LocatesMore(at, front, last, rule, MessagesFor(front, rule));
      assert issues == front + [last];
      if last.rule == rule {
        at := at + [|front|];
      }
    }
  }

  /** With an invalid spec every row fails, with the messages of its own issues or, without any, a
      general one. */
  lemma {:induction false} IssuesShow(x: Input, s: Status, clock: Time, i: nat)
    requires IsStatus(s, x, clock) && i < |x.rules| && x.issues != []
    ensures s.rows[i].state == SyncError && s.rows[i].error.Listed?
    ensures if exists issue :: issue in x.issues && issue.rule == i
            then forall message :: message in s.rows[i].error.messages <==> exists issue :: issue in x.issues && issue.rule == i && issue.message == message
            else s.rows[i].error.messages == ["spec validation failed"]
  {
    var messages := MessagesFor(x.issues, i);
    var at := MessagesInOrder(x.issues, i);
    assert messages == [] || messages[0] in messages;
    forall message | message in messages ensures exists issue :: issue in x.issues && issue.rule == i && issue.message == message {
      var k :| 0 <= k < |messages| && messages[k] == message;
      assert x.issues[at[k]] in x.issues;
    }
    forall issue | issue in x.issues && issue.rule == i ensures issue.message in messages {
      var j: nat :| j < |x.issues| && x.issues[j] == issue;
      var k :| 0 <= k < |at| && at[k] == j;
      assert messages[k] == issue.message;
    }
  }

  /** Every row is that of its rule; a synced row shows the current time and, where rows are
      matched by index, any other row the time of the previous row in its place. */
  lemma {:induction false} RowsFollowRules(x: Input, s: Status, clock: Time, i: nat)
    requires IsStatus(s, x, clock) && i < |x.rules|
    ensures |s.rows| == |x.rules| && s.rows[i].hash == x.rules[i].hash
    ensures i < |x.matchedPods| ==> s.rows[i].matchedPods == x.matchedPods[i]
    ensures i >= |x.matchedPods| ==> s.rows[i].matchedPods == 0
    ensures s.rows[i].state == Synced ==> s.rows[i].lastSync == x.now
    ensures s.rows[i].state != Synced && (forall row :: row in x.previous ==> row.hash == "") ==>
              s.rows[i].lastSync == if i < |x.previous| then x.previous[i].lastSync else 0
  {
  }

  /** The conditions, exactly: accepted if and only if there is no issue; reconciled if and only
      if, moreover, the reconcile is over and nothing failed. */
  lemma {:induction false} ReconciledIff(x: Input, clock: Time)
    ensures |Conditions(x, clock)| == 2 && Conditions(x, clock)[0].kind == "Accepted" && Conditions(x, clock)[1].kind == "Reconciled"
    ensures Conditions(x, clock)[0].status == "True" <==> x.issues == []
    ensures Conditions(x, clock)[1].status == "True" <==>
            x.issues == [] && x.phase.PhaseFinal? && x.reconcileError.None? && forall r :: r in x.results ==> r.success
    ensures Conditions(x, clock)[1].status == "Unknown" <==> x.issues == [] && x.phase.PhasePending?
    ensures forall c :: c in Conditions(x, clock) ==> c.generation == x.generation && c.transition == clock
    ensures x.issues != [] ==> Conditions(x, clock)[0].message.Listed? && |Conditions(x, clock)[0].message.messages| == |x.issues|
    ensures x.issues != [] ==>
              forall i :: 0 <= i < |x.issues| ==> Conditions(x, clock)[0].message.messages[i] == x.issues[i].message
    ensures x.issues == [] && x.phase.PhaseFinal? && x.reconcileError.Some? ==>
              Conditions(x, clock)[1].status == "False" && Conditions(x, clock)[1].message == Listed([x.reconcileError.value])
  {
    assert "True"[0] != "Unknown"[0] && "True"[0] != "False"[0] && "Unknown"[0] != "False"[0];
  }

  /** The conditions and the rows tell one story: a reconciled mapping has only synced rows, a
      pending one only pending rows, an invalid one only failing rows. */
  lemma {:induction false} ConditionsMatchRows(x: Input, s: Status, clock: Time, i: nat)
    requires IsStatus(s, x, clock) && i < |x.rules|
    ensures |s.conditions| == 2
    ensures s.conditions[1].status == "True" ==> s.rows[i].state == Synced && s.rows[i].lastSync == x.now
    ensures s.conditions[1].status == "Unknown" ==> s.rows[i].state == SyncPending
    ensures s.conditions[0].status == "False" ==> s.rows[i].state == SyncError && s.conditions[1].status == "False"
    ensures s.rows[i].state == SyncError ==> s.rows[i].error != NoError && s.conditions[1].status == "False"
  {
    if s.conditions[1].status == "True" {
      assert Failures(x, x.rules[i]) == {};
    }
  }
}
