/** The task store of `TaskOperationProcessor` as a value: the record map, the
    submission order and the index counter, with one function per critical
    section. The class in TaskProcessor.dfy is proved against these. */
module TaskStore {
  import opened Common
  import opened Json
  import Decimal

  datatype Status = Working | InputRequired | Completed | Failed | Cancelled

  predicate IsTerminal(s: Status) { s == Completed || s == Failed || s == Cancelled }

  /** Nanoseconds on the steady clock. */
  type Time = int

  const SECOND := 1_000_000_000
  const MILLISECOND := 1_000_000

  /** A task id by the index it was made from; `Name` is the wire form. */
  datatype TaskId = TaskId(index: nat)

  function Name(id: TaskId): string { "task-" + Decimal.ToString(id.index) }

  /** The id a name stands for: a key lookup by name finds what this finds. */
  function ParseName(name: string): Option<TaskId> {
    if |name| > 5 && Decimal.AllDigits(name[5..]) && Name(TaskId(Decimal.Value(name[5..]))) == name
    then Some(TaskId(Decimal.Value(name[5..]))) else None
  }

  /** Names and ids correspond one to one, so keying by either is the same. */
  lemma NamesAreKeys(id: TaskId, name: string)
    ensures ParseName(name) == Some(id) <==> Name(id) == name
    ensures ParseName("task-" + Decimal.ToString(id.index)) == Some(id)
  {
    Decimal.ToStringDenotes(id.index);
    assert Name(id)[5..] == Decimal.ToString(id.index);
  }

  datatype Task = Task(id: TaskId, status: Status, message: Option<string>, ttl: int)

  datatype Record = Record(
    task: Task,
    startedAt: Time,
    terminalAt: Option<Time>,
    timeout: Option<int>,      // seconds
    cancelRequested: bool,     // the flag of the record's CancellationSource
    result: Option<Json>,
    failure: Option<Error>)
  {
    predicate Terminal() { IsTerminal(task.status) }
  }

  datatype Options = Options(
    defaultTimeout: int,            // seconds
    completedTtl: Option<int>,      // milliseconds
    maxCompleted: nat,
    pageSize: nat)

  datatype Store = Store(tasks: map<TaskId, Record>, order: seq<TaskId>, next: nat)

  const EMPTY := Store(map[], [], 1)

  // -------------------------------------------------------------- invariants

  predicate Increasing(ids: seq<TaskId>) {
    forall i, j :: 0 <= i < j < |ids| ==> ids[i].index < ids[j].index
  }

  /** `order_` holds exactly the keys of `tasks_`. */
  ghost predicate Agree(tasks: map<TaskId, Record>, order: seq<TaskId>) {
    forall id :: id in tasks <==> id in order
  }

  predicate RecordOk(id: TaskId, r: Record) {
    && r.task.id == id
    && r.task.status != InputRequired
    && (r.task.status == Completed <==> r.result.Some?)
    && (r.task.status in {Failed, Cancelled} <==> r.failure.Some?)
    && (r.Terminal() <==> r.terminalAt.Some?)
    && (r.terminalAt.Some? ==> r.startedAt <= r.terminalAt.value)
    && (r.task.status == Cancelled ==> r.cancelRequested)
    && (r.cancelRequested ==> r.task.status in {Failed, Cancelled})
  }

  /** The map and the vector list the same ids, once each, and every record is in order. */
  ghost predicate Tidy(s: Store) {
    && Agree(s.tasks, s.order)
    && NoDup(s.order)
    && (forall id :: id in s.tasks ==> RecordOk(id, s.tasks[id]))
  }

  /** The index of `id` has been handed out, the counter not having gone past its
      wrap: a counter at 0 has handed out every index but 0. */
  predicate Issued(id: TaskId, next: nat) {
    1 <= id.index < if next == 0 then SIZE_MODULUS else next
  }

  /** What holds besides as long as the counter has not gone past its wrap. */
  ghost predicate Inv(s: Store) {
    && Tidy(s)
    && Increasing(s.order)
    && (forall id :: id in s.order ==> Issued(id, s.next))
  }

  // -------------------------------------------------------------------- trim

  predicate Expired(r: Record, ttl: Option<int>, now: Time) {
    && ttl.Some?
    && r.Terminal()
    && r.terminalAt.Some?
    && now - r.terminalAt.value >= ttl.value * MILLISECOND
  }

  predicate TerminalIn(tasks: map<TaskId, Record>, id: TaskId) {
    id in tasks && tasks[id].Terminal()
  }

  predicate ExpiredIn(tasks: map<TaskId, Record>, id: TaskId, ttl: Option<int>, now: Time) {
    id in tasks && Expired(tasks[id], ttl, now)
  }

  function Unexpired(ids: seq<TaskId>, tasks: map<TaskId, Record>, ttl: Option<int>, now: Time): seq<TaskId> {
    if ids == [] then []
    else (if ExpiredIn(tasks, ids[0], ttl, now) then [] else [ids[0]]) + Unexpired(ids[1..], tasks, ttl, now)
  }

  function CountTerminal(ids: seq<TaskId>, tasks: map<TaskId, Record>): nat {
    if ids == [] then 0
    else (if TerminalIn(tasks, ids[0]) then 1 else 0) + CountTerminal(ids[1..], tasks)
  }

  /** Drops the first `k` terminal ids. */
  function DropTerminal(ids: seq<TaskId>, tasks: map<TaskId, Record>, k: nat): seq<TaskId> {
    if ids == [] || k == 0 then ids
    else if TerminalIn(tasks, ids[0]) then DropTerminal(ids[1..], tasks, k - 1)
    else [ids[0]] + DropTerminal(ids[1..], tasks, k)
  }

  function Excess(count: nat, limit: nat): nat { if count > limit then count - limit else 0 }

  function Restrict(tasks: map<TaskId, Record>, ids: seq<TaskId>): map<TaskId, Record> {
    map id | id in tasks && id in ids :: tasks[id]
  }

  function TrimOrder(ids: seq<TaskId>, tasks: map<TaskId, Record>, opts: Options, now: Time): seq<TaskId> {
    var live := Unexpired(ids, tasks, opts.completedTtl, now);
    DropTerminal(live, tasks, Excess(CountTerminal(live, tasks), opts.maxCompleted))
  }

  function Trim(s: Store, opts: Options, now: Time): Store {
    var order := TrimOrder(s.order, s.tasks, opts, now);
    Store(Restrict(s.tasks, order), order, s.next)
  }

  lemma ConsIncreasing(id: TaskId, rest: seq<TaskId>)
    requires Increasing(rest) && forall x :: x in rest ==> id.index < x.index
    ensures Increasing([id] + rest)
  {
    var ids := [id] + rest;
    forall i, j | 0 <= i < j < |ids| ensures ids[i].index < ids[j].index {
      assert ids[j] == rest[j - 1];
      if i > 0 { assert ids[i] == rest[i - 1]; }
    }
  }

  lemma AppendIncreasing(ids: seq<TaskId>, id: TaskId)
    requires Increasing(ids) && forall x :: x in ids ==> x.index < id.index
    ensures Increasing(ids + [id])
  {
    var all := ids + [id];
    forall i, j | 0 <= i < j < |all| ensures all[i].index < all[j].index {
      assert all[i] == ids[i] && ids[i] in ids;
    }
  }

  lemma {:induction false} UnexpiredExact(ids: seq<TaskId>, tasks: map<TaskId, Record>, ttl: Option<int>, now: Time)
    requires Increasing(ids)
    ensures Increasing(Unexpired(ids, tasks, ttl, now))
    ensures forall id :: id in Unexpired(ids, tasks, ttl, now) <==> id in ids && !ExpiredIn(tasks, id, ttl, now)
  {
    if ids != [] {
      UnexpiredExact(ids[1..], tasks, ttl, now);
      assert ids == [ids[0]] + ids[1..];
      ConsIncreasing(ids[0], Unexpired(ids[1..], tasks, ttl, now));
    }
  }

  /** The terminal ids of `ids` submitted after `id`. */
  function NewerTerminal(ids: seq<TaskId>, tasks: map<TaskId, Record>, id: TaskId): set<TaskId> {
    set x | x in ids && TerminalIn(tasks, x) && x.index > id.index
  }

  function TerminalSet(ids: seq<TaskId>, tasks: map<TaskId, Record>): set<TaskId> {
    set x | x in ids && TerminalIn(tasks, x)
  }

  lemma {:induction false} CountIsCardinality(ids: seq<TaskId>, tasks: map<TaskId, Record>)
    requires NoDup(ids)
    ensures CountTerminal(ids, tasks) == |TerminalSet(ids, tasks)|
  {
    if ids != [] {
      CountIsCardinality(ids[1..], tasks);
      TerminalSetCons(ids, tasks);
    }
  }

  lemma TerminalSetCons(ids: seq<TaskId>, tasks: map<TaskId, Record>)
    requires NoDup(ids) && ids != []
    ensures |TerminalSet(ids, tasks)| == |TerminalSet(ids[1..], tasks)| + if TerminalIn(tasks, ids[0]) then 1 else 0
  {
    var rest := TerminalSet(ids[1..], tasks);
    assert ids == [ids[0]] + ids[1..];
    assert ids[0] !in rest;
    if TerminalIn(tasks, ids[0]) {
      assert TerminalSet(ids, tasks) == {ids[0]} + rest;
    } else {
      assert TerminalSet(ids, tasks) == rest;
    }
  }

  /** Whether id `id` of an increasing list has its place under `limit`. */
  predicate WithinLimit(ids: seq<TaskId>, tasks: map<TaskId, Record>, limit: nat, id: TaskId) {
    TerminalIn(tasks, id) ==> |NewerTerminal(ids, tasks, id)| < limit
  }

  lemma {:induction false} DropKeepsOrder(ids: seq<TaskId>, tasks: map<TaskId, Record>, k: nat)
    requires Increasing(ids)
    ensures Increasing(DropTerminal(ids, tasks, k))
    ensures forall id :: id in DropTerminal(ids, tasks, k) ==> id in ids
  {
    if ids != [] && k > 0 {
      assert ids == [ids[0]] + ids[1..];
      if TerminalIn(tasks, ids[0]) {
        DropKeepsOrder(ids[1..], tasks, k - 1);
      } else {
        DropKeepsOrder(ids[1..], tasks, k);
        ConsIncreasing(ids[0], DropTerminal(ids[1..], tasks, k));
      }
    }
  }

  lemma DropHead(ids: seq<TaskId>, tasks: map<TaskId, Record>, limit: nat)
    requires Increasing(ids) && ids != [] && CountTerminal(ids, tasks) > limit
    ensures ids[0] in DropTerminal(ids, tasks, Excess(CountTerminal(ids, tasks), limit))
            <==> WithinLimit(ids, tasks, limit, ids[0])
  {
    if TerminalIn(tasks, ids[0]) {
      assert ids[0] !in ids[1..];
      DropKeepsOrder(ids[1..], tasks, Excess(CountTerminal(ids, tasks), limit) - 1);
      HeadWithinLimit(ids, tasks, limit);
    }
  }

  lemma DropTail(ids: seq<TaskId>, tasks: map<TaskId, Record>, limit: nat, id: TaskId)
    requires ids != [] && id != ids[0] && CountTerminal(ids, tasks) > limit
    ensures id in DropTerminal(ids, tasks, Excess(CountTerminal(ids, tasks), limit))
            <==> id in DropTerminal(ids[1..], tasks, Excess(CountTerminal(ids[1..], tasks), limit))
  {
  }

  lemma {:induction false} DropExact(ids: seq<TaskId>, tasks: map<TaskId, Record>, limit: nat, id: TaskId)
    requires Increasing(ids) && id in ids
    ensures id in DropTerminal(ids, tasks, Excess(CountTerminal(ids, tasks), limit))
            <==> WithinLimit(ids, tasks, limit, id)
  {
    if CountTerminal(ids, tasks) <= limit {
      AllWithinLimit(ids, tasks, limit, id);
    } else if id == ids[0] {
      DropHead(ids, tasks, limit);
    } else {
      NewerInRest(ids, tasks, id);
      DropExact(ids[1..], tasks, limit, id);
      DropTail(ids, tasks, limit, id);
    }
  }

  lemma NewerInRest(ids: seq<TaskId>, tasks: map<TaskId, Record>, id: TaskId)
    requires Increasing(ids) && ids != [] && id in ids[1..]
    ensures NewerTerminal(ids, tasks, id) == NewerTerminal(ids[1..], tasks, id)
  {
    assert ids == [ids[0]] + ids[1..];
  }

  lemma AllWithinLimit(ids: seq<TaskId>, tasks: map<TaskId, Record>, limit: nat, id: TaskId)
    requires Increasing(ids) && CountTerminal(ids, tasks) <= limit && id in ids
    ensures WithinLimit(ids, tasks, limit, id)
  {
    CountIsCardinality(ids, tasks);
    if TerminalIn(tasks, id) {
      ProperSubsetIsSmaller(NewerTerminal(ids, tasks, id), TerminalSet(ids, tasks), id);
    }
  }

  lemma HeadWithinLimit(ids: seq<TaskId>, tasks: map<TaskId, Record>, limit: nat)
    requires Increasing(ids) && ids != [] && TerminalIn(tasks, ids[0])
    ensures WithinLimit(ids, tasks, limit, ids[0]) <==> CountTerminal(ids, tasks) <= limit
  {
    CountIsCardinality(ids[1..], tasks);
    assert ids == [ids[0]] + ids[1..];
    assert NewerTerminal(ids, tasks, ids[0]) == TerminalSet(ids[1..], tasks);
  }

  lemma ProperSubsetIsSmaller(a: set<TaskId>, b: set<TaskId>, x: TaskId)
    requires a <= b && x in b && x !in a
    ensures |a| < |b|
  {
    SubsetIsNoLarger(a, b - {x});
  }

  lemma {:induction false} SubsetIsNoLarger(a: set<TaskId>, b: set<TaskId>)
    requires a <= b
    ensures |a| <= |b|
  {
    if a != {} {
      var x :| x in a;
      SubsetIsNoLarger(a - {x}, b - {x});
    }
  }

  // -------------------------------------------- what a trim does to any list

  lemma ConsNoDup(id: TaskId, rest: seq<TaskId>)
    requires NoDup(rest) && id !in rest
    ensures NoDup([id] + rest)
  {
  }

  lemma {:induction false} UnexpiredMembers(ids: seq<TaskId>, tasks: map<TaskId, Record>, ttl: Option<int>, now: Time)
    requires NoDup(ids)
    ensures NoDup(Unexpired(ids, tasks, ttl, now))
    ensures forall id :: id in Unexpired(ids, tasks, ttl, now) <==> id in ids && !ExpiredIn(tasks, id, ttl, now)
  {
    if ids != [] {
      UnexpiredMembers(ids[1..], tasks, ttl, now);
      assert ids == [ids[0]] + ids[1..];
      ConsNoDup(ids[0], Unexpired(ids[1..], tasks, ttl, now));
    }
  }

  lemma {:induction false} DropMembers(ids: seq<TaskId>, tasks: map<TaskId, Record>, k: nat)
    requires NoDup(ids)
    ensures NoDup(DropTerminal(ids, tasks, k))
    ensures forall id :: id in DropTerminal(ids, tasks, k) ==> id in ids
    ensures forall id :: id in ids && !TerminalIn(tasks, id) ==> id in DropTerminal(ids, tasks, k)
  {
    if ids != [] && k > 0 {
      assert ids == [ids[0]] + ids[1..];
      if TerminalIn(tasks, ids[0]) {
        DropMembers(ids[1..], tasks, k - 1);
      } else {
        DropMembers(ids[1..], tasks, k);
        ConsNoDup(ids[0], DropTerminal(ids[1..], tasks, k));
      }
    }
  }

  /** Whatever the order of the indices, a trim keeps the store tidy, leaves the
      records it keeps as they are, and keeps every task that is not terminal. */
  lemma TrimKeepsTidy(s: Store, opts: Options, now: Time)
    requires Tidy(s)
    ensures var t := Trim(s, opts, now);
      && Tidy(t) && t.next == s.next
      && (forall id :: id in t.tasks ==> id in s.tasks && t.tasks[id] == s.tasks[id])
      && (forall id :: id in s.tasks && !s.tasks[id].Terminal() ==> id in t.tasks)
  {
    var live := Unexpired(s.order, s.tasks, opts.completedTtl, now);
    UnexpiredMembers(s.order, s.tasks, opts.completedTtl, now);
    DropMembers(live, s.tasks, Excess(CountTerminal(live, s.tasks), opts.maxCompleted));
  }

  /** The task ended a number of milliseconds ago that the store no longer retains it for. */
  predicate Outlived(r: Record, ttl: Option<int>, now: Time) {
    r.Terminal() && r.terminalAt.Some? && ttl.Some? && now >= r.terminalAt.value + ttl.value * 1_000_000
  }

  /** The terminal tasks submitted after `id` that are not outlived. */
  function NewerRetained(s: Store, opts: Options, now: Time, id: TaskId): set<TaskId> {
    set x | x in s.tasks && s.tasks[x].Terminal() && !Outlived(s.tasks[x], opts.completedTtl, now)
            && x.index > id.index
  }

  /** Whether trimming keeps `id`: said by age and count, with no list. */
  predicate Survives(s: Store, opts: Options, now: Time, id: TaskId) {
    && id in s.tasks
    && !Outlived(s.tasks[id], opts.completedTtl, now)
    && (s.tasks[id].Terminal() ==> |NewerRetained(s, opts, now, id)| < opts.maxCompleted)
  }

  /** Trimming keeps a record, untouched, exactly when it is unexpired and is
      Working or has fewer than `maxCompleted` unexpired terminal tasks
      submitted after it. The invariant that comes with it fixes the order. */
  lemma TrimKeepsExactlyTheSurvivors(s: Store, opts: Options, now: Time)
    requires Inv(s)
    ensures Inv(Trim(s, opts, now)) && Trim(s, opts, now).next == s.next
    ensures forall id :: id in Trim(s, opts, now).tasks <==> Survives(s, opts, now, id)
    ensures forall id :: id in Trim(s, opts, now).tasks ==> Trim(s, opts, now).tasks[id] == s.tasks[id]
  {
    var live := Unexpired(s.order, s.tasks, opts.completedTtl, now);
    UnexpiredExact(s.order, s.tasks, opts.completedTtl, now);
    DropKeepsOrder(live, s.tasks, Excess(CountTerminal(live, s.tasks), opts.maxCompleted));
    forall id ensures id in Trim(s, opts, now).tasks <==> Survives(s, opts, now, id) {
      if id in live {
        DropExact(live, s.tasks, opts.maxCompleted, id);
        assert NewerTerminal(live, s.tasks, id) == NewerRetained(s, opts, now, id);
      }
    }
  }

  lemma {:induction false} CountAfterDrop(ids: seq<TaskId>, tasks: map<TaskId, Record>, k: nat)
    requires k <= CountTerminal(ids, tasks)
    ensures CountTerminal(DropTerminal(ids, tasks, k), tasks) == CountTerminal(ids, tasks) - k
  {
    if ids != [] && k > 0 {
      if TerminalIn(tasks, ids[0]) {
        CountAfterDrop(ids[1..], tasks, k - 1);
      } else {
        CountAfterDrop(ids[1..], tasks, k);
        assert ([ids[0]] + DropTerminal(ids[1..], tasks, k))[1..] == DropTerminal(ids[1..], tasks, k);
      }
    }
  }

  /** At most `maxCompleted` terminal tasks remain, and exactly as many as the limit
      allows of those that had not expired. */
  lemma TrimBoundsTerminalTasks(s: Store, opts: Options, now: Time)
    requires Tidy(s)
    ensures |TerminalSet(Trim(s, opts, now).order, s.tasks)|
         == Min(|TerminalSet(Unexpired(s.order, s.tasks, opts.completedTtl, now), s.tasks)|, opts.maxCompleted)
  {
    var live := Unexpired(s.order, s.tasks, opts.completedTtl, now);
    UnexpiredMembers(s.order, s.tasks, opts.completedTtl, now);
    var k := Excess(CountTerminal(live, s.tasks), opts.maxCompleted);
    DropMembers(live, s.tasks, k);
    CountAfterDrop(live, s.tasks, k);
    CountIsCardinality(live, s.tasks);
    CountIsCardinality(Trim(s, opts, now).order, s.tasks);
  }
}
