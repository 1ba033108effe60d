/** `TaskOperationProcessor`: the class whose methods edit the map and the
    vector in place, each proved against the function for its lock hold. */
module TaskProcessor {
  import opened Common
  import opened Json
  import opened TaskStore
  import opened TaskSteps
  import opened TaskPaging
  import Decimal

  // ------------------------------------------------------- erasing one entry

  function WithoutAt(ids: seq<TaskId>, i: nat): seq<TaskId>
    requires i < |ids|
  {
    ids[..i] + ids[i + 1..]
  }

  lemma WithoutAtExact(ids: seq<TaskId>, i: nat)
    requires i < |ids| && NoDup(ids)
    ensures NoDup(WithoutAt(ids, i))
    ensures forall x :: x in WithoutAt(ids, i) <==> x in ids && x != ids[i]
  {
    var rest := WithoutAt(ids, i);
    assert forall j :: 0 <= j < |rest| ==> rest[j] == if j < i then ids[j] else ids[j + 1];
    forall x | x in ids && x != ids[i] ensures x in rest {
      var j :| 0 <= j < |ids| && ids[j] == x;
      assert rest[if j < i then j else j - 1] == x;
    }
  }

  /** `std::remove` followed by `erase`. */
  method RemoveId(ids: seq<TaskId>, id: TaskId) returns (kept: seq<TaskId>)
    ensures kept == RemoveAll(ids, id)
  {
    kept := [];
    assert ids[0..] == ids;
    for i := 0 to |ids|
      invariant kept + RemoveAll(ids[i..], id) == RemoveAll(ids, id)
    {
      RemoveStep(kept, ids, i, id);
      if ids[i] != id {
        kept := kept + [ids[i]];
      }
    }
  }

  lemma RemoveStep(kept: seq<TaskId>, ids: seq<TaskId>, i: nat, id: TaskId)
    requires i < |ids|
    ensures kept + RemoveAll(ids[i..], id)
         == (if ids[i] != id then kept + [ids[i]] else kept) + RemoveAll(ids[i + 1..], id)
  {
    assert ids[i..][1..] == ids[i + 1..];
    if ids[i] != id { Associates(kept, [ids[i]], RemoveAll(ids[i + 1..], id)); }
  }

  /** What the vector will be when the expiry pass stands at `i`. */
  ghost function ExpiryPass(ids: seq<TaskId>, i: nat, was: map<TaskId, Record>, ttl: Option<int>, now: Time): seq<TaskId>
    requires i <= |ids|
  {
    ids[..i] + Unexpired(ids[i..], was, ttl, now)
  }

  lemma ExpiryPassStep(ids: seq<TaskId>, i: nat, was: map<TaskId, Record>, ttl: Option<int>, now: Time)
    requires i < |ids|
    ensures ExpiryPass(ids, i, was, ttl, now) ==
            if ExpiredIn(was, ids[i], ttl, now) then ExpiryPass(WithoutAt(ids, i), i, was, ttl, now)
            else ExpiryPass(ids, i + 1, was, ttl, now)
  {
    assert ids[i..][1..] == ids[i + 1..];
    assert WithoutAt(ids, i)[..i] == ids[..i] && WithoutAt(ids, i)[i..] == ids[i + 1..];
    assert ids[..i + 1] == ids[..i] + [ids[i]];
  }

  /** What the vector will be when the count pass stands at `i`, `k` to go. */
  ghost function CountPass(ids: seq<TaskId>, i: nat, was: map<TaskId, Record>, k: nat): seq<TaskId>
    requires i <= |ids|
  {
    ids[..i] + DropTerminal(ids[i..], was, k)
  }

  lemma CountPassStep(ids: seq<TaskId>, i: nat, was: map<TaskId, Record>, k: nat)
    requires i < |ids| && k > 0
    ensures CountPass(ids, i, was, k) ==
            if TerminalIn(was, ids[i]) then CountPass(WithoutAt(ids, i), i, was, k - 1)
            else CountPass(ids, i + 1, was, k)
  {
    assert ids[i..][1..] == ids[i + 1..];
    assert WithoutAt(ids, i)[..i] == ids[..i] && WithoutAt(ids, i)[i..] == ids[i + 1..];
    assert ids[..i + 1] == ids[..i] + [ids[i]];
  }

  lemma CountPassEnds(ids: seq<TaskId>, i: nat, was: map<TaskId, Record>, k: nat)
    requires i <= |ids|
    ensures i == 0 ==> CountPass(ids, i, was, k) == DropTerminal(ids, was, k)
    ensures k == 0 || i == |ids| ==> CountPass(ids, i, was, k) == ids
  {
    assert ids[0..] == ids;
    assert ids == ids[..i] + ids[i..];
  }

  function TasksInOrder(s: Store): seq<Task>
    requires forall id :: id in s.order ==> id in s.tasks
  {
    seq(|s.order|, i requires 0 <= i < |s.order| => s.tasks[s.order[i]].task)
  }

  class TaskOperationProcessor {
    const opts: Options
    var tasks: map<TaskId, Record>
    var order: seq<TaskId>
    var next: nat

    ghost function Snapshot(): Store
      reads this
    {
      Store(tasks, order, next)
    }

    ghost predicate Valid()
      reads this
    {
      Tidy(Snapshot())
    }

    /** Every task was started by `now`. */
    ghost predicate StartedBy(now: Time)
      reads this
    {
      forall id :: id in tasks ==> tasks[id].startedAt <= now
    }

    constructor (opts: Options)
      ensures this.opts == opts && Snapshot() == EMPTY && Valid()
    {
      this.opts := opts;
      tasks := map[];
      order := [];
      next := 1;
    }

    /** `trim_completed_locked`: two passes that erase from the vector and the
        map as they go, with a counting pass between them. */
    method TrimCompletedLocked(now: Time)
      requires Valid()
      modifies this`tasks, this`order
      ensures Snapshot() == Trim(old(Snapshot()), opts, now)
      ensures Valid()
    {
      ghost var before := Snapshot();
      EraseExpired(now);
      var count := CountTerminalTasks(before.tasks);
      EraseOldestTerminal(count, before.tasks);
      assert tasks == Restrict(before.tasks, order);
      TrimKeepsTidy(before, opts, now);
    }

    method CountTerminalTasks(ghost was: map<TaskId, Record>) returns (count: nat)
      requires Tracks(was)
      ensures count == CountTerminal(order, was)
    {
      count := 0;
      assert order[0..] == order;
      for i := 0 to |order|
        invariant count + CountTerminal(order[i..], was) == CountTerminal(order, was)
      {
        assert order[i..][1..] == order[i + 1..];
        if order[i] in tasks && tasks[order[i]].Terminal() {
          count := count + 1;
        }
      }
    }

    /** The map holds the records of `was` for exactly the ids in the vector. */
    ghost predicate Tracks(was: map<TaskId, Record>)
      reads this
    {
      && NoDup(order)
      && Agree(tasks, order)
      && forall id :: id in tasks ==> id in was && tasks[id] == was[id]
    }

    /** One `erase` from the map and the vector. */
    method EraseAt(i: nat, ghost was: map<TaskId, Record>)
      requires i < |order| && Tracks(was)
      modifies this`tasks, this`order
      ensures Tracks(was) && order == WithoutAt(old(order), i)
    {
      WithoutAtExact(order, i);
      tasks := tasks - {order[i]};
      order := order[..i] + order[i + 1..];
    }

    method EraseExpired(now: Time)
      requires Tracks(tasks)
      modifies this`tasks, this`order
      ensures Tracks(old(tasks))
      ensures order == Unexpired(old(order), old(tasks), opts.completedTtl, now)
    {
      ghost var was := tasks;
      if opts.completedTtl.None? {
        NothingExpires(order, tasks, now);
        return;
      }
      var i := 0;
      assert ExpiryPass(order, 0, was, opts.completedTtl, now) == Unexpired(order, was, opts.completedTtl, now) by {
        assert order[0..] == order;
      }
      while i < |order|
        invariant 0 <= i <= |order| && Tracks(was)
        invariant ExpiryPass(order, i, was, opts.completedTtl, now)
               == Unexpired(old(order), was, opts.completedTtl, now)
        decreases |order| - i
      {
        ExpiryPassStep(order, i, was, opts.completedTtl, now);
        if order[i] in tasks && Expired(tasks[order[i]], opts.completedTtl, now) {
          EraseAt(i, was);
        } else {
          i := i + 1;
        }
      }
      assert order == order[..i] + [];
    }

    /** The count pass stands at `i` with `k` terminal ids to go, on its way to `target`. */
    ghost predicate Erasing(i: nat, was: map<TaskId, Record>, k: nat, target: seq<TaskId>)
      reads this
    {
      i <= |order| && Tracks(was) && CountPass(order, i, was, k) == target
    }

    method EraseOldestTerminal(terminalCount: nat, ghost was: map<TaskId, Record>)
      requires Tracks(was)
      modifies this`tasks, this`order
      ensures Tracks(was)
      ensures order == DropTerminal(old(order), was, Excess(terminalCount, opts.maxCompleted))
    {
      var count := terminalCount;
      var i: nat := 0;
      ghost var k: nat := Excess(count, opts.maxCompleted);
      ghost var target := DropTerminal(order, was, k);
      CountPassEnds(order, 0, was, k);
      while count > opts.maxCompleted && i < |order|
        invariant if k == 0 then count <= opts.maxCompleted else count == k + opts.maxCompleted
        invariant Erasing(i, was, k, target)
        decreases |order| - i
      {
        var erased := EraseIfTerminal(i, was, k, target);
        if erased {
          count := count - 1;
          k := k - 1;
        } else {
          i := i + 1;
        }
      }
      CountPassEnds(order, i, was, k);
    }

    method EraseIfTerminal(i: nat, ghost was: map<TaskId, Record>, ghost k: nat, ghost target: seq<TaskId>)
      returns (erased: bool)
      requires i < |order| && k > 0 && Erasing(i, was, k, target)
      modifies this`tasks, this`order
      ensures if erased then |order| == old(|order|) - 1 && Erasing(i, was, k - 1, target)
              else order == old(order) && Erasing(i + 1, was, k, target)
    {
      CountPassStep(order, i, was, k);
      erased := order[i] in tasks && tasks[order[i]].Terminal();
      if erased {
        EraseAt(i, was);
      }
    }

    /** The updates of the Working tasks found due among `done`. */
    static ghost function DueAmong(was: map<TaskId, Record>, done: set<TaskId>, now: Time): set<Task> {
      set id | id in was && id in done && Due(was[id], now) :: TimeOutRecord(was[id], now).task
    }

    /** `refresh_locked`: walks the hash map in whatever order it has. The
        updates come in that order, so only their multiset is fixed. */
    method RefreshLocked(now: Time, trimAt: Time) returns (updates: seq<Task>)
      requires Valid() && StartedBy(now) && now <= trimAt
      modifies this`tasks, this`order
      ensures Snapshot() == Refresh(old(Snapshot()), opts, now, trimAt) && Valid()
      ensures StartedBy(now)
      ensures multiset(updates) == multiset(DueUpdates(old(tasks), now))
    {
      TimeOutDueKeepsInv(Snapshot(), now);
      updates := FailDue(now);
      TrimCompletedLocked(trimAt);
    }

    method FailDue(now: Time) returns (updates: seq<Task>)
      requires forall id :: id in tasks ==> tasks[id].task.id == id
      modifies this`tasks
      ensures tasks == TimeOutDue(old(tasks), now)
      ensures multiset(updates) == multiset(DueUpdates(old(tasks), now))
    {
      ghost var was := tasks;
      var todo := tasks.Keys;
      updates := [];
      while todo != {}
        invariant todo <= was.Keys == tasks.Keys
        invariant forall id :: id in tasks ==>
                    tasks[id] == if id in todo then was[id] else TimeOutDue(was, now)[id]
        invariant multiset(updates) == multiset(DueAmong(was, was.Keys - todo, now))
        decreases todo
      {
        var id :| id in todo;
        var record := tasks[id];
        ghost var done := was.Keys - todo;
        todo := todo - {id};
        assert was.Keys - todo == done + {id};
        DueOneMore(was, done, id, now);
        if record.task.status == Working && record.timeout.Some?
           && now - record.startedAt >= record.timeout.value * SECOND {
          tasks := tasks[id := TimeOutRecord(record, now)];
          updates := updates + [TimeOutRecord(record, now).task];
        }
      }
      assert was.Keys - todo == was.Keys;
      assert DueAmong(was, was.Keys, now) == DueUpdates(was, now);
    }

    /** The lock hold of `submit_operation` that hands out an id. */
    method RegisterTask(ttl: Option<int>, now: Time) returns (task: Task)
      requires Valid() && StartedBy(now)
      modifies this
      ensures Snapshot() == Submit(old(Snapshot()), opts, ttl, now) && StartedBy(now)
      ensures Valid() <==> TaskId(old(next)) !in old(tasks)
      ensures task == NewRecord(TaskId(old(next)), opts, ttl, now).task
    {
      SubmitKeepsTidyIffIdIsFree(Snapshot(), opts, ttl, now);
      var id := TaskId(next);
      var record := NewRecord(id, opts, ttl, now);
      next := (next + 1) % SIZE_MODULUS;
      if id !in tasks {
        tasks := tasks[id := record];
      }
      order := order + [id];
      task := record.task;
    }

    /** The lock hold of `submit_operation` that undoes a refused enqueue. */
    method WithdrawTask(id: TaskId)
      modifies this`tasks, this`order
      ensures Snapshot() == Withdraw(old(Snapshot()), id)
      ensures old(Valid()) ==> Valid()
    {
      WithdrawKeepsInv(Snapshot(), id);
      tasks := tasks - {id};
      order := RemoveId(order, id);
    }

    /** `submit_operation` with no other thread in between. A submission that
        fails leaves the store as it was, except that a refused one spends its
        index and takes out a retained task that it met under its id. */
    method SubmitOperation(hasHandler: bool, name: string, ttl: Option<int>, now: Time, enqueue: Result<(), Error>)
      returns (r: Result<Task, Error>)
      requires Valid() && StartedBy(now)
      modifies this
      ensures r.Ok? <==> hasHandler && (ttl.Some? ==> ttl.value >= 0) && enqueue.Ok?
      ensures r.Ok? ==>
        && Snapshot() == Submit(old(Snapshot()), opts, ttl, now)
        && r.value == NewRecord(TaskId(old(next)), opts, ttl, now).task
      ensures !hasHandler ==> r == Err(Error(INVALID_REQUEST, "task operation handler must be callable", name))
      ensures hasHandler && ttl.Some? && ttl.value < 0 ==>
        r == Err(Error(INVALID_REQUEST, "task ttl must be non-negative", name))
      ensures r.Err? ==>
        if hasHandler && (ttl.Some? ==> ttl.value >= 0)
        then r.error == enqueue.error && Snapshot() == Refused(old(Snapshot()))
        else Snapshot() == old(Snapshot())
      ensures r.Err? && TaskId(old(next)) !in old(tasks) ==> tasks == old(tasks) && order == old(order)
      ensures Valid() <==> r.Err? || TaskId(old(next)) !in old(tasks)
    {
      if !hasHandler {
        return Err(Error(INVALID_REQUEST, "task operation handler must be callable", name));
      }
      if ttl.Some? && ttl.value < 0 {
        return Err(Error(INVALID_REQUEST, "task ttl must be non-negative", name));
      }
      RefusedSubmitIsTidy(Snapshot(), opts, ttl, now);
      RefusedSubmitUndoesIff(Snapshot(), opts, ttl, now);
      var task := RegisterTask(ttl, now);
      if enqueue.Err? {
        WithdrawTask(task.id);
        return Err(enqueue.error);
      }
      return Ok(task);
    }

    /** `finish_task`, called by the worker when the operation returns. */
    method FinishTask(id: TaskId, outcome: Result<Json, Error>, now: Time, trimAt: Time) returns (updates: seq<Task>)
      requires Valid() && StartedBy(now) && now <= trimAt
      modifies this`tasks, this`order
      ensures Snapshot() == Finish(old(Snapshot()), opts, id, outcome, now, trimAt) && Valid()
      ensures updates == if WorkingIn(old(Snapshot()), id)
                         then [FinishRecord(old(tasks)[id], outcome, now).task] else []
    {
      if id !in tasks || tasks[id].task.status != Working {
        return [];
      }
      var record := FinishRecord(tasks[id], outcome, now);
      assert RecordOk(id, tasks[id]);
      ReplaceKeepsInv(Snapshot(), id, record);
      tasks := tasks[id := record];
      updates := [record.task];
      TrimCompletedLocked(trimAt);
    }

    /** `find_task_locked`. */
    method FindTask(name: string) returns (id: Option<TaskId>)
      ensures id.Some? ==> id.value in tasks && Name(id.value) == name
      ensures id.None? ==> forall x :: x in tasks ==> Name(x) != name
    {
      id := ParseName(name);
      forall x { NamesAreKeys(x, name); }
      if id.Some? && id.value !in tasks {
        id := None;
      }
    }

    /** `cancel_task`. The task returned is the record as it stood before the
        second trim, which is what the source reads when the record survives
        it (see CancelReadsLiveRecordIff). */
    method CancelTask(name: string, t: CancelTimes) returns (r: Result<Task, Error>, updates: seq<Task>)
      requires Valid() && StartedBy(t.refreshAt) && t.Ordered()
      modifies this`tasks, this`order
      ensures Valid()
      ensures var refreshed := Refresh(old(Snapshot()), opts, t.refreshAt, t.refreshTrimAt);
        var due := multiset(DueUpdates(old(tasks), t.refreshAt));
        match r
        case Err(e) =>
          && (forall x :: x in refreshed.tasks ==> Name(x) != name)
          && e == Error(INVALID_REQUEST, "task not found", name)
          && Snapshot() == refreshed && multiset(updates) == due
        case Ok(task) =>
          && Name(task.id) == name && task.id in refreshed.tasks && IsTerminal(task.status)
          && Snapshot() == Cancel(old(Snapshot()), opts, task.id, t)
          && if refreshed.tasks[task.id].Terminal()
             then task == refreshed.tasks[task.id].task && multiset(updates) == due
             else task == CancelRecord(refreshed.tasks[task.id], t.cancelAt).task && multiset(updates) == due + multiset{task}
    {
      updates := RefreshLocked(t.refreshAt, t.refreshTrimAt);
      var found := FindTask(name);
      if found.None? {
        return Err(Error(INVALID_REQUEST, "task not found", name)), updates;
      }
      var id := found.value;
      assert RecordOk(id, tasks[id]);
      if tasks[id].Terminal() {
        return Ok(tasks[id].task), updates;
      }
      var task := CancelLive(id, t.cancelAt, t.trimAt);
      return Ok(task), updates + [task];
    }

    method CancelLive(id: TaskId, cancelAt: Time, trimAt: Time) returns (task: Task)
      requires Valid() && id in tasks && tasks[id].task.status == Working && tasks[id].startedAt <= cancelAt
      modifies this`tasks, this`order
      ensures Snapshot() == Trim(MarkCancelled(old(Snapshot()), id, cancelAt), opts, trimAt) && Valid()
      ensures task == CancelRecord(old(tasks)[id], cancelAt).task
    {
      var record := CancelRecord(tasks[id], cancelAt);
      assert RecordOk(id, tasks[id]);
      ReplaceKeepsInv(Snapshot(), id, record);
      tasks := tasks[id := record];
      task := record.task;
      TrimCompletedLocked(trimAt);
    }

    /** `task_result`: the stored payload of a task, by its status. */
    method TaskResult(name: string, now: Time, trimAt: Time) returns (r: Result<Json, Error>, updates: seq<Task>)
      requires Valid() && StartedBy(now) && now <= trimAt
      modifies this`tasks, this`order
      ensures Snapshot() == Refresh(old(Snapshot()), opts, now, trimAt) && Valid()
      ensures multiset(updates) == multiset(DueUpdates(old(tasks), now))
      ensures (forall x :: x in tasks ==> Name(x) != name) ==> r == Err(Error(INVALID_REQUEST, "task not found", name))
      ensures forall id :: id in tasks && Name(id) == name ==>
        match tasks[id].task.status
        case Completed => r == Ok(tasks[id].result.value)
        case Failed => r == Err(tasks[id].failure.value)
        case Cancelled => r == Err(tasks[id].failure.value)
        case _ => r == Err(Error(INVALID_REQUEST, "task result is not available", name))
    {
      updates := RefreshLocked(now, trimAt);
      var found := FindTask(name);
      forall x { NamesAreKeys(x, name); }
      if found.None? {
        return Err(Error(INVALID_REQUEST, "task not found", name)), updates;
      }
      var record := tasks[found.value];
      assert RecordOk(found.value, record);
      if record.result.Some? {
        return Ok(record.result.value), updates;
      }
      if record.failure.Some? {
        return Err(record.failure.value), updates;
      }
      return Err(Error(INVALID_REQUEST, "task result is not available", name)), updates;
    }

    /** `list_tasks`. A bad cursor is refused before the lock is taken. */
    method ListTasks(cursor: Option<string>, now: Time, trimAt: Time)
      returns (r: Result<Page<Task>, ListError>, updates: seq<Task>)
      requires Valid() && StartedBy(now) && now <= trimAt
      modifies this`tasks, this`order
      ensures Valid()
      ensures if Decimal.CursorMeaning(cursor).Err? then Snapshot() == old(Snapshot()) && updates == []
              else && Snapshot() == Refresh(old(Snapshot()), opts, now, trimAt)
                   && multiset(updates) == multiset(DueUpdates(old(tasks), now))
      ensures r == ListPage(TasksInOrder(Snapshot()), opts.pageSize, cursor)
    {
      var offset := Decimal.ParseTaskListCursor(cursor);
      if offset.Err? {
        return Err(BadCursor(offset.error)), [];
      }
      updates := RefreshLocked(now, trimAt);
      r := BuildPage(offset.value);
    }

    method BuildPage(offset: nat) returns (r: Result<Page<Task>, ListError>)
      requires forall id :: id in order ==> id in tasks
      ensures r == PageAt(TasksInOrder(Snapshot()), opts.pageSize, Min(offset, |order|))
    {
      var start, end := PageBounds(offset);
      if end < start {
        return Err(LengthError);
      }
      var page := CopyTasks(start, end);
      r := Ok(Page(page, if end < |order| then Some(Decimal.ToString(end)) else None, |order|));
    }

    method PageBounds(offset: nat) returns (start: nat, end: nat)
      ensures start == Min(offset, |order|) && end == PageEnd(|order|, opts.pageSize, start) && end <= |order|
    {
      var total := |order|;
      start := if offset < total then offset else total;
      var size := if opts.pageSize == 0 then total else opts.pageSize;
      var sum := (start + size) % SIZE_MODULUS;
      end := if sum < total then sum else total;
    }

    method CopyTasks(start: nat, end: nat) returns (page: seq<Task>)
      requires start <= end <= |order| && forall id :: id in order ==> id in tasks
      ensures page == TasksInOrder(Snapshot())[start..end]
    {
      page := [];
      for i := start to end
        invariant page == TasksInOrder(Snapshot())[start..i]
      {
        page := page + [tasks[order[i]].task];
      }
    }
  }

  /** The store after a submission whose enqueue was refused. */
  function Refused(s: Store): Store { Withdraw(s, TaskId(s.next)).(next := (s.next + 1) % SIZE_MODULUS) }

  lemma WithdrawnAfterSubmit(s: Store, opts: Options, ttl: Option<int>, now: Time)
    ensures Withdraw(Submit(s, opts, ttl, now), TaskId(s.next)) == Refused(s)
  {
    var id := TaskId(s.next);
    RemoveAllOfLast(s.order, id);
    assert Submit(s, opts, ttl, now).tasks - {id} == s.tasks - {id};
  }

  lemma WithdrawOfFreeId(s: Store, id: TaskId)
    requires Agree(s.tasks, s.order) && id !in s.tasks
    ensures Withdraw(s, id) == s
  {
    RemoveAllOfNone(s.order, id);
    assert s.tasks - {id} == s.tasks;
  }

  /** Withdrawing the task just submitted restores everything but the index exactly
      when the id was not retained; a retained task under the id is lost. */
  lemma RefusedSubmitUndoesIff(s: Store, opts: Options, ttl: Option<int>, now: Time)
    requires Tidy(s)
    ensures var t := Withdraw(Submit(s, opts, ttl, now), TaskId(s.next));
      && t == Refused(s)
      && (t.tasks == s.tasks && t.order == s.order <==> TaskId(s.next) !in s.tasks)
  {
    WithdrawnAfterSubmit(s, opts, ttl, now);
    if TaskId(s.next) !in s.tasks {
      WithdrawOfFreeId(s, TaskId(s.next));
    } else {
      assert TaskId(s.next) !in Refused(s).tasks;
    }
  }

  lemma RefusedSubmitIsTidy(s: Store, opts: Options, ttl: Option<int>, now: Time)
    requires Tidy(s)
    ensures Tidy(Withdraw(Submit(s, opts, ttl, now), TaskId(s.next)))
  {
    RefusedSubmitUndoesIff(s, opts, ttl, now);
    WithdrawKeepsInv(s, TaskId(s.next));
  }

  lemma {:induction false} RemoveAllOfLast(ids: seq<TaskId>, id: TaskId)
    ensures RemoveAll(ids + [id], id) == RemoveAll(ids, id)
  {
    if ids != [] {
      assert (ids + [id])[1..] == ids[1..] + [id];
      RemoveAllOfLast(ids[1..], id);
    }
  }

  lemma {:induction false} RemoveAllOfNone(ids: seq<TaskId>, id: TaskId)
    requires id !in ids
    ensures RemoveAll(ids, id) == ids
  {
    if ids != [] { RemoveAllOfNone(ids[1..], id); }
  }

  lemma {:induction false} NothingExpires(ids: seq<TaskId>, tasks: map<TaskId, Record>, now: Time)
    ensures Unexpired(ids, tasks, None, now) == ids
  {
    if ids != [] { NothingExpires(ids[1..], tasks, now); }
  }

  lemma DueOneMore(was: map<TaskId, Record>, done: set<TaskId>, id: TaskId, now: Time)
    requires id in was && id !in done && forall x :: x in was ==> was[x].task.id == x
    ensures multiset(TaskOperationProcessor.DueAmong(was, done + {id}, now)) ==
            multiset(TaskOperationProcessor.DueAmong(was, done, now)) +
            if Due(was[id], now) then multiset{TimeOutRecord(was[id], now).task} else multiset{}
  {
    var a := TaskOperationProcessor.DueAmong(was, done, now);
    var b := TaskOperationProcessor.DueAmong(was, done + {id}, now);
    var t := TimeOutRecord(was[id], now).task;
    if Due(was[id], now) {
      assert b == a + {t};
      assert t !in a;
    } else {
      assert b == a;
    }
  }

  // ------------------------------------------------------- following cursors

  /** Nothing falls due or expires by `horizon`, and nothing is over the limit. */
  ghost predicate Quiet(s: Store, opts: Options, horizon: Time) {
    && (forall id :: id in s.tasks ==>
          !Due(s.tasks[id], horizon) && !Expired(s.tasks[id], opts.completedTtl, horizon))
    && |TerminalSet(s.order, s.tasks)| <= opts.maxCompleted
  }

  lemma {:induction false} NoneExpired(ids: seq<TaskId>, tasks: map<TaskId, Record>, ttl: Option<int>, now: Time)
    requires forall id :: id in ids ==> !ExpiredIn(tasks, id, ttl, now)
    ensures Unexpired(ids, tasks, ttl, now) == ids
  {
    if ids != [] { NoneExpired(ids[1..], tasks, ttl, now); }
  }

  lemma QuietTrim(s: Store, opts: Options, now: Time)
    requires Agree(s.tasks, s.order) && NoDup(s.order)
    requires forall id :: id in s.tasks ==> !Expired(s.tasks[id], opts.completedTtl, now)
    requires |TerminalSet(s.order, s.tasks)| <= opts.maxCompleted
    ensures Trim(s, opts, now) == s
  {
    NoneExpired(s.order, s.tasks, opts.completedTtl, now);
    CountIsCardinality(s.order, s.tasks);
    assert Restrict(s.tasks, s.order) == s.tasks;
  }

  /** A refresh of a quiet store changes nothing. */
  lemma QuietRefresh(s: Store, opts: Options, horizon: Time, now: Time, trimAt: Time)
    requires Tidy(s) && Quiet(s, opts, horizon) && now <= trimAt <= horizon
    ensures Refresh(s, opts, now, trimAt) == s
  {
    assert TimeOutDue(s.tasks, now) == s.tasks;
    QuietTrim(s, opts, trimAt);
  }

  /** Where the page at `offset` ends. */
  function EndOfPage(total: nat, pageSize: nat, offset: nat): nat {
    if pageSize == 0 then total else Min(offset + pageSize, total)
  }

  /** The page at a followed cursor, and what its own next cursor means. */
  lemma NextCursorLeadsOn<T>(items: seq<T>, pageSize: nat, cursor: Option<string>, offset: nat)
    requires |items| <= MAX_VECTOR_SIZE && pageSize <= SIZE_MAX
    requires Decimal.CursorMeaning(cursor) == Ok(offset)
    requires offset == 0 || pageSize <= offset < |items|
    ensures var r := ListPage(items, pageSize, cursor);
      var end := EndOfPage(|items|, pageSize, offset);
      && r.Ok? && r.value.tasks == items[offset..end]
      && (r.value.nextCursor.None? <==> end == |items|)
      && (r.value.nextCursor.Some? ==>
            r.value.nextCursor.value != "" && Decimal.CursorMeaning(r.value.nextCursor) == Ok(end))
  {
    FollowedPage(items, pageSize, offset);
    Decimal.CursorInvertsPrinting(EndOfPage(|items|, pageSize, offset));
    Decimal.ToStringDenotes(EndOfPage(|items|, pageSize, offset));
  }

  /** One round trip of the client's loop, on a quiet store. */
  method FetchPage(server: TaskOperationProcessor, horizon: Time, now: Time, trimAt: Time, cursor: Option<string>,
                   ghost offset: nat)
    returns (page: Page<Task>, ghost end: nat)
    requires server.Valid() && Quiet(server.Snapshot(), server.opts, horizon)
    requires server.StartedBy(now) && now <= trimAt <= horizon
    requires |server.order| <= MAX_VECTOR_SIZE && server.opts.pageSize <= SIZE_MAX
    requires Decimal.CursorMeaning(cursor) == Ok(offset)
    requires offset == 0 || server.opts.pageSize <= offset < |server.order|
    modifies server`tasks, server`order
    ensures server.Snapshot() == old(server.Snapshot())
    ensures end == EndOfPage(|server.order|, server.opts.pageSize, offset) && offset <= end <= |server.order|
    ensures page.tasks == TasksInOrder(server.Snapshot())[offset..end]
    ensures page.nextCursor.None? <==> end == |server.order|
    ensures page.nextCursor.Some? ==>
              page.nextCursor.value != "" && Decimal.CursorMeaning(page.nextCursor) == Ok(end)
  {
    QuietRefresh(server.Snapshot(), server.opts, horizon, now, trimAt);
    end := EndOfPage(|server.order|, server.opts.pageSize, offset);
    ghost var items := TasksInOrder(server.Snapshot());
    NextCursorLeadsOn(items, server.opts.pageSize, cursor, offset);
    var r, _ := server.ListTasks(cursor, now, trimAt);
    assert r == ListPage(items, server.opts.pageSize, cursor);
    page := r.value;
  }

  /** How many pages of `pageSize` it takes to list `total` tasks. */
  ghost predicate PagesFor(requests: nat, pageSize: nat, total: nat) {
    if pageSize == 0 || total == 0 then requests == 1
    else (requests - 1) * pageSize < total <= requests * pageSize
  }

  lemma LastPage(requests: nat, pageSize: nat, offset: nat, total: nat)
    requires offset == requests * pageSize && (offset == 0 ==> requests == 0)
    requires offset == 0 || offset < total
    requires EndOfPage(total, pageSize, offset) == total
    ensures PagesFor(requests + 1, pageSize, total)
  {
    assert (requests + 1) * pageSize == offset + pageSize;
  }

  lemma JoinSlices<T>(s: seq<T>, i: nat, j: nat)
    requires i <= j <= |s|
    ensures s[..i] + s[i..j] == s[..j] && s[..|s|] == s
  {
  }

  /** Where the client's loop stands: it has the tasks before `offset`, which is what its cursor means. */
  ghost predicate Following(items: seq<Task>, pageSize: nat, requests: nat, cursor: Option<string>, offset: nat,
                            all: seq<Task>) {
    && Decimal.CursorMeaning(cursor) == Ok(offset)
    && (offset == 0 || pageSize <= offset < |items|)
    && offset == requests * pageSize && (offset == 0 ==> requests == 0)
    && all == items[..Min(offset, |items|)]
  }

  lemma PageFollowed(items: seq<Task>, pageSize: nat, requests: nat, cursor: Option<string>, offset: nat, all: seq<Task>,
                     page: Page<Task>, end: nat)
    requires Following(items, pageSize, requests, cursor, offset, all)
    requires end == EndOfPage(|items|, pageSize, offset) && offset <= end <= |items| && page.tasks == items[offset..end]
    requires page.nextCursor.None? <==> end == |items|
    requires page.nextCursor.Some? ==> Decimal.CursorMeaning(page.nextCursor) == Ok(end)
    ensures if page.nextCursor.None? then all + page.tasks == items && PagesFor(requests + 1, pageSize, |items|)
            else Following(items, pageSize, requests + 1, page.nextCursor, end, all + page.tasks) && offset < end
  {
    JoinSlices(items, offset, end);
    if page.nextCursor.None? {
      LastPage(requests, pageSize, offset, |items|);
    } else {
      assert end == offset + pageSize && pageSize > 0;
      assert (requests + 1) * pageSize == end;
    }
  }

  /** One turn of the loop: the page at the cursor is gathered, and the loop is done or stands at the next. */
  method FollowPage(server: TaskOperationProcessor, horizon: Time, now: Time, trimAt: Time, requests: nat,
                    cursor: Option<string>, ghost offset: nat, all: seq<Task>, ghost items: seq<Task>)
    returns (cursor': Option<string>, ghost offset': nat, all': seq<Task>)
    requires server.Valid() && Quiet(server.Snapshot(), server.opts, horizon)
    requires server.StartedBy(now) && now <= trimAt <= horizon
    requires |server.order| <= MAX_VECTOR_SIZE && server.opts.pageSize <= SIZE_MAX
    requires items == TasksInOrder(server.Snapshot())
    requires Following(items, server.opts.pageSize, requests, cursor, offset, all)
    modifies server`tasks, server`order
    ensures server.Snapshot() == old(server.Snapshot())
    ensures
      if cursor'.None? then all' == items && PagesFor(requests + 1, server.opts.pageSize, |items|)
      else cursor'.value != "" && offset < offset' && Following(items, server.opts.pageSize, requests + 1, cursor', offset', all')
  {
    var page, end := FetchPage(server, horizon, now, trimAt, cursor, offset);
    PageFollowed(items, server.opts.pageSize, requests, cursor, offset, all, page, end);
    return page.nextCursor, end, all + page.tasks;
  }

  /** `list_all_tasks`, the client's loop, against the server's `list_tasks`:
      while the store stays quiet it ends and returns every task exactly once
      in submission order, for every page size including zero, unless a request
      fails on the way. Each request reads the clock twice on the server, and
      `failing` says how it goes. */
  method ListAllTasks(server: TaskOperationProcessor, horizon: Time, refreshAt: nat -> Time, trimAt: nat -> Time,
                      failing: nat -> Option<Error>)
    returns (r: Result<seq<Task>, Error>, requests: nat)
    requires server.Valid() && Quiet(server.Snapshot(), server.opts, horizon)
    requires forall i :: server.StartedBy(refreshAt(i)) && refreshAt(i) <= trimAt(i) <= horizon
    requires |server.order| <= MAX_VECTOR_SIZE && server.opts.pageSize <= SIZE_MAX
    modifies server`tasks, server`order
    ensures server.Snapshot() == old(server.Snapshot())
    ensures requests > 0 && forall i :: 0 <= i < requests - 1 ==> failing(i).None?
    ensures match failing(requests - 1)
            case Some(error) => r == Err(error)
            case None => r == Ok(TasksInOrder(server.Snapshot())) && PagesFor(requests, server.opts.pageSize, |server.order|)
  {
    ghost var store := server.Snapshot();
    ghost var items := TasksInOrder(store);
    var all := [];
    requests := 0;
    var cursor: Option<string> := None;
    ghost var offset := 0;
    while true
      invariant server.Snapshot() == store
      invariant Following(items, server.opts.pageSize, requests, cursor, offset, all)
      invariant forall i :: 0 <= i < requests ==> failing(i).None?
      decreases |items| - offset
    {
      if failing(requests).Some? {
        return Err(failing(requests).value), requests + 1;
      }
      cursor, offset, all :=
        FollowPage(server, horizon, refreshAt(requests), trimAt(requests), requests, cursor, offset, all, items);
      requests := requests + 1;
      if cursor.None? || cursor.value == "" {
        return Ok(all), requests;
      }
    }
  }
}
