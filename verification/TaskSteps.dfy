/** The critical sections of `TaskOperationProcessor`, one function each. */
module TaskSteps {
  import opened Common
  import opened Json
  import opened TaskStore

  function NewRecord(id: TaskId, opts: Options, ttl: Option<int>, now: Time): Record {
    var seconds := if ttl.Some? then ttl.value else opts.defaultTimeout;
    Record(Task(id, Working, None, seconds), now, None, Some(seconds), false, None, None)
  }

  /** The first critical section of `submit_operation`. `emplace` leaves an
      existing entry alone, and the index counter is 64 bits wide. */
  function Submit(s: Store, opts: Options, ttl: Option<int>, now: Time): Store {
    var id := TaskId(s.next);
    Store(
      if id in s.tasks then s.tasks else s.tasks[id := NewRecord(id, opts, ttl, now)],
      s.order + [id],
      (s.next + 1) % SIZE_MODULUS)
  }

  function RemoveAll(ids: seq<TaskId>, id: TaskId): seq<TaskId> {
    if ids == [] then []
    else (if ids[0] == id then [] else [ids[0]]) + RemoveAll(ids[1..], id)
  }

  /** `submit_operation` when the executor refuses the work. */
  function Withdraw(s: Store, id: TaskId): Store {
    Store(s.tasks - {id}, RemoveAll(s.order, id), s.next)
  }

  predicate WorkingIn(s: Store, id: TaskId) {
    id in s.tasks && s.tasks[id].task.status == Working
  }

  function FinishRecord(r: Record, outcome: Result<Json, Error>, now: Time): Record {
    match outcome
    case Ok(json) =>
      r.(task := r.task.(status := Completed, message := None), terminalAt := Some(now),
         result := Some(json), failure := None)
    case Err(e) =>
      r.(task := r.task.(status := Failed, message := Some(e.message)), terminalAt := Some(now),
         result := None, failure := Some(e))
  }

  function Finish(s: Store, opts: Options, id: TaskId, outcome: Result<Json, Error>, now: Time, trimAt: Time): Store {
    if !WorkingIn(s, id) then s
    else Trim(s.(tasks := s.tasks[id := FinishRecord(s.tasks[id], outcome, now)]), opts, trimAt)
  }

  predicate Due(r: Record, now: Time) {
    && r.task.status == Working
    && r.timeout.Some?
    && now - r.startedAt >= r.timeout.value * SECOND
  }

  function AbortRecord(r: Record, status: Status, message: string, now: Time): Record {
    r.(task := r.task.(status := status, message := Some(message)), terminalAt := Some(now),
       cancelRequested := true, result := None,
       failure := Some(Error(INTERNAL_ERROR, message, Name(r.task.id))))
  }

  function TimeOutRecord(r: Record, now: Time): Record { AbortRecord(r, Failed, "Operation timed out", now) }

  function CancelRecord(r: Record, now: Time): Record { AbortRecord(r, Cancelled, "Operation cancelled", now) }

  function TimeOutDue(tasks: map<TaskId, Record>, now: Time): map<TaskId, Record> {
    map id | id in tasks :: if Due(tasks[id], now) then TimeOutRecord(tasks[id], now) else tasks[id]
  }

  /** The updates a refresh reports: one for each task it times out. */
  function DueUpdates(tasks: map<TaskId, Record>, now: Time): set<Task> {
    set id | id in tasks && Due(tasks[id], now) :: TimeOutRecord(tasks[id], now).task
  }

  /** `refresh_locked`, run under the lock by every query. */
  function Refresh(s: Store, opts: Options, now: Time, trimAt: Time): Store {
    Trim(s.(tasks := TimeOutDue(s.tasks, now)), opts, trimAt)
  }

  /** The four clock readings of `cancel_task`, in order. */
  datatype CancelTimes = CancelTimes(refreshAt: Time, refreshTrimAt: Time, cancelAt: Time, trimAt: Time)
  {
    predicate Ordered() { refreshAt <= refreshTrimAt <= cancelAt <= trimAt }
  }

  function MarkCancelled(s: Store, id: TaskId, now: Time): Store
    requires id in s.tasks
  {
    s.(tasks := s.tasks[id := CancelRecord(s.tasks[id], now)])
  }

  function Cancel(s: Store, opts: Options, id: TaskId, t: CancelTimes): Store {
    var refreshed := Refresh(s, opts, t.refreshAt, t.refreshTrimAt);
    if !(id in refreshed.tasks && !refreshed.tasks[id].Terminal()) then refreshed
    else Trim(MarkCancelled(refreshed, id, t.cancelAt), opts, t.trimAt)
  }

  // ------------------------------------------- when each step is well behaved

  lemma {:induction false} RemoveAllExact(ids: seq<TaskId>, id: TaskId)
    ensures forall x :: x in RemoveAll(ids, id) <==> x in ids && x != id
    ensures NoDup(ids) ==> NoDup(RemoveAll(ids, id))
    ensures Increasing(ids) ==> Increasing(RemoveAll(ids, id))
  {
    if ids != [] {
      RemoveAllExact(ids[1..], id);
      assert ids == [ids[0]] + ids[1..];
      if NoDup(ids) { ConsNoDup(ids[0], RemoveAll(ids[1..], id)); }
      if Increasing(ids) { ConsIncreasing(ids[0], RemoveAll(ids[1..], id)); }
    }
  }

  /** Undoing a refused enqueue keeps the store in order, whatever the id. */
  lemma WithdrawKeepsInv(s: Store, id: TaskId)
    ensures Tidy(s) ==> Tidy(Withdraw(s, id))
    ensures Inv(s) ==> Inv(Withdraw(s, id))
  {
    RemoveAllExact(s.order, id);
  }

  /** Every index up to 2^64 - 1 is new when it is handed out, and keeps the order. */
  lemma SubmitKeepsInv(s: Store, opts: Options, ttl: Option<int>, now: Time)
    requires Inv(s) && 1 <= s.next <= SIZE_MAX
    ensures Inv(Submit(s, opts, ttl, now))
    ensures TaskId(s.next) !in s.tasks
  {
    var id := TaskId(s.next);
    var t := Submit(s, opts, ttl, now);
    assert id !in s.tasks;
    SubmitKeepsTidyIffIdIsFree(s, opts, ttl, now);
    AppendIncreasing(s.order, id);
    forall x | x in t.order ensures Issued(x, t.next) {
      if x != id { assert x in s.order; }
    }
  }

  /** Past its wrap the counter comes round to ids handed out before. Submitting
      keeps the map and the vector in step exactly when the next id is not
      retained; otherwise the stale record is kept and listed twice. */
  lemma SubmitKeepsTidyIffIdIsFree(s: Store, opts: Options, ttl: Option<int>, now: Time)
    requires Tidy(s)
    ensures Tidy(Submit(s, opts, ttl, now)) <==> TaskId(s.next) !in s.tasks
  {
    var id := TaskId(s.next);
    var t := Submit(s, opts, ttl, now);
    if id in s.tasks {
      var i :| 0 <= i < |s.order| && s.order[i] == id;
      assert t.order[i] == t.order[|s.order|];
    } else {
      assert RecordOk(id, t.tasks[id]);
      assert forall x :: x in s.tasks ==> t.tasks[x] == s.tasks[x];
    }
  }

  /** A store of one task whose counter has come round to it. */
  lemma WrappedIndexCollides(opts: Options, now: Time)
    ensures var id := TaskId(1);
      var s := Store(map[id := NewRecord(id, opts, None, now)], [id], 1);
      Tidy(s) && Submit(s, opts, None, now).order == [id, id] && !Tidy(Submit(s, opts, None, now))
  {
    var id := TaskId(1);
    var s := Store(map[id := NewRecord(id, opts, None, now)], [id], 1);
    assert Tidy(s);
    SubmitKeepsTidyIffIdIsFree(s, opts, None, now);
  }

  lemma ReplaceKeepsInv(s: Store, id: TaskId, r: Record)
    requires Tidy(s) && id in s.tasks && RecordOk(id, r)
    ensures Tidy(s.(tasks := s.tasks[id := r]))
    ensures Inv(s) ==> Inv(s.(tasks := s.tasks[id := r]))
  {
  }

  lemma TimeOutDueKeepsInv(s: Store, now: Time)
    requires Tidy(s) && forall id :: id in s.tasks ==> s.tasks[id].startedAt <= now
    ensures Tidy(s.(tasks := TimeOutDue(s.tasks, now)))
    ensures Inv(s) ==> Inv(s.(tasks := TimeOutDue(s.tasks, now)))
  {
    forall id | id in s.tasks ensures RecordOk(id, TimeOutDue(s.tasks, now)[id]) {
      assert RecordOk(id, s.tasks[id]);
    }
  }

  lemma RefreshKeepsInv(s: Store, opts: Options, now: Time, trimAt: Time)
    requires Tidy(s) && forall id :: id in s.tasks ==> s.tasks[id].startedAt <= now
    ensures Tidy(Refresh(s, opts, now, trimAt))
    ensures Inv(s) ==> Inv(Refresh(s, opts, now, trimAt))
  {
    TimeOutDueKeepsInv(s, now);
    TrimKeepsTidy(s.(tasks := TimeOutDue(s.tasks, now)), opts, trimAt);
    if Inv(s) { TrimKeepsExactlyTheSurvivors(s.(tasks := TimeOutDue(s.tasks, now)), opts, trimAt); }
  }

  /** A refresh leaves a task Working exactly when it is not due, and then untouched. */
  lemma RefreshKeepsWorking(s: Store, opts: Options, now: Time, trimAt: Time, id: TaskId)
    requires Tidy(s) && forall x :: x in s.tasks ==> s.tasks[x].startedAt <= now
    ensures WorkingIn(Refresh(s, opts, now, trimAt), id) <==> WorkingIn(s, id) && !Due(s.tasks[id], now)
    ensures WorkingIn(Refresh(s, opts, now, trimAt), id) ==> Refresh(s, opts, now, trimAt).tasks[id] == s.tasks[id]
  {
    TimeOutDueKeepsInv(s, now);
    TrimKeepsTidy(s.(tasks := TimeOutDue(s.tasks, now)), opts, trimAt);
  }

  lemma SurvivesItsCancel(s: Store, opts: Options, id: TaskId, now: Time, trimAt: Time)
    requires Inv(s) && WorkingIn(s, id) && s.tasks[id].startedAt <= now
    ensures id in Trim(MarkCancelled(s, id, now), opts, trimAt).tasks <==>
            && (opts.completedTtl.Some? ==> trimAt - now < opts.completedTtl.value * 1_000_000)
            && |NewerRetained(s, opts, trimAt, id)| < opts.maxCompleted
  {
    var marked := MarkCancelled(s, id, now);
    ReplaceKeepsInv(s, id, CancelRecord(s.tasks[id], now));
    TrimKeepsExactlyTheSurvivors(marked, opts, trimAt);
    assert NewerRetained(marked, opts, trimAt, id) == NewerRetained(s, opts, trimAt, id);
  }

  /** `cancel_task` copies the task out of the record after trimming. For a task
      that the call finds Working and not due, that read is of a live record
      exactly when the cancelled task does not expire at once and fewer than
      `maxCompleted` terminal tasks that the refresh retains are newer. */
  lemma CancelReadsLiveRecordIff(s: Store, opts: Options, id: TaskId, t: CancelTimes)
    requires Inv(s) && t.Ordered() && forall x :: x in s.tasks ==> s.tasks[x].startedAt <= t.refreshAt
    requires WorkingIn(s, id) && !Due(s.tasks[id], t.refreshAt)
    ensures id in Cancel(s, opts, id, t).tasks <==>
            && (opts.completedTtl.Some? ==> t.trimAt - t.cancelAt < opts.completedTtl.value * 1_000_000)
            && |NewerRetained(Refresh(s, opts, t.refreshAt, t.refreshTrimAt), opts, t.trimAt, id)| < opts.maxCompleted
  {
    RefreshKeepsInv(s, opts, t.refreshAt, t.refreshTrimAt);
    RefreshKeepsWorking(s, opts, t.refreshAt, t.refreshTrimAt, id);
    SurvivesItsCancel(Refresh(s, opts, t.refreshAt, t.refreshTrimAt), opts, id, t.cancelAt, t.trimAt);
  }

  /** The first task ever submitted, cancelled at once, is gone before it is read
      if the store is to retain no completed task. */
  lemma CancelledRecordIsLost(opts: Options, s: Store, now: Time)
    requires opts.maxCompleted == 0 && s == Submit(EMPTY, opts, Some(1), now)
    ensures WorkingIn(s, TaskId(1)) && TaskId(1) !in Cancel(s, opts, TaskId(1), CancelTimes(now, now, now, now)).tasks
  {
    SubmitKeepsInv(EMPTY, opts, Some(1), now);
    CancelReadsLiveRecordIff(s, opts, TaskId(1), CancelTimes(now, now, now, now));
  }
}
