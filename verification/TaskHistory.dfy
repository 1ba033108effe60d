/** What the task store answers, traced to the events of a run: where a retained
    record comes from, which event settled it and with what, and what each status
    update said. Everything is said of fields and in nanoseconds. */
module TaskHistory {
  import opened Common
  import opened Json
  import opened TaskStore
  import opened TaskSteps
  import opened TaskRuns

  /** The event leads from one world to the next, and hands out no id a second time. */
  predicate Next(w: World, opts: Options, e: Event, v: World) { Enabled(w, e) && FreshId(w, e) && v == Apply(w, opts, e) }

  predicate Leads(ws: seq<World>, opts: Options, es: seq<Event>, i: nat) {
    i + 1 < |ws| && i < |es| && Next(ws[i], opts, es[i], ws[i + 1])
  }

  /** The worlds a run goes through, from `ws[0]` on. */
  ghost predicate History(ws: seq<World>, opts: Options, es: seq<Event>) {
    |ws| == |es| + 1 && forall i: nat :: i < |es| ==> Leads(ws, opts, es, i)
  }

  lemma LeadsOn(w: World, rest: seq<World>, opts: Options, es: seq<Event>, i: nat)
    requires es != [] && |rest| == |es| && i < |es|
    requires if i == 0 then Next(w, opts, es[0], rest[0]) else Leads(rest, opts, es[1..], i - 1)
    ensures Leads([w] + rest, opts, es, i)
  {
  }

  lemma HistoryFrom(w: World, rest: seq<World>, opts: Options, es: seq<Event>)
    requires es != [] && History(rest, opts, es[1..]) && Next(w, opts, es[0], rest[0])
    ensures History([w] + rest, opts, es)
  {
    forall i: nat | i < |es| ensures Leads([w] + rest, opts, es, i) {
      if i > 0 { assert Leads(rest, opts, es[1..], i - 1); }
      LeadsOn(w, rest, opts, es, i);
    }
  }

  /** The first step of a run, and what is left of it. */
  lemma FirstStep(w: World, opts: Options, es: seq<Event>) returns (v: World)
    requires es != [] && Legal(w, opts, es) && Fresh(w, opts, es)
    ensures Next(w, opts, es[0], v) && Legal(v, opts, es[1..]) && Fresh(v, opts, es[1..])
    ensures Run(w, opts, es) == Run(v, opts, es[1..])
  {
    v := Apply(w, opts, es[0]);
  }

  lemma HistoryOfNothing(w: World, opts: Options, es: seq<Event>)
    requires es == []
    ensures History([w], opts, es) && Run(w, opts, es) == w
  {
  }

  /** Every legal run that hands out no id twice has such a history. */
  lemma {:induction false} RunHasHistory(w: World, opts: Options, es: seq<Event>) returns (ws: seq<World>)
    requires Legal(w, opts, es) && Fresh(w, opts, es)
    ensures History(ws, opts, es) && ws[0] == w && ws[|es|] == Run(w, opts, es)
    decreases |es|
  {
    if es == [] {
      ws := [w];
      HistoryOfNothing(w, opts, es);
    } else {
      var v := FirstStep(w, opts, es);
      var rest := RunHasHistory(v, opts, es[1..]);
      HistoryFrom(w, rest, opts, es);
      ws := [w] + rest;
    }
  }

  lemma NextKeepsInv(w: World, opts: Options, e: Event, v: World)
    requires WorldInv(w) && Next(w, opts, e, v)
    ensures WorldInv(v)
  {
    ApplyKeepsWorldInv(w, opts, e);
  }

  lemma {:induction false} InvAt(ws: seq<World>, opts: Options, es: seq<Event>, n: nat)
    requires History(ws, opts, es) && WorldInv(ws[0]) && n <= |es|
    ensures WorldInv(ws[n])
  {
    if n > 0 {
      assert Leads(ws, opts, es, n - 1);
      InvAt(ws, opts, es, n - 1);
      NextKeepsInv(ws[n - 1], opts, es[n - 1], ws[n]);
    }
  }

  // -------------------------------------------------- what an event may settle

  /** More than the timeout, a number of seconds, has gone by since the start. */
  predicate Overdue(r: Record, now: Time) {
    r.timeout.Some? && now >= r.startedAt + r.timeout.value * 1_000_000_000
  }

  predicate Says(t: Task, status: Status, message: Option<string>) { t.status == status && t.message == message }

  /** Event `e`, met by store `s`, ends a Working task, whose description is then `t`. */
  predicate SettlesTask(s: Store, e: Event, t: Task) {
    && t.id in s.tasks && s.tasks[t.id].task.status == Working && t.ttl == s.tasks[t.id].task.ttl
    && match e
       case FinishEvent(id, outcome, _, _) =>
         id == t.id && if outcome.Ok? then Says(t, Completed, None) else Says(t, Failed, Some(outcome.error.message))
       case RefreshEvent(now, _) =>
         Overdue(s.tasks[t.id], now) && Says(t, Failed, Some("Operation timed out"))
       case CancelEvent(id, at) =>
         if Overdue(s.tasks[t.id], at.refreshAt) then Says(t, Failed, Some("Operation timed out"))
         else id == t.id && Says(t, Cancelled, Some("Operation cancelled"))
       case _ => false
  }

  /** What a record holds that was ended by `e`: the outcome it was finished with,
      or the error of a timeout or a cancel, and the time of it. */
  predicate Holds(r: Record, e: Event) {
    match e
    case FinishEvent(_, outcome, now, _) =>
      && r.terminalAt == Some(now) && !r.cancelRequested
      && (match outcome
          case Ok(json) => r.result == Some(json) && r.failure == None
          case Err(error) => r.result == None && r.failure == Some(error))
    case RefreshEvent(now, _) => HoldsAbort(r, "Operation timed out", now)
    case CancelEvent(_, at) =>
      if Overdue(r, at.refreshAt) then HoldsAbort(r, "Operation timed out", at.refreshAt)
      else HoldsAbort(r, "Operation cancelled", at.cancelAt)
    case _ => false
  }

  predicate HoldsAbort(r: Record, message: string, at: Time) {
    && r.terminalAt == Some(at) && r.cancelRequested && r.result == None
    && r.failure == Some(Error(-32603, message, Name(r.task.id)))
  }

  predicate SameOrigin(before: Record, after: Record) {
    && after.task.id == before.task.id && after.task.ttl == before.task.ttl
    && after.startedAt == before.startedAt && after.timeout == before.timeout
  }

  /** Event `e`, met by store `s`, leaves the task as record `r`. */
  predicate SettlesAs(s: Store, e: Event, r: Record) {
    SettlesTask(s, e, r.task) && Holds(r, e) && SameOrigin(s.tasks[r.task.id], r)
  }

  // --------------------------------------------------------------- one event

  lemma TrimChangesNoRecord(s: Store, opts: Options, now: Time, id: TaskId)
    requires id in Trim(s, opts, now).tasks
    ensures id in s.tasks && Trim(s, opts, now).tasks[id] == s.tasks[id]
  {
  }

  lemma DueIsOverdue(r: Record, now: Time)
    ensures Due(r, now) <==> r.task.status == Working && Overdue(r, now)
  {
  }

  lemma TimedOutSettles(s: Store, id: TaskId, now: Time, trimAt: Time)
    requires WorkingIn(s, id) && s.tasks[id].task.id == id && Overdue(s.tasks[id], now)
    ensures SettlesAs(s, RefreshEvent(now, trimAt), TimeOutRecord(s.tasks[id], now))
  {
  }

  lemma TimedOutByCancel(s: Store, x: TaskId, t: CancelTimes, r: Record)
    requires SettlesAs(s, RefreshEvent(t.refreshAt, t.refreshTrimAt), r)
    ensures SettlesAs(s, CancelEvent(x, t), r)
  {
  }

  lemma CancelledSettles(s: Store, id: TaskId, t: CancelTimes)
    requires WorkingIn(s, id) && s.tasks[id].task.id == id && !Overdue(s.tasks[id], t.refreshAt)
    ensures SettlesAs(s, CancelEvent(id, t), CancelRecord(s.tasks[id], t.cancelAt))
  {
  }

  /** A finish that finds its task Working stores the outcome it was given, whatever it is. */
  lemma FinishSettles(s: Store, opts: Options, id: TaskId, outcome: Result<Json, Error>, now: Time, trimAt: Time)
    requires Tidy(s) && WorkingIn(s, id) && id in Finish(s, opts, id, outcome, now, trimAt).tasks
    ensures SettlesAs(s, FinishEvent(id, outcome, now, trimAt), Finish(s, opts, id, outcome, now, trimAt).tasks[id])
  {
    assert RecordOk(id, s.tasks[id]);
  }

  lemma RefreshSettles(s: Store, opts: Options, id: TaskId, now: Time, trimAt: Time)
    requires Tidy(s) && id in Refresh(s, opts, now, trimAt).tasks
    ensures id in s.tasks
    ensures var r := Refresh(s, opts, now, trimAt).tasks[id];
      if WorkingIn(s, id) && Overdue(s.tasks[id], now) then SettlesAs(s, RefreshEvent(now, trimAt), r) else r == s.tasks[id]
  {
    TrimChangesNoRecord(s.(tasks := TimeOutDue(s.tasks, now)), opts, trimAt, id);
    assert RecordOk(id, s.tasks[id]);
    DueIsOverdue(s.tasks[id], now);
    if WorkingIn(s, id) && Overdue(s.tasks[id], now) { TimedOutSettles(s, id, now, trimAt); }
  }

  lemma CancelTrims(s: Store, opts: Options, x: TaskId, t: CancelTimes, id: TaskId)
    requires id in Cancel(s, opts, x, t).tasks
    ensures var v := Refresh(s, opts, t.refreshAt, t.refreshTrimAt);
      && id in v.tasks
      && Cancel(s, opts, x, t).tasks[id] ==
         if x == id && !v.tasks[id].Terminal() then CancelRecord(v.tasks[id], t.cancelAt) else v.tasks[id]
  {
    var v := Refresh(s, opts, t.refreshAt, t.refreshTrimAt);
    if x in v.tasks && !v.tasks[x].Terminal() { TrimChangesNoRecord(MarkCancelled(v, x, t.cancelAt), opts, t.trimAt, id); }
  }

  /** A cancel times out what is overdue, then cancels the task it names if that is still Working. */
  lemma CancelSettles(s: Store, opts: Options, x: TaskId, t: CancelTimes, id: TaskId)
    requires Tidy(s) && id in Cancel(s, opts, x, t).tasks
    ensures id in s.tasks
    ensures var r := Cancel(s, opts, x, t).tasks[id];
      if WorkingIn(s, id) && (x == id || Overdue(s.tasks[id], t.refreshAt)) then SettlesAs(s, CancelEvent(x, t), r)
      else r == s.tasks[id]
  {
    CancelTrims(s, opts, x, t, id);
    RefreshSettles(s, opts, id, t.refreshAt, t.refreshTrimAt);
    assert RecordOk(id, s.tasks[id]);
    if WorkingIn(s, id) {
      if Overdue(s.tasks[id], t.refreshAt) {
        TimedOutByCancel(s, x, t, Refresh(s, opts, t.refreshAt, t.refreshTrimAt).tasks[id]);
      } else if x == id {
        CancelledSettles(s, id, t);
      }
    }
  }

  /** The event ends the Working task `id`: it finishes it, cancels it or finds it overdue. */
  predicate Ends(s: Store, e: Event, id: TaskId) {
    && WorkingIn(s, id)
    && match e
       case FinishEvent(x, _, _, _) => x == id
       case RefreshEvent(now, _) => Overdue(s.tasks[id], now)
       case CancelEvent(x, at) => x == id || Overdue(s.tasks[id], at.refreshAt)
       case _ => false
  }

  /** A record fresh from a submission: Working, with the timeout asked for or else the default one. */
  predicate SubmittedAs(opts: Options, e: Event, r: Record) {
    && e.SubmitEvent? && r.startedAt == e.now && r.task.status == Working && r.task.message == None
    && r.task.ttl == (if e.ttl.Some? then e.ttl.value else opts.defaultTimeout) && r.timeout == Some(r.task.ttl)
    && r.result == None && r.failure == None && r.terminalAt == None && !r.cancelRequested
  }

  /** Where a record in a store comes from that event `e` made of `s`. */
  predicate ComesFrom(s: Store, opts: Options, e: Event, id: TaskId, r: Record) {
    && r.task.id == id
    && if id !in s.tasks then id == TaskId(s.next) && SubmittedAs(opts, e, r)
       else if Ends(s, e, id) then SettlesAs(s, e, r)
       else r == s.tasks[id]
  }

  lemma FinishedFrom(s: Store, opts: Options, x: TaskId, outcome: Result<Json, Error>, now: Time, trimAt: Time, id: TaskId)
    requires Tidy(s) && id in Finish(s, opts, x, outcome, now, trimAt).tasks
    ensures ComesFrom(s, opts, FinishEvent(x, outcome, now, trimAt), id, Finish(s, opts, x, outcome, now, trimAt).tasks[id])
  {
    if WorkingIn(s, x) {
      TrimChangesNoRecord(s.(tasks := s.tasks[x := FinishRecord(s.tasks[x], outcome, now)]), opts, trimAt, id);
      if x == id { FinishSettles(s, opts, id, outcome, now, trimAt); }
    }
    if id in s.tasks { assert RecordOk(id, s.tasks[id]); }
  }

  lemma RecordAfter(s: Store, opts: Options, e: Event, id: TaskId)
    requires Tidy(s) && id in Step(s, opts, e).tasks
    ensures ComesFrom(s, opts, e, id, Step(s, opts, e).tasks[id])
  {
    if id in s.tasks { assert RecordOk(id, s.tasks[id]); }
    match e
    case SubmitEvent(_, _) =>
    case EnqueueRefused(_) =>
    case FinishEvent(x, outcome, now, trimAt) => FinishedFrom(s, opts, x, outcome, now, trimAt, id);
    case RefreshEvent(now, trimAt) => RefreshSettles(s, opts, id, now, trimAt);
    case CancelEvent(x, t) => CancelSettles(s, opts, x, t, id);
  }

  // --------------------------------------------------------------- whole runs

  /** What event `n` makes of a record. */
  lemma RecordAt(ws: seq<World>, opts: Options, es: seq<Event>, n: nat, id: TaskId)
    requires History(ws, opts, es) && WorldInv(ws[0]) && n < |es| && id in ws[n + 1].store.tasks
    ensures ComesFrom(ws[n].store, opts, es[n], id, ws[n + 1].store.tasks[id])
  {
    InvAt(ws, opts, es, n);
    assert Leads(ws, opts, es, n);
    ApplyIsStep(ws[n], opts, es[n]);
    RecordAfter(ws[n].store, opts, es[n], id);
  }

  lemma TerminalComesFrom(s: Store, opts: Options, e: Event, id: TaskId, r: Record)
    requires ComesFrom(s, opts, e, id, r) && r.Terminal()
    ensures if TerminalIn(s.tasks, id) then r == s.tasks[id] else SettlesAs(s, e, r)
  {
  }

  lemma OriginComesFrom(s: Store, opts: Options, e: Event, id: TaskId, r: Record)
    requires ComesFrom(s, opts, e, id, r)
    ensures if id in s.tasks then SameOrigin(s.tasks[id], r) || r == s.tasks[id] else SubmittedFrom(s, opts, e, id, r)
  {
  }

  /**
   * A task that is over and retained holds exactly what the event `i` that ended it
   * brought: the outcome of its finish, or the error of its timeout or its cancel.
   */
  lemma {:induction false} RetainedTaskHoldsItsOutcome(ws: seq<World>, opts: Options, es: seq<Event>, n: nat, id: TaskId)
    returns (i: nat)
    requires History(ws, opts, es) && WorldInv(ws[0]) && n <= |es| && TerminalIn(ws[n].store.tasks, id) && !TerminalIn(ws[0].store.tasks, id)
    ensures i < n && SettlesAs(ws[i].store, es[i], ws[n].store.tasks[id])
  {
    RecordAt(ws, opts, es, n - 1, id);
    TerminalComesFrom(ws[n - 1].store, opts, es[n - 1], id, ws[n].store.tasks[id]);
    if TerminalIn(ws[n - 1].store.tasks, id) {
      i := RetainedTaskHoldsItsOutcome(ws, opts, es, n - 1, id);
    } else {
      i := n - 1;
    }
  }

  /** The record holds the outcome of this finish of its task. */
  predicate HoldsResult(r: Record, e: Event, id: TaskId) {
    && e.FinishEvent? && e.id == id && r.terminalAt == Some(e.now)
    && match e.outcome
       case Ok(json) => Says(r.task, Completed, None) && r.result == Some(json)
       case Err(error) => Says(r.task, Failed, Some(error.message)) && r.failure == Some(error)
  }

  lemma UnabortedWasFinished(s: Store, e: Event, r: Record, id: TaskId)
    requires SettlesAs(s, e, r) && r.task.id == id && !r.cancelRequested
    ensures HoldsResult(r, e, id)
  {
  }

  lemma UnabortedIsNotCancelled(w: World, id: TaskId)
    requires WorldInv(w) && id in w.store.tasks && id !in w.abortRequested
    ensures w.store.tasks[id].task.id == id && !w.store.tasks[id].cancelRequested
  {
    assert Recorded(w, id);
  }

  /** If the task was not aborted, that event is the finish of it, so the result it
      holds is the outcome that the operation returned. */
  lemma UnabortedTaskHoldsItsResult(clock: Time, opts: Options, es: seq<Event>, id: TaskId) returns (i: nat)
    requires Legal(Start(clock), opts, es) && Fresh(Start(clock), opts, es)
    requires var w := Run(Start(clock), opts, es); TerminalIn(w.store.tasks, id) && id !in w.abortRequested
    ensures i < |es| && HoldsResult(Run(Start(clock), opts, es).store.tasks[id], es[i], id)
  {
    i := UnabortedFrom(Start(clock), opts, es, id);
  }

  lemma UnabortedFrom(w: World, opts: Options, es: seq<Event>, id: TaskId) returns (i: nat)
    requires Legal(w, opts, es) && Fresh(w, opts, es) && WorldInv(w) && !TerminalIn(w.store.tasks, id)
    requires TerminalIn(Run(w, opts, es).store.tasks, id) && id !in Run(w, opts, es).abortRequested
    ensures i < |es| && HoldsResult(Run(w, opts, es).store.tasks[id], es[i], id)
  {
    var ws := RunHasHistory(w, opts, es);
    i := RetainedTaskHoldsItsOutcome(ws, opts, es, |es|, id);
    InvAt(ws, opts, es, |es|);
    UnabortedIsNotCancelled(ws[|es|], id);
    UnabortedWasFinished(ws[i].store, es[i], ws[|es|].store.tasks[id], id);
  }

  /** The submission handed out `id`, and the record has kept its start, its timeout and its ttl. */
  predicate SubmittedFrom(s: Store, opts: Options, e: Event, id: TaskId, r: Record) {
    && id == TaskId(s.next) && r.task.id == id && e.SubmitEvent? && r.startedAt == e.now
    && r.task.ttl == (if e.ttl.Some? then e.ttl.value else opts.defaultTimeout) && r.timeout == Some(r.task.ttl)
  }

  /** Every retained task was submitted by one event of the run, at the time and with
      the timeout it carries: the one asked for, or else the default one. */
  lemma {:induction false} RetainedTaskWasSubmitted(ws: seq<World>, opts: Options, es: seq<Event>, n: nat, id: TaskId)
    returns (i: nat)
    requires History(ws, opts, es) && WorldInv(ws[0]) && n <= |es| && id in ws[n].store.tasks && id !in ws[0].store.tasks
    ensures i < n && SubmittedFrom(ws[i].store, opts, es[i], id, ws[n].store.tasks[id])
  {
    RecordAt(ws, opts, es, n - 1, id);
    OriginComesFrom(ws[n - 1].store, opts, es[n - 1], id, ws[n].store.tasks[id]);
    if id in ws[n - 1].store.tasks {
      i := RetainedTaskWasSubmitted(ws, opts, es, n - 1, id);
    } else {
      i := n - 1;
    }
  }

  // ------------------------------------------------ ended once, and when it must

  lemma TrimKeepsWorking(s: Store, opts: Options, now: Time, id: TaskId)
    requires Agree(s.tasks, s.order) && NoDup(s.order) && WorkingIn(s, id)
    ensures WorkingIn(Trim(s, opts, now), id)
  {
    var live := Unexpired(s.order, s.tasks, opts.completedTtl, now);
    UnexpiredMembers(s.order, s.tasks, opts.completedTtl, now);
    DropMembers(live, s.tasks, Excess(CountTerminal(live, s.tasks), opts.maxCompleted));
  }

  lemma RefreshLeavesWorking(s: Store, opts: Options, now: Time, trimAt: Time, id: TaskId)
    requires Agree(s.tasks, s.order) && NoDup(s.order) && WorkingIn(s, id) && !Overdue(s.tasks[id], now)
    ensures WorkingIn(Refresh(s, opts, now, trimAt), id)
  {
    DueIsOverdue(s.tasks[id], now);
    TrimKeepsWorking(s.(tasks := TimeOutDue(s.tasks, now)), opts, trimAt, id);
  }

  lemma CancelLeavesWorking(s: Store, opts: Options, x: TaskId, t: CancelTimes, id: TaskId)
    requires Agree(s.tasks, s.order) && NoDup(s.order) && WorkingIn(s, id)
    requires !Overdue(s.tasks[id], t.refreshAt) && x != id
    ensures WorkingIn(Cancel(s, opts, x, t), id)
  {
    var v := Refresh(s, opts, t.refreshAt, t.refreshTrimAt);
    RefreshLeavesWorking(s, opts, t.refreshAt, t.refreshTrimAt, id);
    RefreshAgrees(s, opts, t.refreshAt, t.refreshTrimAt);
    if x in v.tasks && !v.tasks[x].Terminal() { TrimKeepsWorking(MarkCancelled(v, x, t.cancelAt), opts, t.trimAt, id); }
  }

  lemma RefreshAgrees(s: Store, opts: Options, now: Time, trimAt: Time)
    requires Agree(s.tasks, s.order) && NoDup(s.order)
    ensures var v := Refresh(s, opts, now, trimAt); Agree(v.tasks, v.order) && NoDup(v.order)
  {
    var tasks := TimeOutDue(s.tasks, now);
    var live := Unexpired(s.order, tasks, opts.completedTtl, trimAt);
    UnexpiredMembers(s.order, tasks, opts.completedTtl, trimAt);
    DropMembers(live, tasks, Excess(CountTerminal(live, tasks), opts.maxCompleted));
  }

  /** A Working task stays so through an event exactly when the event does not end
      it and is not the refusal of its own enqueue. */
  lemma StaysWorkingIff(s: Store, opts: Options, e: Event, id: TaskId)
    requires Tidy(s) && WorkingIn(s, id)
    ensures WorkingIn(Step(s, opts, e), id) <==> !Ends(s, e, id) && e != EnqueueRefused(id)
  {
    if id in Step(s, opts, e).tasks { RecordAfter(s, opts, e, id); }
    if !Ends(s, e, id) && e != EnqueueRefused(id) {
      match e
      case SubmitEvent(_, _) =>
      case EnqueueRefused(_) =>
      case FinishEvent(x, outcome, now, trimAt) =>
        if WorkingIn(s, x) {
          TrimKeepsWorking(s.(tasks := s.tasks[x := FinishRecord(s.tasks[x], outcome, now)]), opts, trimAt, id);
        }
      case RefreshEvent(now, trimAt) => RefreshLeavesWorking(s, opts, now, trimAt, id);
      case CancelEvent(x, t) => CancelLeavesWorking(s, opts, x, t, id);
    }
  }

  lemma EndedIsOver(w: World, opts: Options, e: Event, id: TaskId)
    requires WorldInv(w) && Enabled(w, e) && FreshId(w, e) && Ends(w.store, e, id)
    ensures Over(Apply(w, opts, e), id)
  {
    ApplyKeepsWorldInv(w, opts, e);
    ApplyIsStep(w, opts, e);
    StaysWorkingIff(w.store, opts, e, id);
    assert Recorded(w, id);
    NotWorkingIsOver(Apply(w, opts, e), id);
  }

  /** A task is ended once: after an event that ends it, it is never Working again. */
  lemma {:induction false} EndedOnce(ws: seq<World>, opts: Options, es: seq<Event>, id: TaskId, i: nat, j: nat)
    requires History(ws, opts, es) && WorldInv(ws[0]) && i < j <= |es| && Ends(ws[i].store, es[i], id)
    ensures Over(ws[j], id) && !WorkingIn(ws[j].store, id)
  {
    assert Leads(ws, opts, es, j - 1);
    if i == j - 1 {
      InvAt(ws, opts, es, i);
      EndedIsOver(ws[i], opts, es[i], id);
    } else {
      EndedOnce(ws, opts, es, id, i, j - 1);
      ApplyFreezes(ws[j - 1], opts, es[j - 1], id);
    }
  }

  lemma NotWorkingIsOver(w: World, id: TaskId)
    requires WorldInv(w) && id in w.issued && !WorkingIn(w.store, id)
    ensures Over(w, id)
  {
    if id in w.store.tasks { assert RecordOk(id, w.store.tasks[id]); }
  }

  // ----------------------------------------------------------- status updates

  lemma DueUpdateSettles(s: Store, now: Time, trimAt: Time, t: Task)
    requires Tidy(s) && t in DueUpdates(s.tasks, now)
    ensures SettlesTask(s, RefreshEvent(now, trimAt), t)
  {
    var id :| id in s.tasks && Due(s.tasks[id], now) && t == TimeOutRecord(s.tasks[id], now).task;
    assert RecordOk(id, s.tasks[id]);
    DueIsOverdue(s.tasks[id], now);
    TimedOutSettles(s, id, now, trimAt);
  }

  lemma FinishUpdateSettles(s: Store, id: TaskId, outcome: Result<Json, Error>, now: Time, trimAt: Time)
    requires Tidy(s) && WorkingIn(s, id)
    ensures SettlesTask(s, FinishEvent(id, outcome, now, trimAt), FinishRecord(s.tasks[id], outcome, now).task)
  {
    assert RecordOk(id, s.tasks[id]);
  }

  lemma CancelUpdateSettles(s: Store, opts: Options, id: TaskId, t: CancelTimes)
    requires Tidy(s)
    requires var v := Refresh(s, opts, t.refreshAt, t.refreshTrimAt); id in v.tasks && !v.tasks[id].Terminal()
    ensures SettlesTask(s, CancelEvent(id, t),
                        CancelRecord(Refresh(s, opts, t.refreshAt, t.refreshTrimAt).tasks[id], t.cancelAt).task)
  {
    RefreshSettles(s, opts, id, t.refreshAt, t.refreshTrimAt);
    assert RecordOk(id, s.tasks[id]);
    CancelledSettles(s, id, t);
  }

  lemma RefreshUpdates(w: World, opts: Options, now: Time, trimAt: Time, t: Task)
    requires t in ApplyRefresh(w, opts, now, trimAt).updates
    ensures t in w.updates || t in DueUpdates(w.store.tasks, now)
  {
  }

  lemma CancelUpdates(w: World, opts: Options, id: TaskId, at: CancelTimes, t: Task)
    requires WorldInv(w) && t in Apply(w, opts, CancelEvent(id, at)).updates
    ensures t in w.updates || SettlesTask(w.store, CancelEvent(id, at), t)
  {
    var v := ApplyRefresh(w, opts, at.refreshAt, at.refreshTrimAt);
    if t in v.updates {
      RefreshUpdates(w, opts, at.refreshAt, at.refreshTrimAt, t);
      if t !in w.updates { DueUpdateSettles(w.store, at.refreshAt, at.refreshTrimAt, t); }
    } else {
      CancelUpdateSettles(w.store, opts, id, at);
    }
  }

  /** The updates an event reports are those of tasks it ends. */
  lemma UpdateAfter(w: World, opts: Options, e: Event, t: Task)
    requires WorldInv(w) && t in Apply(w, opts, e).updates
    ensures t in w.updates || SettlesTask(w.store, e, t)
  {
    match e
    case SubmitEvent(_, _) =>
    case EnqueueRefused(_) =>
    case FinishEvent(id, outcome, now, trimAt) =>
      if WorkingIn(w.store, id) { FinishUpdateSettles(w.store, id, outcome, now, trimAt); }
    case RefreshEvent(now, trimAt) =>
      RefreshUpdates(w, opts, now, trimAt, t);
      if t !in w.updates { DueUpdateSettles(w.store, now, trimAt, t); }
    case CancelEvent(id, at) => CancelUpdates(w, opts, id, at, t);
  }

  /** Every update ever reported says what the event that ended its task did. */
  lemma {:induction false} UpdatesTellWhatEnded(ws: seq<World>, opts: Options, es: seq<Event>, n: nat, t: Task)
    returns (i: nat)
    requires History(ws, opts, es) && WorldInv(ws[0]) && n <= |es| && t in ws[n].updates && t !in ws[0].updates
    ensures i < n && SettlesTask(ws[i].store, es[i], t)
  {
    InvAt(ws, opts, es, n - 1);
    assert Leads(ws, opts, es, n - 1);
    if t in ws[n - 1].updates {
      i := UpdatesTellWhatEnded(ws, opts, es, n - 1, t);
    } else {
      UpdateAfter(ws[n - 1], opts, es[n - 1], t);
      i := n - 1;
    }
  }
}
