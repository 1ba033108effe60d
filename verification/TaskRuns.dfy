/** Runs of the task store: the critical sections of any number of threads,
    interleaved freely, under a clock that never goes back. */
module TaskRuns {
  import opened Common
  import opened Json
  import opened TaskStore
  import opened TaskSteps

  /** One lock hold. `Finish` and `EnqueueRefused` may name any id at any
      time, so every interleaving of workers and submitters is covered. */
  datatype Event =
    | SubmitEvent(ttl: Option<int>, now: Time)
    | EnqueueRefused(id: TaskId)
    | FinishEvent(id: TaskId, outcome: Result<Json, Error>, now: Time, trimAt: Time)
    | RefreshEvent(now: Time, trimAt: Time)
    | CancelEvent(id: TaskId, times: CancelTimes)

  /** The store and what has happened to it: the ids handed out, the updates
      given to the status hook, the ids withdrawn while still Working, and the
      ids whose abort was requested by a client or by the timeout scan. */
  datatype World = World(
    store: Store,
    clock: Time,
    issued: set<TaskId>,
    updates: multiset<Task>,
    withdrawn: set<TaskId>,
    abortRequested: set<TaskId>)

  function Start(clock: Time): World { World(EMPTY, clock, {}, multiset{}, {}, {}) }

  predicate Enabled(w: World, e: Event) {
    match e
    case SubmitEvent(_, now) => w.clock <= now
    case EnqueueRefused(_) => true
    case FinishEvent(_, _, now, trimAt) => w.clock <= now <= trimAt
    case RefreshEvent(now, trimAt) => w.clock <= now <= trimAt
    case CancelEvent(_, t) => w.clock <= t.refreshAt && t.Ordered()
  }

  function DueIds(s: Store, now: Time): set<TaskId> {
    set id | id in s.tasks && Due(s.tasks[id], now)
  }

  function ApplyRefresh(w: World, opts: Options, now: Time, trimAt: Time): World {
    World(Refresh(w.store, opts, now, trimAt), trimAt, w.issued, w.updates + multiset(DueUpdates(w.store.tasks, now)),
          w.withdrawn, w.abortRequested + DueIds(w.store, now))
  }

  /** What each event does to the store. */
  function Step(s: Store, opts: Options, e: Event): Store {
    match e
    case SubmitEvent(ttl, now) => Submit(s, opts, ttl, now)
    case EnqueueRefused(id) => Withdraw(s, id)
    case FinishEvent(id, outcome, now, trimAt) => Finish(s, opts, id, outcome, now, trimAt)
    case RefreshEvent(now, trimAt) => Refresh(s, opts, now, trimAt)
    case CancelEvent(id, t) => Cancel(s, opts, id, t)
  }

  function Apply(w: World, opts: Options, e: Event): World {
    var next := Step(w.store, opts, e);
    match e
    case SubmitEvent(_, now) =>
      w.(store := next, clock := now, issued := w.issued + {TaskId(w.store.next)})
    case EnqueueRefused(id) =>
      w.(store := next,
         withdrawn := if WorkingIn(w.store, id) then w.withdrawn + {id} else w.withdrawn)
    case FinishEvent(id, outcome, now, trimAt) =>
      w.(store := next, clock := trimAt,
         updates := if WorkingIn(w.store, id)
                    then w.updates + multiset{FinishRecord(w.store.tasks[id], outcome, now).task}
                    else w.updates)
    case RefreshEvent(now, trimAt) => ApplyRefresh(w, opts, now, trimAt)
    case CancelEvent(id, t) =>
      ApplyCancel(ApplyRefresh(w, opts, t.refreshAt, t.refreshTrimAt), opts, id, t.cancelAt, t.trimAt)
  }

  /** One record settled and reported, then a trim. */
  function SettledOne(w: World, opts: Options, id: TaskId, r: Record, clock: Time): World {
    w.(store := Trim(w.store.(tasks := w.store.tasks[id := r]), opts, clock),
       clock := clock,
       updates := w.updates + multiset{r.task},
       abortRequested := if r.cancelRequested then w.abortRequested + {id} else w.abortRequested)
  }

  /** What `cancel_task` does after its refresh. */
  function ApplyCancel(v: World, opts: Options, id: TaskId, cancelAt: Time, trimAt: Time): World {
    if id in v.store.tasks && !v.store.tasks[id].Terminal()
    then SettledOne(v, opts, id, CancelRecord(v.store.tasks[id], cancelAt), trimAt)
    else v.(clock := trimAt)
  }

  /** The store of the world moves by the steps of the store. */
  lemma ApplyIsStep(w: World, opts: Options, e: Event)
    ensures Apply(w, opts, e).store == Step(w.store, opts, e)
  {
  }

  ghost predicate Legal(w: World, opts: Options, es: seq<Event>)
    decreases |es|
  {
    es != [] ==> Enabled(w, es[0]) && Legal(Apply(w, opts, es[0]), opts, es[1..])
  }

  function Run(w: World, opts: Options, es: seq<Event>): World
    decreases |es|
  {
    if es == [] then w else Run(Apply(w, opts, es[0]), opts, es[1..])
  }

  /** The id this event hands out, if any, was never handed out before. */
  predicate FreshId(w: World, e: Event) { e.SubmitEvent? ==> TaskId(w.store.next) !in w.issued }

  ghost predicate Fresh(w: World, opts: Options, es: seq<Event>)
    decreases |es|
  {
    es != [] ==> FreshId(w, es[0]) && Fresh(Apply(w, opts, es[0]), opts, es[1..])
  }

  function Submissions(es: seq<Event>): nat {
    if es == [] then 0 else (if es[0].SubmitEvent? then 1 else 0) + Submissions(es[1..])
  }

  // --------------------------------------------------------- world invariant

  predicate HasUpdate(updates: multiset<Task>, id: TaskId) {
    exists t :: t in updates && t.id == id
  }

  /** No two updates are for one task, and each is for an issued, terminal one. */
  ghost predicate UpdatesOk(updates: multiset<Task>, issued: set<TaskId>) {
    && (forall t :: t in updates ==> updates[t] == 1 && IsTerminal(t.status) && t.id in issued)
    && (forall t, u :: t in updates && u in updates && t.id == u.id ==> t == u)
  }

  /** An issued id is exactly one of: Working, settled by an update, withdrawn. */
  predicate Accounted(w: World, id: TaskId) {
    || (WorkingIn(w.store, id) && !HasUpdate(w.updates, id) && id !in w.withdrawn)
    || (!WorkingIn(w.store, id) && HasUpdate(w.updates, id) && id !in w.withdrawn)
    || (id !in w.store.tasks && !HasUpdate(w.updates, id) && id in w.withdrawn)
  }

  predicate Recorded(w: World, id: TaskId)
    requires id in w.store.tasks
  {
    var r := w.store.tasks[id];
    && id in w.issued
    && r.task.id == id
    && (r.Terminal() ==> r.task in w.updates)
    && (r.cancelRequested <==> id in w.abortRequested)
    && (r.cancelRequested ==> r.Terminal())
    && r.startedAt <= w.clock
  }

  ghost predicate HistoryOk(w: World) {
    && UpdatesOk(w.updates, w.issued)
    && (forall id :: id in w.issued ==> Accounted(w, id))
    && w.withdrawn + w.abortRequested <= w.issued
    && (forall id :: id in w.store.tasks ==> Recorded(w, id))
  }

  ghost predicate WorldInv(w: World) { Tidy(w.store) && HistoryOk(w) }

  // -------------------------------------- settling: Working becomes terminal

  /** `after` differs from `before` only in Working records that became terminal. */
  predicate Settles(before: map<TaskId, Record>, after: map<TaskId, Record>) {
    && after.Keys == before.Keys
    && forall id :: id in before ==>
         || after[id] == before[id]
         || (before[id].task.status == Working && after[id].Terminal() && RecordOk(id, after[id])
             && after[id].startedAt == before[id].startedAt)
  }

  function Settled(before: map<TaskId, Record>, after: map<TaskId, Record>): set<TaskId> {
    set id | id in before && id in after && after[id] != before[id]
  }

  function SettledTasks(before: map<TaskId, Record>, after: map<TaskId, Record>): set<Task> {
    set id | id in before && id in after && after[id] != before[id] :: after[id].task
  }

  /** The world after `after` replaced the record map, before trimming. */
  function Settle(w: World, after: map<TaskId, Record>, clock: Time): World {
    w.(store := w.store.(tasks := after), clock := clock,
       updates := w.updates + multiset(SettledTasks(w.store.tasks, after)),
       abortRequested := w.abortRequested +
         (set id | id in Settled(w.store.tasks, after) && after[id].cancelRequested))
  }

  lemma SettleUpdates(w: World, after: map<TaskId, Record>, clock: Time)
    requires HistoryOk(w) && Settles(w.store.tasks, after)
    ensures var v := Settle(w, after, clock);
      && UpdatesOk(v.updates, v.issued)
      && forall id :: HasUpdate(v.updates, id) <==> HasUpdate(w.updates, id) || id in Settled(w.store.tasks, after)
  {
    var v := Settle(w, after, clock);
    var added := SettledTasks(w.store.tasks, after);
    forall t | t in added
      ensures t.id in Settled(w.store.tasks, after) && t == after[t.id].task && IsTerminal(t.status)
              && t.id in w.issued && !HasUpdate(w.updates, t.id)
    {
      var id :| id in w.store.tasks && id in after && after[id] != w.store.tasks[id] && t == after[id].task;
    }
    forall id | id in Settled(w.store.tasks, after) ensures HasUpdate(v.updates, id) {
      assert after[id].task in v.updates;
    }
    forall id | HasUpdate(w.updates, id) ensures HasUpdate(v.updates, id) {
      var t :| t in w.updates && t.id == id;
      assert t in v.updates;
    }
  }

  lemma SettleAccounts(w: World, after: map<TaskId, Record>, clock: Time, id: TaskId)
    requires HistoryOk(w) && Settles(w.store.tasks, after) && id in w.issued
    ensures Accounted(Settle(w, after, clock), id)
  {
    assert Accounted(w, id);
    SettleUpdates(w, after, clock);
  }

  lemma SettleKeepsHistory(w: World, after: map<TaskId, Record>, clock: Time)
    requires HistoryOk(w) && Settles(w.store.tasks, after) && w.clock <= clock
    ensures HistoryOk(Settle(w, after, clock))
  {
    var v := Settle(w, after, clock);
    SettleUpdates(w, after, clock);
    forall id | id in v.issued ensures Accounted(v, id) { SettleAccounts(w, after, clock, id); }
    forall id | id in after ensures Recorded(v, id) { SettleRecorded(w, after, clock, id); }
  }

  lemma SettleRecorded(w: World, after: map<TaskId, Record>, clock: Time, id: TaskId)
    requires HistoryOk(w) && Settles(w.store.tasks, after) && w.clock <= clock && id in after
    ensures Recorded(Settle(w, after, clock), id)
  {
    var v := Settle(w, after, clock);
    assert Recorded(w, id);
    if after[id] != w.store.tasks[id] {
      assert after[id].task in SettledTasks(w.store.tasks, after);
    }
  }

  lemma TrimKeepsWorldInv(w: World, opts: Options, now: Time)
    requires WorldInv(w)
    ensures WorldInv(w.(store := Trim(w.store, opts, now)))
  {
    var v := w.(store := Trim(w.store, opts, now));
    TrimKeepsTidy(w.store, opts, now);
    forall id | id in v.issued ensures Accounted(v, id) {
      assert Accounted(w, id);
    }
    forall id | id in v.store.tasks ensures Recorded(v, id) {
      assert Recorded(w, id);
    }
  }

  /** Settling some Working records and then trimming keeps the invariant. */
  lemma SettleAndTrim(w: World, after: map<TaskId, Record>, opts: Options, clock: Time)
    requires WorldInv(w) && Settles(w.store.tasks, after) && w.clock <= clock
    ensures WorldInv(SettledAndTrimmed(w, after, opts, clock))
  {
    var v := Settle(w, after, clock);
    SettleKeepsHistory(w, after, clock);
    assert Tidy(v.store);
    TrimKeepsWorldInv(v, opts, clock);
  }

  // ------------------------------------------------ each event keeps the world

  function SettledAndTrimmed(w: World, after: map<TaskId, Record>, opts: Options, clock: Time): World {
    var v := Settle(w, after, clock);
    v.(store := Trim(v.store, opts, clock))
  }

  lemma RefreshIsSettling(w: World, opts: Options, now: Time, trimAt: Time)
    ensures ApplyRefresh(w, opts, now, trimAt) == SettledAndTrimmed(w, TimeOutDue(w.store.tasks, now), opts, trimAt)
  {
    var after := TimeOutDue(w.store.tasks, now);
    assert Settled(w.store.tasks, after) == DueIds(w.store, now);
    assert SettledTasks(w.store.tasks, after) == DueUpdates(w.store.tasks, now);
    assert (set id | id in Settled(w.store.tasks, after) && after[id].cancelRequested) == DueIds(w.store, now);
  }

  lemma TimeOutDueSettles(tasks: map<TaskId, Record>, now: Time)
    requires forall id :: id in tasks ==> RecordOk(id, tasks[id]) && tasks[id].startedAt <= now
    ensures Settles(tasks, TimeOutDue(tasks, now))
  {
  }

  lemma RefreshKeepsWorldInv(w: World, opts: Options, now: Time, trimAt: Time)
    requires WorldInv(w) && w.clock <= now <= trimAt
    ensures WorldInv(ApplyRefresh(w, opts, now, trimAt))
  {
    forall id | id in w.store.tasks ensures w.store.tasks[id].startedAt <= now { assert Recorded(w, id); }
    TimeOutDueSettles(w.store.tasks, now);
    RefreshIsSettling(w, opts, now, trimAt);
    SettleAndTrim(w, TimeOutDue(w.store.tasks, now), opts, trimAt);
  }

  lemma SettledOneIsSettling(w: World, opts: Options, id: TaskId, r: Record, clock: Time)
    requires id in w.store.tasks && r != w.store.tasks[id]
    ensures SettledOne(w, opts, id, r, clock) == SettledAndTrimmed(w, w.store.tasks[id := r], opts, clock)
  {
    var after := w.store.tasks[id := r];
    assert Settled(w.store.tasks, after) == {id};
    assert SettledTasks(w.store.tasks, after) == {r.task};
    assert multiset({r.task}) == multiset{r.task};
    assert (set x | x in Settled(w.store.tasks, after) && after[x].cancelRequested) == if r.cancelRequested then {id} else {};
  }

  lemma SettleOne(w: World, opts: Options, id: TaskId, r: Record, clock: Time)
    requires WorldInv(w) && w.clock <= clock && WorkingIn(w.store, id)
    requires r.Terminal() && RecordOk(id, r) && r.startedAt == w.store.tasks[id].startedAt
    ensures WorldInv(SettledOne(w, opts, id, r, clock))
  {
    SettledOneIsSettling(w, opts, id, r, clock);
    SettleAndTrim(w, w.store.tasks[id := r], opts, clock);
  }

  lemma FinishKeepsWorldInv(w: World, opts: Options, e: Event)
    requires WorldInv(w) && Enabled(w, e) && e.FinishEvent?
    ensures WorldInv(Apply(w, opts, e))
  {
    if WorkingIn(w.store, e.id) {
      assert Recorded(w, e.id) && RecordOk(e.id, w.store.tasks[e.id]);
      var r := FinishRecord(w.store.tasks[e.id], e.outcome, e.now);
      SettleOne(w, opts, e.id, r, e.trimAt);
      assert Apply(w, opts, e) == SettledOne(w, opts, e.id, r, e.trimAt);
    } else {
      LaterClock(w, e.trimAt);
    }
  }

  lemma CancelKeepsWorldInv(v: World, opts: Options, id: TaskId, cancelAt: Time, trimAt: Time)
    requires WorldInv(v) && v.clock <= cancelAt <= trimAt
    ensures WorldInv(ApplyCancel(v, opts, id, cancelAt, trimAt))
  {
    if id in v.store.tasks && !v.store.tasks[id].Terminal() {
      assert Recorded(v, id) && RecordOk(id, v.store.tasks[id]);
      SettleOne(v, opts, id, CancelRecord(v.store.tasks[id], cancelAt), trimAt);
    } else {
      LaterClock(v, trimAt);
    }
  }

  lemma ApplyKeepsWorldInv(w: World, opts: Options, e: Event)
    requires WorldInv(w) && Enabled(w, e) && FreshId(w, e)
    ensures WorldInv(Apply(w, opts, e))
  {
    match e
    case SubmitEvent(ttl, now) => SubmitKeepsWorldInv(w, opts, ttl, now);
    case EnqueueRefused(id) => WithdrawKeepsWorldInv(w, opts, id);
    case FinishEvent(_, _, _, _) => FinishKeepsWorldInv(w, opts, e);
    case RefreshEvent(now, trimAt) => RefreshKeepsWorldInv(w, opts, now, trimAt);
    case CancelEvent(id, t) =>
      RefreshKeepsWorldInv(w, opts, t.refreshAt, t.refreshTrimAt);
      CancelKeepsWorldInv(ApplyRefresh(w, opts, t.refreshAt, t.refreshTrimAt), opts, id, t.cancelAt, t.trimAt);
  }

  lemma LaterClock(w: World, clock: Time)
    requires WorldInv(w) && w.clock <= clock
    ensures WorldInv(w.(clock := clock))
  {
    var v := w.(clock := clock);
    forall id | id in v.issued ensures Accounted(v, id) { assert Accounted(w, id); }
    forall id | id in v.store.tasks ensures Recorded(v, id) { assert Recorded(w, id); }
  }

  lemma SubmitKeepsHistory(w: World, opts: Options, ttl: Option<int>, now: Time)
    requires HistoryOk(w) && w.clock <= now && TaskId(w.store.next) !in w.issued
    ensures HistoryOk(Apply(w, opts, SubmitEvent(ttl, now)))
  {
    var v := Apply(w, opts, SubmitEvent(ttl, now));
    var id := TaskId(w.store.next);
    assert id !in w.store.tasks;
    forall x | x in v.issued ensures Accounted(v, x) {
      if x != id { assert Accounted(w, x); }
    }
    forall x | x in v.store.tasks ensures Recorded(v, x) {
      if x != id { assert Recorded(w, x); }
    }
  }

  lemma SubmitKeepsWorldInv(w: World, opts: Options, ttl: Option<int>, now: Time)
    requires WorldInv(w) && w.clock <= now && TaskId(w.store.next) !in w.issued
    ensures WorldInv(Apply(w, opts, SubmitEvent(ttl, now)))
  {
    forall id | id in w.store.tasks ensures id in w.issued { assert Recorded(w, id); }
    SubmitKeepsTidyIffIdIsFree(w.store, opts, ttl, now);
    SubmitKeepsHistory(w, opts, ttl, now);
  }

  lemma WithdrawKeepsWorldInv(w: World, opts: Options, id: TaskId)
    requires WorldInv(w)
    ensures WorldInv(Apply(w, opts, EnqueueRefused(id)))
  {
    WithdrawKeepsInv(w.store, id);
  }

  // ------------------------------------------------------------ over all runs

  lemma {:induction false} RunKeepsWorldInv(w: World, opts: Options, es: seq<Event>)
    requires WorldInv(w) && Legal(w, opts, es) && Fresh(w, opts, es)
    ensures WorldInv(Run(w, opts, es))
    decreases |es|
  {
    if es != [] {
      ApplyKeepsWorldInv(w, opts, es[0]);
      RunKeepsWorldInv(Apply(w, opts, es[0]), opts, es[1..]);
    }
  }

  /** The counter after `n` submissions. */
  function NextIndex(n: nat): nat
    requires n <= SIZE_MODULUS
  {
    if n + 1 < SIZE_MODULUS then n + 1 else n + 1 - SIZE_MODULUS
  }

  lemma OthersLeaveTheIndex(w: World, opts: Options, e: Event)
    requires !e.SubmitEvent?
    ensures Apply(w, opts, e).store.next == w.store.next && Apply(w, opts, e).issued == w.issued
  {
  }

  /** The first `n` submissions have handed out the indices 1, 2, ... and, as the last one, 0. */
  ghost predicate Counted(w: World, n: nat) {
    && n <= SIZE_MODULUS && w.store.next == NextIndex(n)
    && forall id :: id in w.issued ==> 1 <= id.index <= n || (id.index == 0 && n == SIZE_MODULUS)
  }

  lemma CountedSubmit(w: World, opts: Options, e: Event, n: nat)
    requires Counted(w, n) && n < SIZE_MODULUS && e.SubmitEvent?
    ensures FreshId(w, e) && Counted(Apply(w, opts, e), n + 1)
  {
  }

  lemma {:induction false} CountedRunIsFresh(w: World, opts: Options, es: seq<Event>, n: nat)
    requires Counted(w, n) && n + Submissions(es) <= SIZE_MODULUS
    ensures Fresh(w, opts, es)
    decreases |es|
  {
    if es != [] {
      var submits := es[0].SubmitEvent?;
      if submits { CountedSubmit(w, opts, es[0], n); } else { OthersLeaveTheIndex(w, opts, es[0]); }
      CountedRunIsFresh(Apply(w, opts, es[0]), opts, es[1..], if submits then n + 1 else n);
    }
  }

  /** The index counter hands out 2^64 different ids before it repeats one. */
  lemma IdsAreFresh(clock: Time, opts: Options, es: seq<Event>)
    requires Submissions(es) <= SIZE_MODULUS
    ensures Fresh(Start(clock), opts, es)
  {
    CountedRunIsFresh(Start(clock), opts, es, 0);
  }

  // ------------------------------------------------- the order of submission

  /** Every task was started by the clock. */
  ghost predicate Timely(w: World) { forall id :: id in w.store.tasks ==> w.store.tasks[id].startedAt <= w.clock }

  lemma FinishKeepsStore(s: Store, opts: Options, id: TaskId, outcome: Result<Json, Error>, now: Time, trimAt: Time)
    requires Tidy(s) && (id in s.tasks ==> s.tasks[id].startedAt <= now)
    ensures Tidy(Finish(s, opts, id, outcome, now, trimAt))
    ensures Inv(s) ==> Inv(Finish(s, opts, id, outcome, now, trimAt))
    ensures forall x :: x in Finish(s, opts, id, outcome, now, trimAt).tasks ==>
      x in s.tasks && Finish(s, opts, id, outcome, now, trimAt).tasks[x].startedAt == s.tasks[x].startedAt
  {
    if WorkingIn(s, id) {
      var r := FinishRecord(s.tasks[id], outcome, now);
      assert RecordOk(id, s.tasks[id]);
      TrimKeepsTidy(s.(tasks := s.tasks[id := r]), opts, trimAt);
      if Inv(s) { TrimKeepsExactlyTheSurvivors(s.(tasks := s.tasks[id := r]), opts, trimAt); }
    }
  }

  lemma RefreshKeepsStore(s: Store, opts: Options, now: Time, trimAt: Time)
    requires Tidy(s) && forall id :: id in s.tasks ==> s.tasks[id].startedAt <= now
    ensures Tidy(Refresh(s, opts, now, trimAt))
    ensures Inv(s) ==> Inv(Refresh(s, opts, now, trimAt))
    ensures forall x :: x in Refresh(s, opts, now, trimAt).tasks ==>
      x in s.tasks && Refresh(s, opts, now, trimAt).tasks[x].startedAt == s.tasks[x].startedAt
  {
    RefreshKeepsInv(s, opts, now, trimAt);
  }

  lemma MarkedKeepsStore(v: Store, opts: Options, id: TaskId, cancelAt: Time, trimAt: Time)
    requires Tidy(v) && id in v.tasks && !v.tasks[id].Terminal() && v.tasks[id].startedAt <= cancelAt
    ensures var u := Trim(MarkCancelled(v, id, cancelAt), opts, trimAt);
      && Tidy(u) && (Inv(v) ==> Inv(u))
      && forall x :: x in u.tasks ==> x in v.tasks && u.tasks[x].startedAt == v.tasks[x].startedAt
  {
    assert RecordOk(id, v.tasks[id]);
    TrimKeepsTidy(MarkCancelled(v, id, cancelAt), opts, trimAt);
    if Inv(v) { TrimKeepsExactlyTheSurvivors(MarkCancelled(v, id, cancelAt), opts, trimAt); }
  }

  lemma CancelKeepsStore(s: Store, opts: Options, id: TaskId, t: CancelTimes)
    requires Tidy(s) && t.Ordered() && forall id :: id in s.tasks ==> s.tasks[id].startedAt <= t.refreshAt
    ensures Tidy(Cancel(s, opts, id, t))
    ensures Inv(s) ==> Inv(Cancel(s, opts, id, t))
    ensures forall x :: x in Cancel(s, opts, id, t).tasks ==>
      x in s.tasks && Cancel(s, opts, id, t).tasks[x].startedAt == s.tasks[x].startedAt
  {
    var v := Refresh(s, opts, t.refreshAt, t.refreshTrimAt);
    RefreshKeepsStore(s, opts, t.refreshAt, t.refreshTrimAt);
    if id in v.tasks && !v.tasks[id].Terminal() { MarkedKeepsStore(v, opts, id, t.cancelAt, t.trimAt); }
  }

  /** Every event but a submission keeps the store tidy, and in order if it was. */
  lemma ApplyKeepsStore(w: World, opts: Options, e: Event)
    requires Tidy(w.store) && Timely(w) && Enabled(w, e) && !e.SubmitEvent?
    ensures var v := Apply(w, opts, e); Tidy(v.store) && Timely(v) && (Inv(w.store) ==> Inv(v.store))
  {
    ApplyIsStep(w, opts, e);
    match e
    case EnqueueRefused(id) => WithdrawKeepsInv(w.store, id);
    case FinishEvent(id, outcome, now, trimAt) => FinishKeepsStore(w.store, opts, id, outcome, now, trimAt);
    case RefreshEvent(now, trimAt) => RefreshKeepsStore(w.store, opts, now, trimAt);
    case CancelEvent(id, t) => CancelKeepsStore(w.store, opts, id, t);
    case SubmitEvent(_, _) =>
  }

  lemma SubmitKeepsOrder(w: World, opts: Options, e: Event, n: nat)
    requires Inv(w.store) && Timely(w) && Enabled(w, e) && e.SubmitEvent?
    requires n + 1 < SIZE_MODULUS && w.store.next == NextIndex(n)
    ensures var v := Apply(w, opts, e); Inv(v.store) && Timely(v) && v.store.next == NextIndex(n + 1)
  {
    SubmitKeepsInv(w.store, opts, e.ttl, e.now);
  }

  lemma {:induction false} RunKeepsOrder(w: World, opts: Options, es: seq<Event>, n: nat)
    requires Inv(w.store) && Timely(w) && Legal(w, opts, es)
    requires n + Submissions(es) < SIZE_MODULUS && w.store.next == NextIndex(n)
    ensures Inv(Run(w, opts, es).store)
    decreases |es|
  {
    if es != [] {
      var submits := es[0].SubmitEvent?;
      if submits {
        SubmitKeepsOrder(w, opts, es[0], n);
      } else {
        ApplyKeepsStore(w, opts, es[0]);
        OthersLeaveTheIndex(w, opts, es[0]);
      }
      RunKeepsOrder(Apply(w, opts, es[0]), opts, es[1..], if submits then n + 1 else n);
    }
  }

  // ------------------------------------------------------------------ theorems

  /** In every state reached by fewer than 2^64 submissions the vector lists exactly
      the keys of the map, once each and by increasing task index, and every record
      carries the payload its status calls for. */
  lemma StoreInvariantOverRuns(clock: Time, opts: Options, es: seq<Event>)
    requires Legal(Start(clock), opts, es) && Submissions(es) < SIZE_MODULUS
    ensures var s := Run(Start(clock), opts, es).store;
      && NoDup(s.order)
      && (forall id :: id in s.tasks <==> id in s.order)
      && Increasing(s.order)
      && (forall id :: id in s.tasks ==> PayloadFits(id, s.tasks[id]))
  {
    RunKeepsOrder(Start(clock), opts, es, 0);
  }

  predicate PayloadFits(id: TaskId, r: Record) {
    && r.task.id == id
    && match r.task.status
       case Working => r.result.None? && r.failure.None? && r.terminalAt.None?
       case InputRequired => false
       case Completed => r.result.Some? && r.failure.None? && r.terminalAt.Some?
       case Failed => r.result.None? && r.failure.Some? && r.terminalAt.Some?
       case Cancelled => r.result.None? && r.failure.Some? && r.terminalAt.Some?
  }

  /** No submission of the run meets a retained task under the id it hands out. */
  ghost predicate AlwaysFree(w: World, opts: Options, es: seq<Event>)
    decreases |es|
  {
    es != [] ==>
      && (es[0].SubmitEvent? ==> TaskId(w.store.next) !in w.store.tasks)
      && AlwaysFree(Apply(w, opts, es[0]), opts, es[1..])
  }

  /** The store is tidy in every state of the run. */
  ghost predicate AlwaysTidy(w: World, opts: Options, es: seq<Event>)
    decreases |es|
  {
    Tidy(w.store) && (es != [] ==> AlwaysTidy(Apply(w, opts, es[0]), opts, es[1..]))
  }

  /** However many submissions a run makes, the map and the vector agree in all its
      states exactly when no submission meets a retained task under its id. */
  lemma {:induction false} TidyOverRunsIff(w: World, opts: Options, es: seq<Event>)
    requires Tidy(w.store) && Timely(w) && Legal(w, opts, es)
    ensures AlwaysTidy(w, opts, es) <==> AlwaysFree(w, opts, es)
    decreases |es|
  {
    if es != [] {
      var v := Apply(w, opts, es[0]);
      if es[0].SubmitEvent? {
        SubmitKeepsTidyIffIdIsFree(w.store, opts, es[0].ttl, es[0].now);
      } else {
        ApplyKeepsStore(w, opts, es[0]);
      }
      if Tidy(v.store) { TidyOverRunsIff(v, opts, es[1..]); }
    }
  }

  /** As long as no id is handed out twice, every id handed out is exactly one of:
      still Working, settled by exactly one terminal update, or withdrawn because its
      enqueue failed. */
  lemma OneTerminalUpdatePerTask(clock: Time, opts: Options, es: seq<Event>, id: TaskId)
    requires Legal(Start(clock), opts, es) && Fresh(Start(clock), opts, es)
    requires id in Run(Start(clock), opts, es).issued
    ensures var w := Run(Start(clock), opts, es);
      && Accounted(w, id)
      && (forall t, u :: t in w.updates && u in w.updates && t.id == u.id == id ==>
            t == u && w.updates[t] == 1 && IsTerminal(t.status))
      && (id in w.store.tasks && w.store.tasks[id].Terminal() ==> w.store.tasks[id].task in w.updates)
  {
    RunKeepsWorldInv(Start(clock), opts, es);
  }

  /** A retained record's source is cancelled iff a client cancelled the task
      or its timeout fired at some point of the run. */
  lemma SourceCancelledIffAborted(clock: Time, opts: Options, es: seq<Event>, id: TaskId)
    requires Legal(Start(clock), opts, es) && Fresh(Start(clock), opts, es)
    requires id in Run(Start(clock), opts, es).store.tasks
    ensures var w := Run(Start(clock), opts, es);
      w.store.tasks[id].cancelRequested <==> id in w.abortRequested
  {
    RunKeepsWorldInv(Start(clock), opts, es);
    assert Recorded(Run(Start(clock), opts, es), id);
  }

  predicate TerminalOrGone(s: Store, id: TaskId) { id in s.tasks ==> s.tasks[id].Terminal() }

  /** `id` was handed out, and is terminal or no longer retained. */
  predicate Over(w: World, id: TaskId) { id in w.issued && TerminalOrGone(w.store, id) }

  /** Same record, or none, for an id that is over. */
  predicate Frozen(w: World, v: World, id: TaskId) {
    && Over(v, id)
    && (id in v.store.tasks ==> id in w.store.tasks && v.store.tasks[id] == w.store.tasks[id])
  }

  /** No step touches a terminal record, and only a submission creates one. */
  lemma StepLeavesOthersAlone(s: Store, opts: Options, e: Event, id: TaskId)
    requires TerminalOrGone(s, id) && (e.SubmitEvent? ==> id != TaskId(s.next))
    ensures var t := Step(s, opts, e); id in t.tasks ==> id in s.tasks && t.tasks[id] == s.tasks[id]
  {
  }

  lemma ApplyFreezes(w: World, opts: Options, e: Event, id: TaskId)
    requires Over(w, id) && FreshId(w, e)
    ensures Frozen(w, Apply(w, opts, e), id)
  {
    ApplyIsStep(w, opts, e);
    StepLeavesOthersAlone(w.store, opts, e, id);
  }

  /** Terminal is absorbing: from any point at which a task is over, every
      continuation that does not hand its id out again leaves its record untouched
      or drops it, never brings it back, and a late finish changes nothing. */
  lemma {:induction false} TerminalIsAbsorbing(w: World, opts: Options, es: seq<Event>, id: TaskId)
    requires Fresh(w, opts, es) && Over(w, id)
    ensures Frozen(w, Run(w, opts, es), id)
    ensures forall outcome, now, trimAt ::
              Finish(Run(w, opts, es).store, opts, id, outcome, now, trimAt) == Run(w, opts, es).store
    decreases |es|
  {
    if es != [] {
      ApplyFreezes(w, opts, es[0], id);
      TerminalIsAbsorbing(Apply(w, opts, es[0]), opts, es[1..], id);
    }
  }
}
