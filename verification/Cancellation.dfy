/**
 * A cancellation source, its token and the callbacks registered on the token, as
 * a state machine. The atomic flag is raised outside the mutex, so it may change
 * between any two steps of a thread that holds the mutex; everything else changes
 * under the mutex. A call is one invocation of register or wait by some thread;
 * only the first `cancel()` does more than notify, so it is the phase of the state.
 */
module Cancellation {
  import opened Common

  type Call = nat

  /** An element of `callbacks`: its id, and the registering call, which stands for the callback. */
  datatype Entry = Entry(id: nat, callback: Call)

  /** Where a call of register or wait stands. */
  datatype Pc =
    // register_cancellation_callback
    | Entering                 // about to lock
    | Holding                  // holds the mutex, has not looked at the flag
    | Cleared                  // holds the mutex, has seen the flag down
    | Deciding                 // has released the mutex, has seen the flag up: about to run its callback
    | Registered(id: nat)      // has returned an active registration
    | RanNow                   // has run its callback and returned an empty registration
    // wait_for_cancel
    | Looking                  // about to look at the flag without the mutex
    | Blocking                 // about to lock
    | Checking                 // holds the mutex, about to look at the flag
    | Checked                  // holds the mutex, has seen the flag down
    | Asleep                   // sleeps on the condition variable
    | Back(cancelled: bool)    // has returned

  /** What has become of a callback. */
  datatype Place = Pending | Listed | Dropped | Drained | RunNow | Ran

  /** How far the first `cancel()` has come. */
  datatype Phase = Quiet | Raised | Emptied | Notified | Returned

  /**
   * `todo` holds the callbacks that the first `cancel()` moved out and has not run
   * yet, `log` the callbacks that have run, in the order in which they ran, and
   * `timed` the waits that were called with a timeout or a deadline.
   */
  datatype State = State(
    flag: bool, owner: Option<Call>, nextId: nat, list: seq<Entry>, phase: Phase, todo: seq<Call>, log: seq<Call>,
    pcs: map<Call, Pc>, place: map<Call, Place>, timed: set<Call>)

  const INITIAL := State(false, None, 1, [], Quiet, [], [], map[], map[], {})

  datatype Event =
    | RegisterStart(c: Call) | RegisterLock(c: Call) | RegisterLook(c: Call) | RegisterAppend(c: Call) | RegisterRun(c: Call)
    | Unregister(id: nat)
    | WaitStart(c: Call, timed: bool) | WaitLook(c: Call) | WaitLock(c: Call) | WaitCheck(c: Call) | WaitSleep(c: Call)
    | WaitGiveUp(c: Call) | WaitWake(c: Call)
    | Raise | Drain | Notify | RunNext | Return | NotifyAgain

  // --------------------------------------------------------- the entry list

  function Find(list: seq<Entry>, id: nat): (i: nat)
    ensures i <= |list|
    ensures i < |list| ==> list[i].id == id
  {
    if list == [] || list[0].id == id then 0 else 1 + Find(list[1..], id)
  }

  function Erase(list: seq<Entry>, id: nat): seq<Entry> {
    var i := Find(list, id);
    if i < |list| then list[..i] + list[i + 1..] else list
  }

  function Callbacks(list: seq<Entry>): seq<Call> { seq(|list|, i requires 0 <= i < |list| => list[i].callback) }

  // -------------------------------------------------------------- the steps

  predicate At(s: State, c: Call, pc: Pc) { c in s.pcs && s.pcs[c] == pc }

  predicate Enabled(s: State, e: Event) {
    match e
    case RegisterStart(c) => c !in s.pcs
    case RegisterLock(c) => At(s, c, Entering) && s.owner.None?
    case RegisterLook(c) => At(s, c, Holding)
    case RegisterAppend(c) => At(s, c, Cleared)
    case RegisterRun(c) => At(s, c, Deciding)
    case Unregister(id) => s.owner.None?
    case WaitStart(c, _) => c !in s.pcs
    case WaitLook(c) => At(s, c, Looking)
    case WaitLock(c) => At(s, c, Blocking) && s.owner.None?
    case WaitCheck(c) => At(s, c, Checking)
    case WaitSleep(c) => At(s, c, Checked)
    case WaitGiveUp(c) => At(s, c, Checked) && c in s.timed
    case WaitWake(c) => At(s, c, Asleep)
    case Raise => !s.flag
    case Drain => s.phase == Raised && s.owner.None?
    case Notify => s.phase == Emptied
    case RunNext => s.phase == Notified && s.todo != []
    case Return => s.phase == Notified && s.todo == []
    case NotifyAgain => s.flag
  }

  function Go(s: State, c: Call, pc: Pc): State { s.(pcs := s.pcs[c := pc]) }

  function Acquire(s: State, c: Call, pc: Pc): State { Go(s, c, pc).(owner := Some(c)) }

  function Release(s: State, c: Call, pc: Pc): State { Go(s, c, pc).(owner := None) }

  function Put(s: State, c: Call, p: Place): State { s.(place := s.place[c := p]) }

  /** `notify_all`: every sleeper is on its way to lock the mutex again. */
  function WakeAll(s: State): State {
    s.(pcs := map c | c in s.pcs :: if s.pcs[c] == Asleep then Blocking else s.pcs[c])
  }

  /** Every callback of the list has moved to the first canceller. */
  function Moved(s: State): map<Call, Place> {
    map c | c in s.place :: if s.place[c] == Listed then Drained else s.place[c]
  }

  function Apply(s: State, e: Event): State
    requires Enabled(s, e)
  {
    match e
    case RegisterStart(c) => Put(Go(s, c, Entering), c, Pending)
    case RegisterLock(c) => Acquire(s, c, Holding)
    case RegisterLook(c) => if s.flag then Put(Release(s, c, Deciding), c, RunNow) else Go(s, c, Cleared)
    case RegisterAppend(c) =>
      Put(Release(s, c, Registered(s.nextId)), c, Listed).(list := s.list + [Entry(s.nextId, c)], nextId := s.nextId + 1)
    case RegisterRun(c) => Put(Go(s, c, RanNow), c, Ran).(log := s.log + [c])
    case Unregister(id) =>
      var i := Find(s.list, id);
      if i == |s.list| then s else Put(s, s.list[i].callback, Dropped).(list := Erase(s.list, id))
    case WaitStart(c, timed) => Go(s, c, Looking).(timed := if timed then s.timed + {c} else s.timed)
    case WaitLook(c) => Go(s, c, if s.flag then Back(true) else Blocking)
    case WaitLock(c) => Acquire(s, c, Checking)
    case WaitCheck(c) => if s.flag then Release(s, c, Back(true)) else Go(s, c, Checked)
    case WaitSleep(c) => Release(s, c, Asleep)
    case WaitGiveUp(c) => Release(s, c, Back(false))
    case WaitWake(c) => Go(s, c, Blocking)
    case Raise => s.(flag := true, phase := Raised)
    case Drain => s.(phase := Emptied, todo := Callbacks(s.list), list := [], place := Moved(s))
    case Notify => WakeAll(s).(phase := Notified)
    case RunNext => Put(s, s.todo[0], Ran).(todo := s.todo[1..], log := s.log + [s.todo[0]])
    case Return => s.(phase := Returned)
    case NotifyAgain => WakeAll(s)
  }

  ghost predicate Legal(s: State, events: seq<Event>)
    decreases |events|
  {
    events == [] || (Enabled(s, events[0]) && Legal(Apply(s, events[0]), events[1..]))
  }

  function Run(s: State, events: seq<Event>): State
    requires Legal(s, events)
    decreases |events|
  {
    if events == [] then s else Run(Apply(s, events[0]), events[1..])
  }

  // ---------------------------------------------------------- the invariant

  predicate HoldsLock(pc: Pc) { pc.Holding? || pc.Cleared? || pc.Checking? || pc.Checked? }

  predicate IsRegistrar(pc: Pc) {
    pc.Entering? || pc.Holding? || pc.Cleared? || pc.Deciding? || pc.Registered? || pc.RanNow?
  }

  /** A call holds the mutex exactly while it is inside its critical section. */
  predicate LockAt(s: State, c: Call) { (c in s.pcs && HoldsLock(s.pcs[c])) <==> s.owner == Some(c) }

  ghost predicate LockInv(s: State) { forall c :: LockAt(s, c) }

  /** A callback's place fits where its registering call stands. */
  predicate PlaceFits(pc: Pc, p: Place) {
    match p
    case Pending => pc.Entering? || pc.Holding? || pc.Cleared?
    case RunNow => pc.Deciding?
    case Ran => pc.Registered? || pc.RanNow?
    case _ => pc.Registered?
  }

  predicate PlaceInv(s: State) {
    && (forall c :: c in s.place ==> c in s.pcs && PlaceFits(s.pcs[c], s.place[c]))
    && (forall c :: c in s.pcs && IsRegistrar(s.pcs[c]) ==> c in s.place)
  }

  /** A sequence holds exactly the callbacks that are in one place, each of them once. */
  predicate Holds(calls: seq<Call>, place: map<Call, Place>, p: Place) {
    && NoDup(calls)
    && (forall i :: 0 <= i < |calls| ==> calls[i] in place && place[calls[i]] == p)
    && (forall c :: c in place && place[c] == p ==> c in calls)
  }

  predicate IdsInv(s: State) {
    && s.nextId >= 1
    && (forall i :: 0 <= i < |s.list| ==> 1 <= s.list[i].id < s.nextId && At(s, s.list[i].callback, Registered(s.list[i].id)))
    && (forall i, j :: 0 <= i < j < |s.list| ==> s.list[i].id < s.list[j].id)
  }

  /** The first `cancel()` has emptied the list, or has gone further. */
  predicate Late(s: State) { s.phase == Emptied || s.phase == Notified || s.phase == Returned }

  predicate ListInv(s: State) {
    && (s.flag <==> s.phase != Quiet)
    && (s.todo != [] ==> s.phase == Emptied || s.phase == Notified)
    && (Late(s) ==> s.list == [])
  }

  /** Nobody is late: once the list is emptied no call acts on a flag it saw down, and once notified none sleeps. */
  predicate NotLate(s: State, c: Call) {
    c in s.pcs && Late(s) ==>
      && !s.pcs[c].Cleared? && !s.pcs[c].Checked?
      && (s.phase != Emptied ==> !s.pcs[c].Asleep?)
  }

  ghost predicate PhaseInv(s: State) { ListInv(s) && forall c :: NotLate(s, c) }

  ghost predicate Inv(s: State) {
    && LockInv(s) && PlaceInv(s) && IdsInv(s) && PhaseInv(s)
    && Holds(Callbacks(s.list), s.place, Listed) && Holds(s.todo, s.place, Drained) && Holds(s.log, s.place, Ran)
  }

  predicate ByRegistrar(e: Event) {
    e.RegisterStart? || e.RegisterLock? || e.RegisterLook? || e.RegisterAppend? || e.RegisterRun?
  }

  predicate ByWaiter(e: Event) {
    e.WaitStart? || e.WaitLook? || e.WaitLock? || e.WaitCheck? || e.WaitSleep? || e.WaitGiveUp? || e.WaitWake?
  }

  predicate ByCanceller(e: Event) { !ByRegistrar(e) && !ByWaiter(e) }

  lemma LockKeptByWaiter(s: State, e: Event, c: Call)
    requires LockAt(s, c) && Enabled(s, e) && ByWaiter(e) && LockAt(s, e.c)
    ensures LockAt(Apply(s, e), c)
  {
  }

  lemma LockKeptByCanceller(s: State, e: Event, c: Call)
    requires LockAt(s, c) && Enabled(s, e) && ByCanceller(e)
    ensures LockAt(Apply(s, e), c)
  {
  }

  lemma LockKept(s: State, e: Event, c: Call)
    requires LockInv(s) && Enabled(s, e)
    ensures LockAt(Apply(s, e), c)
  {
    assert LockAt(s, c);
    if ByRegistrar(e) {
      assert LockAt(s, e.c);
    } else if ByWaiter(e) {
      assert LockAt(s, e.c);
      LockKeptByWaiter(s, e, c);
    } else {
      LockKeptByCanceller(s, e, c);
    }
  }

  lemma ListKept(s: State, e: Event)
    requires PhaseInv(s) && Enabled(s, e)
    ensures ListInv(Apply(s, e))
  {
    if e.RegisterAppend? { assert NotLate(s, e.c); }
  }

  lemma RegistrarIsNotLate(s: State, e: Event, c: Call)
    requires ListInv(s) && NotLate(s, c) && Enabled(s, e) && ByRegistrar(e)
    ensures NotLate(Apply(s, e), c)
  {
  }

  lemma WaiterIsNotLate(s: State, e: Event, c: Call)
    requires ListInv(s) && NotLate(s, c) && Enabled(s, e) && ByWaiter(e)
    ensures NotLate(Apply(s, e), c)
  {
  }

  lemma CancellerMakesNobodyLate(s: State, e: Event, c: Call)
    requires ListInv(s) && NotLate(s, c) && Enabled(s, e) && ByCanceller(e) && !e.Drain?
    ensures NotLate(Apply(s, e), c)
  {
  }

  lemma NotLateKept(s: State, e: Event, c: Call)
    requires ListInv(s) && NotLate(s, c) && Enabled(s, e) && !e.Drain?
    ensures NotLate(Apply(s, e), c)
  {
    if ByRegistrar(e) {
      RegistrarIsNotLate(s, e, c);
    } else if ByWaiter(e) {
      WaiterIsNotLate(s, e, c);
    } else {
      CancellerMakesNobodyLate(s, e, c);
    }
  }

  /** The drain finds the mutex free, so nobody is between looking at the flag and acting on it. */
  lemma DrainFindsNobody(s: State, c: Call)
    requires LockAt(s, c) && Enabled(s, Drain)
    ensures NotLate(Apply(s, Drain), c)
  {
  }

  lemma ControlKept(s: State, e: Event)
    requires LockInv(s) && PhaseInv(s) && Enabled(s, e)
    ensures LockInv(Apply(s, e)) && PhaseInv(Apply(s, e))
  {
    ListKept(s, e);
    forall c ensures LockAt(Apply(s, e), c) { LockKept(s, e, c); }
    forall c ensures NotLate(Apply(s, e), c) {
      assert LockAt(s, c) && NotLate(s, c);
      if e.Drain? { DrainFindsNobody(s, c); } else { NotLateKept(s, e, c); }
    }
  }

  /** The part of the invariant about callbacks. */
  predicate CallbackInv(s: State) {
    && PlaceInv(s) && IdsInv(s)
    && Holds(Callbacks(s.list), s.place, Listed) && Holds(s.todo, s.place, Drained) && Holds(s.log, s.place, Ran)
  }

  /** A call moves on; the callbacks stay where they are. */
  lemma CallMoves(s: State, t: State, c: Call, pc: Pc)
    requires CallbackInv(s) && t == s.(pcs := s.pcs[c := pc], owner := t.owner, timed := t.timed)
    requires c in s.pcs ==> !s.pcs[c].Registered?
    requires c in s.place <==> IsRegistrar(pc)
    requires c in s.place ==> PlaceFits(pc, s.place[c])
    ensures CallbackInv(t)
  {
  }

  lemma NotifyKeeps(s: State)
    requires CallbackInv(s)
    ensures CallbackInv(WakeAll(s))
  {
    var t := WakeAll(s);
    assert forall c :: c in s.pcs && s.pcs[c] != Asleep ==> t.pcs[c] == s.pcs[c];
    assert forall c, pc :: At(s, c, pc) && pc != Asleep ==> At(t, c, pc);
  }

  // How a sequence and the places change together.

  lemma HoldsElsewhere(calls: seq<Call>, place: map<Call, Place>, p: Place, c: Call, q: Place)
    requires Holds(calls, place, p) && (c in place ==> place[c] != p) && q != p
    ensures Holds(calls, place[c := q], p)
  {
  }

  lemma HoldsOneMore(calls: seq<Call>, place: map<Call, Place>, p: Place, c: Call)
    requires Holds(calls, place, p) && (c in place ==> place[c] != p)
    ensures Holds(calls + [c], place[c := p], p)
  {
  }

  lemma HoldsOneLess(calls: seq<Call>, place: map<Call, Place>, p: Place, i: nat, q: Place)
    requires Holds(calls, place, p) && i < |calls| && q != p
    ensures Holds(calls[..i] + calls[i + 1..], place[calls[i] := q], p)
  {
    var rest, place' := calls[..i] + calls[i + 1..], place[calls[i] := q];
    forall c | c in place' && place'[c] == p ensures c in rest {
      var k :| 0 <= k < |calls| && calls[k] == c;
      assert rest[if k < i then k else k - 1] == c;
    }
  }

  lemma PlaceMoves(s: State, t: State, c: Call, pc: Pc, q: Place)
    requires PlaceInv(s) && t.pcs == s.pcs[c := pc] && t.place == s.place[c := q]
    requires IsRegistrar(pc) && PlaceFits(pc, q)
    ensures PlaceInv(t)
  {
  }

  /** A callback changes its place, and none of the three sequences is concerned. */
  lemma StaysHeld(s: State, c: Call, q: Place)
    requires CallbackInv(s) && (c in s.place ==> s.place[c] == Pending || s.place[c] == RunNow)
    requires q == Pending || q == RunNow
    ensures var place := s.place[c := q];
      Holds(Callbacks(s.list), place, Listed) && Holds(s.todo, place, Drained) && Holds(s.log, place, Ran)
  {
    HoldsElsewhere(Callbacks(s.list), s.place, Listed, c, q);
    HoldsElsewhere(s.todo, s.place, Drained, c, q);
    HoldsElsewhere(s.log, s.place, Ran, c, q);
  }

  lemma IdsStay(s: State, t: State, c: Call, pc: Pc)
    requires IdsInv(s) && t.pcs == s.pcs[c := pc] && t.list == s.list && t.nextId == s.nextId
    requires c in s.pcs ==> !s.pcs[c].Registered?
    ensures IdsInv(t)
  {
  }

  lemma RegisterStartKeeps(s: State, c: Call)
    requires CallbackInv(s) && c !in s.pcs
    ensures CallbackInv(Apply(s, RegisterStart(c)))
  {
    var t := Apply(s, RegisterStart(c));
    PlaceMoves(s, t, c, Entering, Pending);
    IdsStay(s, t, c, Entering);
    StaysHeld(s, c, Pending);
  }

  lemma RegisterLookKeeps(s: State, c: Call)
    requires CallbackInv(s) && At(s, c, Holding)
    ensures CallbackInv(Apply(s, RegisterLook(c)))
  {
    var t := Apply(s, RegisterLook(c));
    if s.flag {
      PlaceMoves(s, t, c, Deciding, RunNow);
      IdsStay(s, t, c, Deciding);
      StaysHeld(s, c, RunNow);
    } else {
      CallMoves(s, t, c, Cleared);
    }
  }

  lemma IdsGrow(s: State, c: Call)
    requires IdsInv(s) && At(s, c, Cleared)
    ensures IdsInv(Apply(s, RegisterAppend(c)))
  {
  }

  lemma CallbacksAppend(list: seq<Entry>, e: Entry)
    ensures Callbacks(list + [e]) == Callbacks(list) + [e.callback]
  {
  }

  lemma RegisterAppendKeeps(s: State, c: Call)
    requires CallbackInv(s) && At(s, c, Cleared)
    ensures CallbackInv(Apply(s, RegisterAppend(c)))
  {
    PlaceMoves(s, Apply(s, RegisterAppend(c)), c, Registered(s.nextId), Listed);
    IdsGrow(s, c);
    CallbacksAppend(s.list, Entry(s.nextId, c));
    assert c in s.place && s.place[c] == Pending;
    HoldsOneMore(Callbacks(s.list), s.place, Listed, c);
    HoldsElsewhere(s.todo, s.place, Drained, c, Listed);
    HoldsElsewhere(s.log, s.place, Ran, c, Listed);
  }

  lemma RegisterRunKeeps(s: State, c: Call)
    requires CallbackInv(s) && At(s, c, Deciding)
    ensures CallbackInv(Apply(s, RegisterRun(c)))
  {
    var t := Apply(s, RegisterRun(c));
    PlaceMoves(s, t, c, RanNow, Ran);
    IdsStay(s, t, c, RanNow);
    assert c in s.place && s.place[c] == RunNow;
    HoldsElsewhere(Callbacks(s.list), s.place, Listed, c, Ran);
    HoldsElsewhere(s.todo, s.place, Drained, c, Ran);
    HoldsOneMore(s.log, s.place, Ran, c);
  }

  lemma CallbacksErase(list: seq<Entry>, i: nat)
    requires i < |list|
    ensures Callbacks(list[..i] + list[i + 1..]) == Callbacks(list)[..i] + Callbacks(list)[i + 1..]
  {
  }

  lemma IdsShrink(s: State, i: nat)
    requires IdsInv(s) && i < |s.list|
    ensures IdsInv(s.(list := s.list[..i] + s.list[i + 1..]))
  {
    var rest := s.list[..i] + s.list[i + 1..];
    assert forall k :: 0 <= k < |rest| ==> rest[k] == s.list[if k < i then k else k + 1];
  }

  lemma UnregisterHolds(s: State, i: nat, c: Call)
    requires CallbackInv(s) && i < |s.list| && c == s.list[i].callback
    ensures var place := s.place[c := Dropped];
      && Holds(Callbacks(s.list[..i] + s.list[i + 1..]), place, Listed)
      && Holds(s.todo, place, Drained) && Holds(s.log, place, Ran)
  {
    assert Callbacks(s.list)[i] == c;
    CallbacksErase(s.list, i);
    HoldsOneLess(Callbacks(s.list), s.place, Listed, i, Dropped);
    HoldsElsewhere(s.todo, s.place, Drained, c, Dropped);
    HoldsElsewhere(s.log, s.place, Ran, c, Dropped);
  }

  lemma UnregisterKeeps(s: State, id: nat)
    requires CallbackInv(s) && s.owner.None?
    ensures CallbackInv(Apply(s, Unregister(id)))
  {
    var i := Find(s.list, id);
    if i < |s.list| {
      var c := s.list[i].callback;
      assert At(s, c, Registered(s.list[i].id));
      PlaceMoves(s, Apply(s, Unregister(id)), c, s.pcs[c], Dropped);
      IdsShrink(s, i);
      UnregisterHolds(s, i, c);
    }
  }

  lemma DrainKeeps(s: State)
    requires CallbackInv(s) && s.todo == [] && Enabled(s, Drain)
    ensures CallbackInv(Apply(s, Drain))
  {
    assert Callbacks([]) == [];
    forall c | c in s.place ensures s.place[c] != Drained { assert c !in s.todo; }
  }

  lemma RunNextKeeps(s: State)
    requires CallbackInv(s) && s.todo != []
    ensures CallbackInv(Put(s, s.todo[0], Ran).(todo := s.todo[1..], log := s.log + [s.todo[0]]))
  {
    var c := s.todo[0];
    var t := Put(s, s.todo[0], Ran).(todo := s.todo[1..], log := s.log + [s.todo[0]]);
    PlaceMoves(s, t, c, s.pcs[c], Ran);
    HoldsElsewhere(Callbacks(s.list), s.place, Listed, c, Ran);
    HoldsOneLess(s.todo, s.place, Drained, 0, Ran);
    assert s.todo[..0] + s.todo[1..] == s.todo[1..];
    HoldsOneMore(s.log, s.place, Ran, c);
  }

  lemma WaitKeeps(s: State, e: Event)
    requires CallbackInv(s) && Enabled(s, e) && ByWaiter(e)
    ensures CallbackInv(Apply(s, e))
  {
    var t := Apply(s, e);
    CallMoves(s, t, e.c, t.pcs[e.c]);
  }

  lemma CallbacksKept(s: State, e: Event)
    requires CallbackInv(s) && PhaseInv(s) && Enabled(s, e)
    ensures CallbackInv(Apply(s, e))
  {
    match e
    case RegisterStart(c) => RegisterStartKeeps(s, c);
    case RegisterLock(c) => CallMoves(s, Apply(s, e), c, Holding);
    case RegisterLook(c) => RegisterLookKeeps(s, c);
    case RegisterAppend(c) => RegisterAppendKeeps(s, c);
    case RegisterRun(c) => RegisterRunKeeps(s, c);
    case Unregister(id) => UnregisterKeeps(s, id);
    case Drain => DrainKeeps(s);
    case Notify => NotifyKeeps(s);
    case NotifyAgain => NotifyKeeps(s);
    case RunNext => RunNextKeeps(s);
    case Raise =>
    case Return =>
    case _ => WaitKeeps(s, e);
  }

  lemma InvKept(s: State, e: Event)
    requires Inv(s) && Enabled(s, e)
    ensures Inv(Apply(s, e))
  {
    CallbacksKept(s, e);
    ControlKept(s, e);
  }

  lemma {:induction false} RunKeepsInv(s: State, events: seq<Event>)
    requires Inv(s) && Legal(s, events)
    ensures Inv(Run(s, events))
    decreases |events|
  {
    if events != [] {
      InvKept(s, events[0]);
      RunKeepsInv(Apply(s, events[0]), events[1..]);
    }
  }

  // --------------------------------------------------------------- theorems

  /** No interleaving runs a callback twice. */
  lemma NoCallbackRunsTwice(events: seq<Event>)
    requires Legal(INITIAL, events)
    ensures NoDup(Run(INITIAL, events).log)
  {
    InitialInv();
    RunKeepsInv(INITIAL, events);
  }

  lemma ListedIsFound(s: State, c: Call, id: nat)
    requires IdsInv(s) && Holds(Callbacks(s.list), s.place, Listed)
    requires At(s, c, Registered(id)) && c in s.place && s.place[c] == Listed
    ensures var k := Find(s.list, id); k < |s.list| && s.list[k] == Entry(id, c)
  {
    assert c in Callbacks(s.list);
    var k :| 0 <= k < |s.list| && Callbacks(s.list)[k] == c;
    assert At(s, s.list[k].callback, Registered(s.list[k].id));
    FindsIt(s.list, id, k);
  }

  /** Unregistering a callback that is still in the list takes it, and no other, out. */
  lemma UnregisterDrops(s: State, c: Call, id: nat)
    requires Inv(s) && s.owner.None? && At(s, c, Registered(id)) && s.place[c] == Listed
    ensures Apply(s, Unregister(id)) == Put(s, c, Dropped).(list := Erase(s.list, id))
    ensures |Erase(s.list, id)| == |s.list| - 1
  {
    ListedIsFound(s, c, id);
  }

  lemma {:induction false} FindsIt(list: seq<Entry>, id: nat, k: nat)
    requires k < |list| && list[k].id == id && forall i, j :: 0 <= i < j < |list| ==> list[i].id < list[j].id
    ensures Find(list, id) == k
  {
    if k > 0 {
      assert list[0].id < list[k].id;
      FindsIt(list[1..], id, k - 1);
    }
  }

  lemma UnregisterSpares(s: State, id: nat, c: Call)
    requires Inv(s) && s.owner.None? && c in s.place && s.place[c] != Listed
    ensures c in Apply(s, Unregister(id)).place && Apply(s, Unregister(id)).place[c] == s.place[c]
  {
    var i := Find(s.list, id);
    if i < |s.list| { assert Callbacks(s.list)[i] == s.list[i].callback; }
  }

  predicate Settled(place: map<Call, Place>, c: Call) { c in place && (place[c] == Dropped || place[c] == Ran) }

  lemma RegistrarMovesItsOwn(s: State, e: Event, c: Call)
    requires PlaceInv(s) && Enabled(s, e) && ByRegistrar(e) && Settled(s.place, c)
    ensures c in Apply(s, e).place && Apply(s, e).place[c] == s.place[c]
  {
  }

  lemma CancellerMovesDrained(s: State, e: Event, c: Call)
    requires Holds(s.todo, s.place, Drained) && Enabled(s, e) && ByCanceller(e) && !e.Unregister? && Settled(s.place, c)
    ensures c in Apply(s, e).place && Apply(s, e).place[c] == s.place[c]
  {
  }

  lemma WaiterMovesNone(s: State, e: Event)
    requires Enabled(s, e) && ByWaiter(e)
    ensures Apply(s, e).place == s.place
  {
  }

  /** A dropped callback stays dropped, and a callback that has run stays so. */
  lemma SettledStays(s: State, e: Event, c: Call)
    requires Inv(s) && Enabled(s, e) && Settled(s.place, c)
    ensures c in Apply(s, e).place && Apply(s, e).place[c] == s.place[c]
  {
    if e.Unregister? {
      UnregisterSpares(s, e.id, c);
    } else if ByRegistrar(e) {
      RegistrarMovesItsOwn(s, e, c);
    } else if ByWaiter(e) {
      WaiterMovesNone(s, e);
    } else {
      CancellerMovesDrained(s, e, c);
    }
  }

  /** One that was unregistered before it was drained never runs, whatever follows. */
  lemma {:induction false} UnregisteredNeverRuns(s: State, c: Call, events: seq<Event>)
    requires Inv(s) && c in s.place && s.place[c] == Dropped && Legal(s, events)
    ensures c !in Run(s, events).log
    decreases |events|
  {
    if events != [] {
      SettledStays(s, events[0], c);
      InvKept(s, events[0]);
      UnregisteredNeverRuns(Apply(s, events[0]), c, events[1..]);
    }
  }

  lemma InitialInv()
    ensures Inv(INITIAL)
  {
    assert Callbacks([]) == [];
  }

  /** What has become of a registrar whose callback is neither listed nor drained. */
  predicate Through(s: State, c: Call)
    requires c in s.pcs && c in s.place
  {
    match s.pcs[c]
    case Registered(_) => c in s.log <==> s.place[c] != Dropped
    case RanNow => c in s.log
    case Deciding => c !in s.log
    case pc => c !in s.log && (pc == Entering || pc == Holding)
  }

  lemma ReturnedMeansThrough(s: State, c: Call)
    requires Inv(s) && s.phase == Returned && c in s.pcs && IsRegistrar(s.pcs[c])
    ensures c in s.place && Through(s, c)
  {
    assert NotLate(s, c);
    assert s.place[c] != Listed by { assert c !in Callbacks(s.list); }
    assert s.place[c] != Drained by { assert c !in s.todo; }
  }

  /**
   * Once the first `cancel()` has returned the list is empty, and every callback that
   * was registered has run exactly once, was unregistered before it was drained and
   * has not run, or is being run by its registrar. A registrar that has not yet looked
   * at the flag is the only one left, and it will find the flag up.
   */
  lemma FirstCancelSettlesAll(events: seq<Event>, c: Call)
    requires Legal(INITIAL, events)
    requires var s := Run(INITIAL, events); s.phase == Returned && c in s.pcs && IsRegistrar(s.pcs[c])
    ensures var s := Run(INITIAL, events);
      s.flag && s.list == [] && s.todo == [] && NoDup(s.log) && c in s.place && Through(s, c)
  {
    InitialInv();
    RunKeepsInv(INITIAL, events);
    ReturnedMeansThrough(Run(INITIAL, events), c);
  }

  /** No lost wakeup: after the first `cancel()` has notified, nobody sleeps or goes to sleep. */
  lemma NoLostWakeup(events: seq<Event>, c: Call)
    requires Legal(INITIAL, events)
    requires var s := Run(INITIAL, events); (s.phase == Notified || s.phase == Returned) && c in s.pcs
    ensures var s := Run(INITIAL, events); s.pcs[c] != Asleep && s.pcs[c] != Checked
  {
    InitialInv();
    RunKeepsInv(INITIAL, events);
    assert NotLate(Run(INITIAL, events), c);
  }

  /** A wait has come back with true only to a raised flag, and with false only if it was timed. */
  ghost predicate WaitInv(s: State) {
    forall c :: (At(s, c, Back(true)) ==> s.flag) && (At(s, c, Back(false)) ==> c in s.timed)
  }

  lemma WaitInvKept(s: State, e: Event)
    requires WaitInv(s) && Enabled(s, e)
    ensures WaitInv(Apply(s, e))
  {
    forall c ensures var t := Apply(s, e);
      (At(t, c, Back(true)) ==> t.flag) && (At(t, c, Back(false)) ==> c in t.timed)
    {
      AnswerIsTrue(s, e, c);
    }
  }

  lemma RegistrarGivesNoAnswer(s: State, e: Event, c: Call, cancelled: bool)
    requires Enabled(s, e) && ByRegistrar(e)
    ensures At(Apply(s, e), c, Back(cancelled)) ==> At(s, c, Back(cancelled))
    ensures Apply(s, e).timed == s.timed && Apply(s, e).flag == s.flag && Apply(s, e).phase == s.phase
  {
  }

  lemma CancellerGivesNoAnswer(s: State, e: Event, c: Call, cancelled: bool)
    requires Enabled(s, e) && ByCanceller(e)
    ensures At(Apply(s, e), c, Back(cancelled)) ==> At(s, c, Back(cancelled))
    ensures Apply(s, e).timed == s.timed && (s.flag ==> Apply(s, e).flag)
    ensures ListInv(s) && (s.phase == Notified || s.phase == Returned) ==>
      Apply(s, e).phase == Notified || Apply(s, e).phase == Returned
  {
  }

  /** What is said of a wait's answer is unaffected by everyone else. */
  lemma OthersGiveNoAnswer(s: State, e: Event, c: Call, cancelled: bool)
    requires Enabled(s, e) && !ByWaiter(e)
    ensures At(Apply(s, e), c, Back(cancelled)) ==> At(s, c, Back(cancelled))
    ensures Apply(s, e).timed == s.timed && (s.flag ==> Apply(s, e).flag)
    ensures ListInv(s) && (s.phase == Notified || s.phase == Returned) ==>
      Apply(s, e).phase == Notified || Apply(s, e).phase == Returned
  {
    if ByRegistrar(e) { RegistrarGivesNoAnswer(s, e, c, cancelled); } else { CancellerGivesNoAnswer(s, e, c, cancelled); }
  }

  lemma WaiterAnswers(s: State, e: Event, c: Call)
    requires Enabled(s, e) && ByWaiter(e)
    ensures At(Apply(s, e), c, Back(true)) ==> At(s, c, Back(true)) || s.flag
    ensures At(Apply(s, e), c, Back(false)) ==> At(s, c, Back(false)) || (c in s.timed && At(s, c, Checked))
    ensures Apply(s, e).flag == s.flag && s.timed <= Apply(s, e).timed && Apply(s, e).phase == s.phase
  {
  }

  lemma AnswerIsTrue(s: State, e: Event, c: Call)
    requires Enabled(s, e) && (At(s, c, Back(true)) ==> s.flag) && (At(s, c, Back(false)) ==> c in s.timed)
    ensures var t := Apply(s, e); (At(t, c, Back(true)) ==> t.flag) && (At(t, c, Back(false)) ==> c in t.timed)
  {
    if ByWaiter(e) {
      WaiterAnswers(s, e, c);
    } else {
      OthersGiveNoAnswer(s, e, c, true);
      OthersGiveNoAnswer(s, e, c, false);
    }
  }

  lemma {:induction false} RunKeepsWaitInv(s: State, events: seq<Event>)
    requires WaitInv(s) && Legal(s, events)
    ensures WaitInv(Run(s, events))
    decreases |events|
  {
    if events != [] {
      WaitInvKept(s, events[0]);
      RunKeepsWaitInv(Apply(s, events[0]), events[1..]);
    }
  }

  /** A wait returns true only once the source has been cancelled, and a wait
      without a timeout returns nothing else. */
  lemma WaitersAreToldTheTruth(events: seq<Event>, c: Call, cancelled: bool)
    requires Legal(INITIAL, events) && At(Run(INITIAL, events), c, Back(cancelled))
    ensures var s := Run(INITIAL, events); if cancelled then s.flag else c in s.timed
  {
    RunKeepsWaitInv(INITIAL, events);
  }

  /** Once the first `cancel()` has notified, no wait comes back with false any more, timed or not. */
  lemma {:induction false} NoWaitGivesUpAfterNotify(s: State, events: seq<Event>, c: Call)
    requires Inv(s) && (s.phase == Notified || s.phase == Returned) && Legal(s, events)
    requires !At(s, c, Back(false))
    ensures !At(Run(s, events), c, Back(false))
    decreases |events|
  {
    if events != [] {
      InvKept(s, events[0]);
      NoGivingUp(s, events[0], c);
      NoWaitGivesUpAfterNotify(Apply(s, events[0]), events[1..], c);
    }
  }

  lemma NoGivingUp(s: State, e: Event, c: Call)
    requires PhaseInv(s) && (s.phase == Notified || s.phase == Returned) && Enabled(s, e) && !At(s, c, Back(false))
    ensures var t := Apply(s, e); !At(t, c, Back(false)) && (t.phase == Notified || t.phase == Returned)
  {
    assert NotLate(s, c);
    if ByWaiter(e) { WaiterAnswers(s, e, c); } else { OthersGiveNoAnswer(s, e, c, false); }
  }

  // ------------------------------------------------------------ in place

  /** `CancellationState` with the list edited where it stands, each method one hold of the mutex. */
  class CancellationState {
    var cancelled: bool
    var nextCallbackId: nat
    var callbacks: seq<Entry>

    constructor ()
      ensures !cancelled && nextCallbackId == INITIAL.nextId && callbacks == INITIAL.list
    {
      cancelled, nextCallbackId, callbacks := false, 1, [];
    }

    /** What a registrar does under the mutex once it has seen the flag down. */
    method Append(callback: Call) returns (id: nat)
      modifies this`nextCallbackId, this`callbacks
      ensures id == old(nextCallbackId) && nextCallbackId == id + 1
      ensures callbacks == old(callbacks) + [Entry(id, callback)]
    {
      id := nextCallbackId;
      nextCallbackId := nextCallbackId + 1;
      callbacks := callbacks + [Entry(id, callback)];
    }

    /** `CancellationRegistration::unregister` under the mutex. */
    method Unregister(id: nat)
      modifies this`callbacks
      ensures callbacks == Erase(old(callbacks), id)
    {
      var i := 0;
      while i < |callbacks|
        invariant 0 <= i <= |callbacks| && callbacks == old(callbacks)
        invariant Find(callbacks, id) == i + Find(callbacks[i..], id)
      {
        if callbacks[i].id == id {
          callbacks := callbacks[..i] + callbacks[i + 1..];
          return;
        }
        assert callbacks[i..][1..] == callbacks[i + 1..];
        i := i + 1;
      }
    }

    /** The first `cancel()` under the mutex: moves the callbacks out, in order, and clears the list. */
    method Drain() returns (drained: seq<Call>)
      modifies this`callbacks
      ensures drained == Callbacks(old(callbacks)) && callbacks == []
    {
      drained := [];
      for i := 0 to |callbacks|
        invariant callbacks == old(callbacks) && drained == Callbacks(callbacks[..i])
      {
        CallbacksAppend(callbacks[..i], callbacks[i]);
        assert callbacks[..i] + [callbacks[i]] == callbacks[..i + 1];
        drained := drained + [callbacks[i].callback];
      }
      assert callbacks[..|callbacks|] == callbacks;
      callbacks := [];
    }
  }
}
