/** In which order a cancelled source runs its callbacks, and what a wait does that begins after the cancel. */
module CancellationOrder {
  import opened Common
  import opened Cancellation

  predicate IsRegistered(s: State, c: Call) { c in s.pcs && s.pcs[c].Registered? }

  /** If both callbacks were put in the list, the first has the smaller id. */
  predicate InOrder(s: State, a: Call, b: Call) {
    IsRegistered(s, a) && IsRegistered(s, b) ==> s.pcs[a].id < s.pcs[b].id
  }

  predicate AllInOrder(s: State, calls: seq<Call>) {
    forall i, j :: 0 <= i < j < |calls| ==> InOrder(s, calls[i], calls[j])
  }

  /** What has run and what is still to run, one behind the other, is in order; before the
      list is emptied only callbacks that were never in it have run. */
  ghost predicate OrderInv(s: State) {
    && AllInOrder(s, s.log + s.todo)
    && (!Late(s) ==> s.todo == [] && forall i :: 0 <= i < |s.log| ==> !IsRegistered(s, s.log[i]))
  }

  /** A registrar that has returned stands still. */
  lemma ReturnedStays(s: State, e: Event, c: Call)
    requires Enabled(s, e) && c in s.pcs && (s.pcs[c].Registered? || s.pcs[c].RanNow?)
    ensures c in Apply(s, e).pcs && Apply(s, e).pcs[c] == s.pcs[c]
  {
  }

  lemma LoggedHasReturned(s: State, i: nat)
    requires Inv(s) && i < |s.log + s.todo|
    ensures var c := (s.log + s.todo)[i]; c in s.pcs && (s.pcs[c].Registered? || s.pcs[c].RanNow?)
  {
    var c := (s.log + s.todo)[i];
    if i < |s.log| { assert c == s.log[i]; } else { assert c == s.todo[i - |s.log|]; }
  }

  lemma OrderStays(s: State, e: Event)
    requires Inv(s) && Enabled(s, e) && AllInOrder(s, s.log + s.todo)
    ensures AllInOrder(Apply(s, e), s.log + s.todo)
  {
    var t, calls := Apply(s, e), s.log + s.todo;
    forall i, j | 0 <= i < j < |calls| ensures InOrder(t, calls[i], calls[j]) {
      assert InOrder(s, calls[i], calls[j]);
      LoggedHasReturned(s, i);
      LoggedHasReturned(s, j);
      ReturnedStays(s, e, calls[i]);
      ReturnedStays(s, e, calls[j]);
    }
  }

  lemma NoneRegisteredStays(s: State, e: Event)
    requires Inv(s) && Enabled(s, e) && forall i :: 0 <= i < |s.log| ==> !IsRegistered(s, s.log[i])
    ensures forall i :: 0 <= i < |s.log| ==> !IsRegistered(Apply(s, e), s.log[i])
  {
    forall i | 0 <= i < |s.log| ensures !IsRegistered(Apply(s, e), s.log[i]) {
      assert s.log[i] == (s.log + s.todo)[i];
      LoggedHasReturned(s, i);
      ReturnedStays(s, e, s.log[i]);
    }
  }

  /** One that was never in the list may stand anywhere. */
  lemma PutBetween(t: State, log: seq<Call>, c: Call, todo: seq<Call>)
    requires AllInOrder(t, log + todo) && !IsRegistered(t, c)
    ensures AllInOrder(t, log + [c] + todo)
  {
    var was, now, n := log + todo, log + [c] + todo, |log|;
    forall i, j | 0 <= i < j < |now| ensures InOrder(t, now[i], now[j]) {
      if i != n && j != n {
        var i', j' := if i < n then i else i - 1, if j < n then j else j - 1;
        assert now[i] == was[i'] && now[j] == was[j'];
        assert InOrder(t, was[i'], was[j']);
      }
    }
  }

  lemma RegisterRunKeepsOrder(s: State, c: Call)
    requires Inv(s) && OrderInv(s) && Enabled(s, RegisterRun(c))
    ensures OrderInv(Apply(s, RegisterRun(c)))
  {
    OrderStays(s, RegisterRun(c));
    PutBetween(Apply(s, RegisterRun(c)), s.log, c, s.todo);
    if !Late(s) { NoneRegisteredStays(s, RegisterRun(c)); }
  }

  /** None of `log` was in the list, and the ids in the list grow. */
  lemma ListInOrder(t: State, log: seq<Call>, list: seq<Entry>)
    requires forall i :: 0 <= i < |log| ==> !IsRegistered(t, log[i])
    requires forall i :: 0 <= i < |list| ==> At(t, list[i].callback, Registered(list[i].id))
    requires forall i, j :: 0 <= i < j < |list| ==> list[i].id < list[j].id
    ensures AllInOrder(t, log + Callbacks(list))
  {
    var now, n := log + Callbacks(list), |log|;
    forall i, j | 0 <= i < j < |now| ensures InOrder(t, now[i], now[j]) {
      if i < n {
        assert now[i] == log[i];
      } else {
        assert now[i] == list[i - n].callback && now[j] == list[j - n].callback;
      }
    }
  }

  lemma DrainKeepsOrder(s: State)
    requires Inv(s) && OrderInv(s) && Enabled(s, Drain)
    ensures OrderInv(Apply(s, Drain))
  {
    ListInOrder(s, s.log, s.list);
    SamePcs(s, Apply(s, Drain), s.log + Callbacks(s.list));
  }

  lemma SamePcs(s: State, t: State, calls: seq<Call>)
    requires s.pcs == t.pcs && AllInOrder(s, calls)
    ensures AllInOrder(t, calls)
  {
    forall i, j | 0 <= i < j < |calls| ensures InOrder(t, calls[i], calls[j]) { assert InOrder(s, calls[i], calls[j]); }
  }

  predicate MovesCallbacks(e: Event) { e.RegisterRun? || e.Drain? || e.RunNext? }

  lemma OthersMoveNone(s: State, e: Event)
    requires ListInv(s) && Enabled(s, e) && !MovesCallbacks(e)
    ensures var t := Apply(s, e); t.log == s.log && t.todo == s.todo && (Late(t) <==> Late(s))
  {
  }

  lemma OthersKeepOrder(s: State, e: Event)
    requires Inv(s) && OrderInv(s) && Enabled(s, e) && !MovesCallbacks(e)
    ensures OrderInv(Apply(s, e))
  {
    OthersMoveNone(s, e);
    OrderStays(s, e);
    if !Late(s) { NoneRegisteredStays(s, e); }
  }

  lemma RunNextKeepsOrder(s: State)
    requires Inv(s) && OrderInv(s) && Enabled(s, RunNext)
    ensures OrderInv(Apply(s, RunNext))
  {
    OrderStays(s, RunNext);
    assert s.log + [s.todo[0]] + s.todo[1..] == s.log + s.todo;
  }

  lemma OrderKept(s: State, e: Event)
    requires Inv(s) && OrderInv(s) && Enabled(s, e)
    ensures OrderInv(Apply(s, e))
  {
    if e.RegisterRun? {
      RegisterRunKeepsOrder(s, e.c);
    } else if e.Drain? {
      DrainKeepsOrder(s);
    } else if e.RunNext? {
      RunNextKeepsOrder(s);
    } else {
      OthersKeepOrder(s, e);
    }
  }

  lemma {:induction false} RunKeepsOrder(s: State, events: seq<Event>)
    requires Inv(s) && OrderInv(s) && Legal(s, events)
    ensures OrderInv(Run(s, events))
    decreases |events|
  {
    if events != [] {
      InvKept(s, events[0]);
      OrderKept(s, events[0]);
      RunKeepsOrder(Apply(s, events[0]), events[1..]);
    }
  }

  /** Callbacks that were in the list run in the order in which they were put there, however
      many registrars run their own in between. */
  lemma ListedRunInOrder(events: seq<Event>, i: nat, j: nat)
    requires Legal(INITIAL, events)
    requires var s := Run(INITIAL, events);
      i < j < |s.log| && s.log[i] in s.pcs && s.pcs[s.log[i]].Registered? && s.log[j] in s.pcs && s.pcs[s.log[j]].Registered?
    ensures var s := Run(INITIAL, events); s.pcs[s.log[i]].id < s.pcs[s.log[j]].id
  {
    InitialInv();
    RunKeepsOrder(INITIAL, events);
    var s := Run(INITIAL, events);
    assert (s.log + s.todo)[i] == s.log[i] && (s.log + s.todo)[j] == s.log[j];
    assert InOrder(s, s.log[i], s.log[j]);
  }

  // ------------------------------------------------------ waits that begin late

  /** The wait has not looked yet, or is back with true. */
  predicate Prompt(s: State, c: Call) { s.flag && (At(s, c, Looking) || At(s, c, Back(true))) }

  lemma PromptKeptByWaiter(s: State, e: Event, c: Call)
    requires Prompt(s, c) && Enabled(s, e) && ByWaiter(e)
    ensures Prompt(Apply(s, e), c)
  {
  }

  lemma PromptKeptByOthers(s: State, e: Event, c: Call)
    requires Prompt(s, c) && Enabled(s, e) && !ByWaiter(e)
    ensures Prompt(Apply(s, e), c)
  {
  }

  lemma {:induction false} PromptStays(s: State, events: seq<Event>, c: Call)
    requires Prompt(s, c) && Legal(s, events)
    ensures Prompt(Run(s, events), c)
    decreases |events|
  {
    if events != [] {
      if ByWaiter(events[0]) { PromptKeptByWaiter(s, events[0], c); } else { PromptKeptByOthers(s, events[0], c); }
      PromptStays(Apply(s, events[0]), events[1..], c);
    }
  }

  /** A wait that begins once the flag is up never takes the mutex and never sleeps: its first
      step brings it back with true. */
  lemma LateWaitsComeBackAtOnce(s: State, c: Call, timed: bool, after: seq<Event>)
    requires s.flag && c !in s.pcs && Legal(Apply(s, WaitStart(c, timed)), after)
    ensures Prompt(Run(Apply(s, WaitStart(c, timed)), after), c)
  {
    PromptStays(Apply(s, WaitStart(c, timed)), after, c);
  }
}
