/**
 * A request handle shared by any number of awaiting threads and by the callback
 * of its cancellation token. Each hold of the control's mutex is one step; waiting
 * on the result cell, cancelling the cell and sending the cancel message are steps
 * of their own, so every interleaving of them is a run. The cell is set once.
 */
module RequestHandle {
  import opened Common

  type Call = nat

  datatype Failure = RequestCancelled | RequestTimedOut

  /** What the result cell holds: what the task returned, or the mark of its own cancellation. */
  datatype Outcome = Value(value: nat) | CellCancelled

  /** What an await returns. */
  datatype Answer = Cell(outcome: Outcome) | Fails(failure: Failure)

  datatype Config = Config(timeout: bool, token: bool)

  /** `RequestHandleControl`, less the registration. */
  datatype Control = Control(terminal: Option<Failure>, cancelSent: bool)

  datatype Pc =
    // await_response
    | Started                                   // about to look for a terminal error
    | Waiting                                   // waits on the cell, with or without a timeout
    | Woken(seen: Option<Outcome>)              // has an outcome, or has timed out
    | Failing(failure: Failure)                 // has called fail_terminal
    | Sending(failure: Failure, send: bool)     // has left the critical section of fail_terminal
    | Answered(answer: Answer)                  // has returned
    // the token's callback
    | Fired(send: bool)                         // has left its critical section
    | Cancelled(send: bool)                     // has cancelled the cell
    | Finished

  /**
   * `raised` is the token's flag, `sent` counts the cancel messages sent without
   * the user's asking, `sender` is the call that was the first to set `cancel_sent`,
   * and `found` is the terminal error that stood when an await began.
   */
  datatype State = State(
    config: Config, control: Control, alive: bool, raised: bool, cell: Option<Outcome>, pcs: map<Call, Pc>,
    sent: nat, sender: Option<Call>, found: map<Call, Option<Failure>>)

  datatype Event =
    | AwaitStart(c: Call) | AwaitLook(c: Call) | AwaitWake(c: Call) | AwaitTimeout(c: Call) | AwaitRecheck(c: Call)
    | AwaitFail(c: Call) | AwaitSend(c: Call)
    | TokenRaise | FireSettle(c: Call) | FireCancel(c: Call) | FireSend(c: Call)
    | Complete(value: nat) | Drop

  function Initial(config: Config): State {
    State(config, Control(None, false), true, false, None, map[], 0, None, map[])
  }

  /** The critical section that `fail_terminal` and the token's callback share: the first error stays. */
  function Settle(control: Control, failure: Failure): Control {
    Control(Some(if control.terminal.Some? then control.terminal.value else failure), true)
  }

  predicate At(s: State, c: Call, pc: Pc) { c in s.pcs && s.pcs[c] == pc }

  predicate IsAwait(pc: Pc) { !pc.Fired? && !pc.Cancelled? && !pc.Finished? }

  predicate Enabled(s: State, e: Event) {
    match e
    case AwaitStart(c) => s.alive && c !in s.pcs
    case AwaitLook(c) => At(s, c, Started)
    case AwaitWake(c) => At(s, c, Waiting) && s.cell.Some?
    case AwaitTimeout(c) => At(s, c, Waiting) && s.config.timeout
    case AwaitRecheck(c) => c in s.pcs && s.pcs[c].Woken?
    case AwaitFail(c) => c in s.pcs && s.pcs[c].Failing?
    case AwaitSend(c) => c in s.pcs && s.pcs[c].Sending?
    case TokenRaise => s.config.token
    case FireSettle(c) => s.config.token && s.raised && c !in s.pcs
    case FireCancel(c) => c in s.pcs && s.pcs[c].Fired?
    case FireSend(c) => c in s.pcs && s.pcs[c].Cancelled?
    case Complete(v) => s.cell.None?
    case Drop => forall c :: c in s.pcs && IsAwait(s.pcs[c]) ==> s.pcs[c].Answered?
  }

  function Go(s: State, c: Call, pc: Pc): State { s.(pcs := s.pcs[c := pc]) }

  /** A call goes through the shared critical section; only the first is told to send. */
  function Settled(s: State, c: Call, failure: Failure): State {
    s.(control := Settle(s.control, failure), sender := if s.control.cancelSent then s.sender else Some(c))
  }

  function Sent(s: State, send: bool): State { if send then s.(sent := s.sent + 1) else s }

  /** What an await does that has woken up: only a plain one returns the cell without looking again. */
  function Recheck(s: State, seen: Option<Outcome>): Pc {
    if s.control.terminal.Some? && (s.config.timeout || s.config.token) then Answered(Fails(s.control.terminal.value))
    else if seen.Some? then Answered(Cell(seen.value))
    else Failing(if s.config.token && s.raised then RequestCancelled else RequestTimedOut)
  }

  function Apply(s: State, e: Event): State
    requires Enabled(s, e)
  {
    match e
    case AwaitStart(c) => Go(s, c, Started).(found := s.found[c := s.control.terminal])
    case AwaitLook(c) => Go(s, c, if s.control.terminal.Some? then Answered(Fails(s.control.terminal.value)) else Waiting)
    case AwaitWake(c) => Go(s, c, Woken(s.cell))
    case AwaitTimeout(c) => Go(s, c, Woken(None))
    case AwaitRecheck(c) => Go(s, c, Recheck(s, s.pcs[c].seen))
    case AwaitFail(c) =>
      var t := Settled(s, c, s.pcs[c].failure);
      Go(t, c, Sending(t.control.terminal.value, !s.control.cancelSent))
    case AwaitSend(c) => Go(Sent(s, s.pcs[c].send), c, Answered(Fails(s.pcs[c].failure)))
    case TokenRaise => s.(raised := true)
    case FireSettle(c) =>
      if s.alive then Go(Settled(s, c, RequestCancelled), c, Fired(!s.control.cancelSent)) else Go(s, c, Fired(false))
    case FireCancel(c) => Go(s, c, Cancelled(s.pcs[c].send)).(cell := if s.cell.None? then Some(CellCancelled) else s.cell)
    case FireSend(c) => Go(Sent(s, s.pcs[c].send), c, Finished)
    case Complete(v) => s.(cell := Some(Value(v)))
    case Drop => s.(alive := false)
  }

  ghost predicate Legal(s: State, events: seq<Event>)
    decreases |events|
  {
    events == [] || (Enabled(s, events[0]) && Legal(Apply(s, events[0]), events[1..]))
  }

  function Run(s: State, events: seq<Event>): State
    requires Legal(s, events)
    decreases |events|
  {
    if events == [] then s else Run(Apply(s, events[0]), events[1..])
  }

  // ---------------------------------------------------------- the invariant

  /** The call has been told to send the cancel message and has not done so. */
  predicate MustSend(pc: Pc) { (pc.Sending? || pc.Fired? || pc.Cancelled?) && pc.send }

  predicate ControlInv(s: State) {
    && (s.control.terminal.Some? <==> s.control.cancelSent)
    && (s.control.cancelSent <==> s.sender.Some?)
  }

  /** Only the sender may owe the message, and it owes it until it has been sent. */
  predicate SenderInv(s: State) {
    && (forall c :: c in s.pcs && MustSend(s.pcs[c]) ==> s.sender == Some(c) && s.sent == 0)
    && s.sent <= 1
    && (s.sent == 1 ==> s.sender.Some?)
    && (s.sender.Some? ==> s.sender.value in s.pcs)
    && (s.sender.Some? && s.sent == 0 ==> MustSend(s.pcs[s.sender.value]))
  }

  /** What a call holds of the terminal error is the terminal error. */
  predicate AnswerAt(s: State, c: Call) {
    c in s.pcs ==>
      && (s.pcs[c].Sending? ==> s.control.terminal == Some(s.pcs[c].failure))
      && (s.pcs[c].Answered? && s.pcs[c].answer.Fails? ==> s.control.terminal == Some(s.pcs[c].answer.failure))
  }

  ghost predicate AnswerInv(s: State) { forall c :: AnswerAt(s, c) }

  /** An await, and nothing else, has a record of what it found. */
  predicate RecordAt(s: State, c: Call) { c in s.found <==> c in s.pcs && IsAwait(s.pcs[c]) }

  ghost predicate RecordInv(s: State) { forall c :: RecordAt(s, c) }

  /** An await that began under a terminal error looks at it and returns it. */
  predicate FoundAt(s: State, c: Call) {
    c in s.found && s.found[c].Some? ==>
      && s.control.terminal == s.found[c]
      && (At(s, c, Started) || At(s, c, Answered(Fails(s.found[c].value))))
  }

  ghost predicate FoundInv(s: State) { forall c :: FoundAt(s, c) }

  ghost predicate Inv(s: State) { ControlInv(s) && SenderInv(s) && AnswerInv(s) && RecordInv(s) && FoundInv(s) }

  /** Steps of awaits, and those of everyone else. */
  predicate ByAwait(e: Event) {
    e.AwaitStart? || e.AwaitLook? || e.AwaitWake? || e.AwaitTimeout? || e.AwaitRecheck? || e.AwaitFail? || e.AwaitSend?
  }

  lemma SenderSettles(s: State, e: Event)
    requires ControlInv(s) && SenderInv(s) && Enabled(s, e) && (e.AwaitFail? || e.FireSettle?)
    ensures SenderInv(Apply(s, e))
  {
  }

  lemma SenderSends(s: State, e: Event)
    requires SenderInv(s) && Enabled(s, e) && (e.AwaitSend? || e.FireSend?)
    ensures SenderInv(Apply(s, e))
  {
  }

  lemma SenderWaits(s: State, e: Event)
    requires SenderInv(s) && Enabled(s, e) && !e.AwaitFail? && !e.FireSettle? && !e.AwaitSend? && !e.FireSend?
    ensures SenderInv(Apply(s, e))
  {
  }

  lemma SenderKept(s: State, e: Event)
    requires Inv(s) && Enabled(s, e)
    ensures SenderInv(Apply(s, e))
  {
    if e.AwaitFail? || e.FireSettle? {
      SenderSettles(s, e);
    } else if e.AwaitSend? || e.FireSend? {
      SenderSends(s, e);
    } else {
      SenderWaits(s, e);
    }
  }

  lemma AnswerKeptByAwait(s: State, e: Event, c: Call)
    requires AnswerAt(s, c) && Enabled(s, e) && ByAwait(e)
    ensures AnswerAt(Apply(s, e), c)
  {
  }

  lemma AnswerKeptByOthers(s: State, e: Event, c: Call)
    requires AnswerAt(s, c) && Enabled(s, e) && !ByAwait(e)
    ensures AnswerAt(Apply(s, e), c)
  {
  }

  lemma AnswerKept(s: State, e: Event)
    requires AnswerInv(s) && Enabled(s, e)
    ensures AnswerInv(Apply(s, e))
  {
    forall c ensures AnswerAt(Apply(s, e), c) {
      assert AnswerAt(s, c);
      if ByAwait(e) { AnswerKeptByAwait(s, e, c); } else { AnswerKeptByOthers(s, e, c); }
    }
  }

  lemma RecordStays(s: State, e: Event, c: Call)
    requires RecordAt(s, c) && Enabled(s, e)
    ensures RecordAt(Apply(s, e), c)
    ensures c in s.found ==> c in Apply(s, e).found && Apply(s, e).found[c] == s.found[c]
  {
  }

  lemma FoundKeptByAwait(s: State, e: Event, c: Call)
    requires RecordAt(s, c) && FoundAt(s, c) && Enabled(s, e) && ByAwait(e)
    ensures FoundAt(Apply(s, e), c)
  {
    RecordStays(s, e, c);
  }

  lemma FoundKeptByOthers(s: State, e: Event, c: Call)
    requires RecordAt(s, c) && FoundAt(s, c) && Enabled(s, e) && !ByAwait(e)
    ensures FoundAt(Apply(s, e), c)
  {
    RecordStays(s, e, c);
  }

  lemma RecordKept(s: State, e: Event)
    requires RecordInv(s) && Enabled(s, e)
    ensures RecordInv(Apply(s, e))
  {
    forall c ensures RecordAt(Apply(s, e), c) { RecordStays(s, e, c); }
  }

  lemma FoundKept(s: State, e: Event)
    requires RecordInv(s) && FoundInv(s) && Enabled(s, e)
    ensures FoundInv(Apply(s, e))
  {
    forall c ensures FoundAt(Apply(s, e), c) {
      assert RecordAt(s, c) && FoundAt(s, c);
      if ByAwait(e) { FoundKeptByAwait(s, e, c); } else { FoundKeptByOthers(s, e, c); }
    }
  }

  lemma InvKept(s: State, e: Event)
    requires Inv(s) && Enabled(s, e)
    ensures Inv(Apply(s, e))
  {
    SenderKept(s, e);
    RecordKept(s, e);
    FoundKept(s, e);
    AnswerKept(s, e);
  }

  lemma {:induction false} RunKeepsInv(s: State, events: seq<Event>)
    requires Inv(s) && Legal(s, events)
    ensures Inv(Run(s, events))
    decreases |events|
  {
    if events != [] {
      InvKept(s, events[0]);
      RunKeepsInv(Apply(s, events[0]), events[1..]);
    }
  }

  // --------------------------------------------------------------- theorems

  /** The terminal error stands exactly when a cancel has been claimed, and at most one message is sent. */
  lemma OneAutomaticCancel(config: Config, events: seq<Event>)
    requires Legal(Initial(config), events)
    ensures var s := Run(Initial(config), events);
      && (s.control.terminal.Some? <==> s.control.cancelSent)
      && s.sent <= 1
      && (s.sent == 1 ==> s.control.cancelSent)
  {
    RunKeepsInv(Initial(config), events);
  }

  /** When every call is through, the claimed message has been sent. */
  lemma ClaimedCancelIsSent(config: Config, events: seq<Event>)
    requires Legal(Initial(config), events)
    requires var s := Run(Initial(config), events); forall c :: c in s.pcs ==> s.pcs[c].Answered? || s.pcs[c].Finished?
    ensures var s := Run(Initial(config), events); s.sent == if s.control.terminal.Some? then 1 else 0
  {
    RunKeepsInv(Initial(config), events);
  }

  /** The terminal error is written once: whatever follows, it stays what it is. */
  lemma {:induction false} TerminalIsFinal(s: State, events: seq<Event>)
    requires Inv(s) && Legal(s, events) && s.control.terminal.Some?
    ensures Run(s, events).control.terminal == s.control.terminal
    decreases |events|
  {
    if events != [] {
      InvKept(s, events[0]);
      TerminalIsFinal(Apply(s, events[0]), events[1..]);
    }
  }

  /** An await that begins after a terminal error returns that same error, if it returns. */
  lemma LaterAwaitsAgree(config: Config, before: seq<Event>, c: Call, after: seq<Event>)
    requires Legal(Initial(config), before)
    requires var s := Run(Initial(config), before);
      && s.control.terminal.Some? && Enabled(s, AwaitStart(c)) && Legal(Apply(s, AwaitStart(c)), after)
    ensures var s := Run(Initial(config), before);
      var t := Run(Apply(s, AwaitStart(c)), after);
      && t.control.terminal == s.control.terminal
      && (At(t, c, Started) || At(t, c, Answered(Fails(s.control.terminal.value))))
  {
    var s := Run(Initial(config), before);
    RunKeepsInv(Initial(config), before);
    InvKept(s, AwaitStart(c));
    var s' := Apply(s, AwaitStart(c));
    TerminalIsFinal(s', after);
    RunKeepsInv(s', after);
    FoundStays(s', c, after);
    assert FoundAt(Run(s', after), c);
  }

  lemma {:induction false} FoundStays(s: State, c: Call, events: seq<Event>)
    requires RecordInv(s) && Legal(s, events) && c in s.found
    ensures c in Run(s, events).found && Run(s, events).found[c] == s.found[c]
    decreases |events|
  {
    if events != [] {
      assert RecordAt(s, c);
      RecordKept(s, events[0]);
      RecordStays(s, events[0], c);
      FoundStays(Apply(s, events[0]), c, events[1..]);
    }
  }

  /** All awaits that fail return the same error, the one that is stored. */
  lemma FailuresAgree(config: Config, events: seq<Event>, c: Call)
    requires Legal(Initial(config), events)
    requires var s := Run(Initial(config), events); c in s.pcs && s.pcs[c].Answered? && s.pcs[c].answer.Fails?
    ensures var s := Run(Initial(config), events); s.control.terminal == Some(s.pcs[c].answer.failure)
  {
    RunKeepsInv(Initial(config), events);
    assert AnswerAt(Run(Initial(config), events), c);
  }

  /** The outcome an await has seen or returned is the one in the cell. */
  predicate CellInv(s: State) {
    && (forall c :: c in s.pcs && s.pcs[c].Woken? && s.pcs[c].seen.Some? ==> s.cell == s.pcs[c].seen)
    && (forall c :: c in s.pcs && s.pcs[c].Answered? && s.pcs[c].answer.Cell? ==> s.cell == Some(s.pcs[c].answer.outcome))
  }

  lemma CellKeptByAwait(s: State, e: Event)
    requires CellInv(s) && Enabled(s, e) && ByAwait(e)
    ensures CellInv(Apply(s, e))
  {
  }

  lemma CellKeptByOthers(s: State, e: Event)
    requires CellInv(s) && Enabled(s, e) && !ByAwait(e)
    ensures CellInv(Apply(s, e))
  {
  }

  lemma CellKept(s: State, e: Event)
    requires CellInv(s) && Enabled(s, e)
    ensures CellInv(Apply(s, e))
  {
    if ByAwait(e) { CellKeptByAwait(s, e); } else { CellKeptByOthers(s, e); }
  }

  /** Every await that does not fail returns the one outcome of the cell. */
  lemma {:induction false} OutcomesAgree(s: State, events: seq<Event>)
    requires CellInv(s) && Legal(s, events)
    ensures CellInv(Run(s, events)) && (s.cell.Some? ==> Run(s, events).cell == s.cell)
    decreases |events|
  {
    if events != [] {
      CellKept(s, events[0]);
      OutcomesAgree(Apply(s, events[0]), events[1..]);
    }
  }

  /** The token's callback has passed its critical section, so a terminal error stands unless the handle is gone. */
  predicate Abandoned(s: State) { s.config.token && (s.control.terminal.Some? || !s.alive) }

  /** The token's callback leaves the handle abandoned, an await keeps it alive, and none returns the mark. */
  predicate MarkAt(s: State, c: Call) {
    c in s.pcs ==>
      && (s.pcs[c].Fired? || s.pcs[c].Cancelled? ==> Abandoned(s))
      && (IsAwait(s.pcs[c]) && !s.pcs[c].Answered? ==> s.alive)
      && (s.pcs[c].Answered? ==> s.pcs[c].answer != Cell(CellCancelled))
  }

  /** The cell holds its own cancellation mark only if the handle is abandoned. */
  ghost predicate MarkInv(s: State) {
    (s.cell == Some(CellCancelled) ==> Abandoned(s)) && forall c :: MarkAt(s, c)
  }

  lemma CellMarked(s: State, e: Event)
    requires MarkInv(s) && Enabled(s, e)
    ensures Apply(s, e).cell == Some(CellCancelled) ==> Abandoned(Apply(s, e))
  {
    if e.FireCancel? { assert MarkAt(s, e.c); }
  }

  lemma MarkKeptByAwait(s: State, e: Event, c: Call)
    requires CellInv(s) && MarkInv(s) && Enabled(s, e) && ByAwait(e)
    ensures MarkAt(Apply(s, e), c)
  {
    assert MarkAt(s, c);
  }

  lemma MarkKeptByOthers(s: State, e: Event, c: Call)
    requires MarkAt(s, c) && Enabled(s, e) && !ByAwait(e)
    ensures MarkAt(Apply(s, e), c)
  {
  }

  lemma MarkKept(s: State, e: Event)
    requires CellInv(s) && MarkInv(s) && Enabled(s, e)
    ensures MarkInv(Apply(s, e))
  {
    CellMarked(s, e);
    forall c ensures MarkAt(Apply(s, e), c) {
      assert MarkAt(s, c);
      if ByAwait(e) { MarkKeptByAwait(s, e, c); } else { MarkKeptByOthers(s, e, c); }
    }
  }

  lemma {:induction false} RunKeepsMark(s: State, events: seq<Event>)
    requires CellInv(s) && MarkInv(s) && Legal(s, events)
    ensures MarkInv(Run(s, events))
    decreases |events|
  {
    if events != [] {
      CellKept(s, events[0]);
      MarkKept(s, events[0]);
      RunKeepsMark(Apply(s, events[0]), events[1..]);
    }
  }

  /** However the token and the awaits race, no await returns the cell's own
      cancellation: it returns what the task returned, or the terminal error. */
  lemma NoAwaitReturnsTheMark(config: Config, events: seq<Event>, c: Call)
    requires Legal(Initial(config), events)
    requires var s := Run(Initial(config), events); c in s.pcs && s.pcs[c].Answered?
    ensures var s := Run(Initial(config), events);
      match s.pcs[c].answer
      case Cell(outcome) => outcome.Value? && s.cell == Some(outcome)
      case Fails(failure) => s.control.terminal == Some(failure)
  {
    RunKeepsMark(Initial(config), events);
    OutcomesAgree(Initial(config), events);
    RunKeepsInv(Initial(config), events);
    assert MarkAt(Run(Initial(config), events), c) && AnswerAt(Run(Initial(config), events), c);
  }

  // ---------------------------------------------------------- which error it is

  /** A failure has its cause: a cancel the token, a timeout the timeout. */
  predicate Caused(s: State, f: Failure) {
    match f
    case RequestCancelled => s.config.token && s.raised
    case RequestTimedOut => s.config.timeout
  }

  predicate CauseAt(s: State, c: Call) {
    c in s.pcs ==>
      && (s.pcs[c].Failing? ==> Caused(s, s.pcs[c].failure))
      && (s.pcs[c].Woken? && s.pcs[c].seen.None? ==> s.config.timeout)
  }

  ghost predicate CauseInv(s: State) {
    (s.control.terminal.Some? ==> Caused(s, s.control.terminal.value)) && forall c :: CauseAt(s, c)
  }

  lemma CausedStays(s: State, e: Event, f: Failure)
    requires Enabled(s, e) && Caused(s, f)
    ensures Caused(Apply(s, e), f)
  {
  }

  lemma CauseKeptByAwait(s: State, e: Event, c: Call)
    requires CauseAt(s, c) && Enabled(s, e) && ByAwait(e)
    ensures CauseAt(Apply(s, e), c)
  {
  }

  lemma CauseKeptByOthers(s: State, e: Event, c: Call)
    requires CauseAt(s, c) && Enabled(s, e) && !ByAwait(e)
    ensures CauseAt(Apply(s, e), c)
  {
  }

  lemma TerminalIsCaused(s: State, e: Event)
    requires CauseInv(s) && Enabled(s, e) && Apply(s, e).control.terminal.Some?
    ensures Caused(Apply(s, e), Apply(s, e).control.terminal.value)
  {
    if s.control.terminal.Some? {
      CausedStays(s, e, s.control.terminal.value);
    } else if e.AwaitFail? {
      assert CauseAt(s, e.c);
    }
  }

  lemma {:induction false} RunKeepsCause(s: State, events: seq<Event>)
    requires CauseInv(s) && Legal(s, events)
    ensures CauseInv(Run(s, events)) && Run(s, events).config == s.config
    decreases |events|
  {
    if events != [] {
      var t := Apply(s, events[0]);
      forall c ensures CauseAt(t, c) {
        assert CauseAt(s, c);
        if ByAwait(events[0]) { CauseKeptByAwait(s, events[0], c); } else { CauseKeptByOthers(s, events[0], c); }
      }
      if t.control.terminal.Some? { TerminalIsCaused(s, events[0]); }
      RunKeepsCause(t, events[1..]);
    }
  }

  /** The stored error says what happened: a cancel only if the handle has a token and
      the token was raised, a timeout only if the handle has one. */
  lemma TerminalErrorIsTheCause(config: Config, events: seq<Event>)
    requires Legal(Initial(config), events) && Run(Initial(config), events).control.terminal.Some?
    ensures match Run(Initial(config), events).control.terminal.value
            case RequestCancelled => config.token && Run(Initial(config), events).raised
            case RequestTimedOut => config.timeout
  {
    RunKeepsCause(Initial(config), events);
  }

  lemma {:induction false} RaisedOnlyByTheToken(s: State, events: seq<Event>)
    requires Legal(s, events) && Run(s, events).raised && !s.raised
    ensures TokenRaise in events
    decreases |events|
  {
    if events[0] != TokenRaise { RaisedOnlyByTheToken(Apply(s, events[0]), events[1..]); }
  }

  /** If the token is never raised, every await that fails has timed out. */
  lemma WithoutTheTokenFailuresAreTimeouts(config: Config, events: seq<Event>, c: Call)
    requires Legal(Initial(config), events) && TokenRaise !in events
    requires var s := Run(Initial(config), events); c in s.pcs && s.pcs[c].Answered? && s.pcs[c].answer.Fails?
    ensures config.timeout && Run(Initial(config), events).pcs[c].answer == Fails(RequestTimedOut)
  {
    FailuresAgree(config, events, c);
    TerminalErrorIsTheCause(config, events);
    if Run(Initial(config), events).raised { RaisedOnlyByTheToken(Initial(config), events); }
  }

  /** No await has a timeout in hand, and none is stored. */
  predicate NoTimeoutAt(s: State, c: Call) { c in s.pcs ==> s.pcs[c] != Failing(RequestTimedOut) }

  ghost predicate OnlyCancels(s: State) {
    && s.config.token && s.raised && s.control.terminal != Some(RequestTimedOut)
    && forall c :: NoTimeoutAt(s, c)
  }

  lemma OnlyCancelsKept(s: State, e: Event)
    requires OnlyCancels(s) && Enabled(s, e)
    ensures OnlyCancels(Apply(s, e))
  {
    var t := Apply(s, e);
    forall c ensures NoTimeoutAt(t, c) {
      assert NoTimeoutAt(s, c);
    }
    if e.AwaitFail? { assert NoTimeoutAt(s, e.c); }
  }

  /** Once the token is raised, an await that runs into its timeout reports the cancel:
      a timeout is stored only by one that had already decided on it. */
  lemma {:induction false} RaisedTokenWins(s: State, events: seq<Event>)
    requires OnlyCancels(s) && Legal(s, events)
    ensures Run(s, events).control.terminal != Some(RequestTimedOut)
    decreases |events|
  {
    if events != [] {
      OnlyCancelsKept(s, events[0]);
      RaisedTokenWins(Apply(s, events[0]), events[1..]);
    }
  }

  /** The call has not returned, or has returned the failure. */
  predicate Heeds(s: State, c: Call, f: Failure) { c in s.pcs && s.pcs[c].Answered? ==> s.pcs[c].answer == Fails(f) }

  lemma HeedsKept(s: State, e: Event, c: Call, f: Failure)
    requires Enabled(s, e) && s.control.terminal == Some(f) && (s.config.timeout || s.config.token)
    requires AnswerAt(s, c) && Heeds(s, c, f)
    ensures Heeds(Apply(s, e), c, f)
  {
  }

  lemma {:induction false} HeedsThrough(s: State, events: seq<Event>, c: Call, f: Failure)
    requires Legal(s, events) && s.control.terminal == Some(f) && (s.config.timeout || s.config.token)
    requires AnswerInv(s) && Heeds(s, c, f)
    ensures Heeds(Run(s, events), c, f)
    decreases |events|
  {
    if events != [] {
      assert AnswerAt(s, c);
      HeedsKept(s, events[0], c, f);
      AnswerKept(s, events[0]);
      HeedsThrough(Apply(s, events[0]), events[1..], c, f);
    }
  }

  /** From the step that stores an error on, every await still to return returns that
      error: those that have an outcome in hand as well as those that began before. */
  lemma TerminalErrorReachesEveryAwait(config: Config, before: seq<Event>, after: seq<Event>, c: Call)
    requires Legal(Initial(config), before)
    requires var s := Run(Initial(config), before);
      s.control.terminal.Some? && !(c in s.pcs && s.pcs[c].Answered?) && Legal(s, after)
    ensures var s := Run(Initial(config), before);
      var t := Run(s, after);
      c in t.pcs && t.pcs[c].Answered? ==> t.pcs[c].answer == Fails(s.control.terminal.value)
  {
    var s := Run(Initial(config), before);
    RunKeepsInv(Initial(config), before);
    RunKeepsCause(Initial(config), before);
    HeedsThrough(s, after, c, s.control.terminal.value);
  }

  // -------------------------------------------------------- when nothing goes wrong

  /** The call has run into nothing: it waits, or has the outcome of the cell. */
  predicate CalmAt(s: State, c: Call) {
    c in s.pcs ==>
      match s.pcs[c]
      case Started => true
      case Waiting => true
      case Woken(seen) => seen.Some? && s.cell == seen
      case Answered(answer) => answer.Cell? && s.cell == Some(answer.outcome)
      case _ => false
  }

  ghost predicate Calm(s: State) {
    && s.control.terminal.None? && !s.raised && s.cell != Some(CellCancelled)
    && forall c :: CalmAt(s, c)
  }

  /** The call that takes the step; the token, the task and the owner are none. */
  function Caller(e: Event): Option<Call> {
    match e
    case TokenRaise => None
    case Complete(_) => None
    case Drop => None
    case _ => Some(e.c)
  }

  /** Where nothing has gone wrong, only these steps can come next. */
  lemma CalmAllows(s: State, e: Event)
    requires Calm(s) && Enabled(s, e)
    ensures e.AwaitStart? || e.AwaitLook? || e.AwaitWake? || e.AwaitTimeout? || e.AwaitRecheck?
         || e.TokenRaise? || e.Complete? || e.Drop?
  {
    if Caller(e).Some? {
      var c := Caller(e).value;
      assert CalmAt(s, c);
    }
  }

  lemma CalmKept(s: State, e: Event)
    requires Calm(s) && Enabled(s, e) && e != TokenRaise && !e.AwaitTimeout?
    ensures Calm(Apply(s, e)) && Apply(s, e).sent == s.sent
  {
    CalmAllows(s, e);
    forall c ensures CalmAt(Apply(s, e), c) {
      assert CalmAt(s, c);
    }
  }

  /** If the token is not raised and no wait times out, every await that returns has
      what the task returned, and no cancel is sent. */
  lemma {:induction false} UndisturbedAwaitsSucceed(s: State, events: seq<Event>)
    requires Calm(s) && Legal(s, events)
    requires forall e :: e in events ==> e != TokenRaise && !e.AwaitTimeout?
    ensures Calm(Run(s, events)) && Run(s, events).sent == s.sent
    decreases |events|
  {
    if events != [] {
      CalmKept(s, events[0]);
      assert forall e :: e in events[1..] ==> e in events;
      UndisturbedAwaitsSucceed(Apply(s, events[0]), events[1..]);
    }
  }

  // ------------------------------------------------------------ in place

  /** `RequestHandleControl`, each method one hold of its mutex. */
  class RequestHandleControl {
    var terminalError: Option<Failure>
    var cancelSent: bool

    constructor ()
      ensures Value() == Control(None, false)
    {
      terminalError, cancelSent := None, false;
    }

    function Value(): Control reads this { Control(terminalError, cancelSent) }

    /** The critical section of `fail_terminal`. */
    method FailTerminal(error: Failure) returns (terminal: Failure, sendCancel: bool)
      modifies this
      ensures Value() == Settle(old(Value()), error)
      ensures Some(terminal) == terminalError && sendCancel == !old(cancelSent)
    {
      if terminalError.None? {
        terminalError := Some(error);
      }
      terminal := terminalError.value;
      sendCancel := false;
      if !cancelSent {
        cancelSent := true;
        sendCancel := true;
      }
    }

    /** The critical section of the token's callback. */
    method TokenFired() returns (sendCancel: bool)
      modifies this
      ensures Value() == Settle(old(Value()), RequestCancelled)
      ensures sendCancel == !old(cancelSent)
    {
      if terminalError.None? {
        terminalError := Some(RequestCancelled);
      }
      sendCancel := false;
      if !cancelSent {
        cancelSent := true;
        sendCancel := true;
      }
    }
  }
}
