/** Windows command lines: `quote_arg`, `command_line_from_options`, and
    Microsoft's documented rules for splitting a command line into arguments,
    which the quoting has to survive. */
module CommandLine {
  import opened Common

  const VERTICAL_TAB := '\U{B}'

  predicate ForcesQuotes(c: char) { c in " \t\n\"" || c == VERTICAL_TAB }

  predicate NeedsQuotes(arg: string) {
    exists i :: 0 <= i < |arg| && ForcesQuotes(arg[i])
  }

  function Backslashes(n: nat): string { seq(n, _ => '\\') }

  /** What is written for a character after `k` held-back backslashes. */
  function Written(c: char, k: nat): string {
    if c == '"' then Backslashes(2 * k + 1) + "\"" else Backslashes(k) + [c]
  }

  /** The quoted form of what is left of an argument after `k` held-back
      backslashes, closing quote included. */
  function Body(arg: string, k: nat): string {
    if arg == "" then Backslashes(2 * k) + "\""
    else if arg[0] == '\\' then Body(arg[1..], k + 1)
    else Written(arg[0], k) + Body(arg[1..], 0)
  }

  function Quoted(arg: string): string {
    if arg == "" then "\"\""
    else if !NeedsQuotes(arg) then arg
    else "\"" + Body(arg, 0)
  }

  /** `quote_arg`. */
  method QuoteArg(arg: string) returns (result: string)
    ensures result == Quoted(arg)
  {
    if arg == "" {
      return "\"\"";
    }
    if !NeedsQuotes(arg) {
      return arg;
    }
    var body := QuoteBody(arg);
    return "\"" + body;
  }

  /** `done` is written, and what is left of the argument at `i` makes up the rest of `whole`. */
  predicate Quoting(whole: string, done: string, arg: string, i: nat, k: nat) {
    i <= |arg| && done + Body(arg[i..], k) == whole
  }

  /** The loop of `quote_arg` and its closing quote. */
  method QuoteBody(arg: string) returns (result: string)
    ensures result == Body(arg, 0)
  {
    result := "";
    var backslashes := 0;
    ghost var whole := Body(arg, 0);
    for i := 0 to |arg|
      invariant Quoting(whole, result, arg, i, backslashes)
    {
      if arg[i] == '\\' {
        backslashes := backslashes + 1;
        continue;
      }
      var piece := QuoteChar(arg[i], backslashes);
      result := result + piece;
      backslashes := 0;
    }
    result := result + (Backslashes(2 * backslashes) + "\"");
  }

  /** What the loop appends for a character that is no backslash. */
  method QuoteChar(c: char, backslashes: nat) returns (piece: string)
    requires c != '\\'
    ensures piece == Written(c, backslashes)
  {
    if c == '"' {
      piece := Backslashes(backslashes * 2 + 1) + [c];
    } else {
      piece := Backslashes(backslashes) + [c];
    }
  }

  /** The arguments, each preceded by a space. */
  function Joined(args: seq<string>): string {
    if args == [] then "" else " " + Quoted(args[0]) + Joined(args[1..])
  }

  /** `command_line_from_options`, after conversion to wide strings. */
  method CommandLineFromOptions(command: string, args: seq<string>) returns (line: string)
    ensures line == Quoted(command) + Joined(args)
  {
    line := QuoteArg(command);
    assert args[0..] == args;
    for i := 0 to |args|
      invariant line + Joined(args[i..]) == Quoted(command) + Joined(args)
    {
      assert args[i..][1..] == args[i + 1..];
      var quoted := QuoteArg(args[i]);
      line := line + (" " + quoted);
    }
  }

  // ------------------------------------------- the C runtime's splitting rules

  predicate IsBlank(c: char) { c == ' ' || c == '\t' }

  /** A doubled quote inside a quoted part is one quote character; runtimes
      before 2008 also left the quoted part there. */
  datatype Runtime = Modern | Before2008

  /** An argument and the text after it. */
  datatype Taken = Taken(arg: string, rest: string)

  function Prepend(s: string, t: Taken): Taken { Taken(s + t.arg, t.rest) }

  /** One argument from the front of `s`, `k` backslashes having just been
      read. Before a quote an even run is halved and the quote delimits; an odd
      run is halved, rounding down, and the quote is a character; any other
      backslash is itself. A blank outside quotes ends the argument. */
  function TakeArg(s: string, k: nat, inQuotes: bool, rt: Runtime): (t: Taken)
    ensures |t.rest| <= |s|
    ensures s != "" && !IsBlank(s[0]) ==> |t.rest| < |s|
    decreases |s|
  {
    if s == "" then Taken(Backslashes(k), "")
    else if s[0] == '\\' then TakeArg(s[1..], k + 1, inQuotes, rt)
    else if s[0] == '"' && k % 2 == 1 then
      Prepend(Backslashes(k / 2) + "\"", TakeArg(s[1..], 0, inQuotes, rt))
    else if s[0] == '"' && inQuotes && |s| > 1 && s[1] == '"' then
      Prepend(Backslashes(k / 2) + "\"", TakeArg(s[2..], 0, rt == Modern, rt))
    else if s[0] == '"' then
      Prepend(Backslashes(k / 2), TakeArg(s[1..], 0, !inQuotes, rt))
    else if IsBlank(s[0]) && !inQuotes then Taken(Backslashes(k), s)
    else Prepend(Backslashes(k) + [s[0]], TakeArg(s[1..], 0, inQuotes, rt))
  }

  /** The arguments after the program name. */
  function Split(s: string, rt: Runtime): seq<string>
    decreases |s|
  {
    if s == "" then []
    else if IsBlank(s[0]) then Split(s[1..], rt)
    else
      var t := TakeArg(s, 0, false, rt);
      [t.arg] + Split(t.rest, rt)
  }

  // ------------------------------------------------------- the two are inverse

  /** Text that can follow an argument: nothing, or a blank. */
  predicate Follows(tail: string) { tail == "" || IsBlank(tail[0]) }

  lemma {:induction false} TakeRun(m: nat, rest: string, k: nat, inQuotes: bool, rt: Runtime)
    ensures TakeArg(Backslashes(m) + rest, k, inQuotes, rt) == TakeArg(rest, k + m, inQuotes, rt)
    decreases m
  {
    if m == 0 {
      assert Backslashes(0) + rest == rest;
    } else {
      assert (Backslashes(m) + rest)[1..] == Backslashes(m - 1) + rest;
      TakeRun(m - 1, rest, k + 1, inQuotes, rt);
    }
  }

  lemma TakeClosing(k: nat, tail: string, rt: Runtime)
    requires Follows(tail)
    ensures TakeArg(Backslashes(2 * k) + "\"" + tail, 0, true, rt) == Taken(Backslashes(k), tail)
  {
    var quote := "\"" + tail;
    assert Backslashes(2 * k) + "\"" + tail == Backslashes(2 * k) + quote;
    TakeRun(2 * k, quote, 0, true, rt);
    assert quote[1..] == tail;
    assert TakeArg(tail, 0, false, rt) == Taken("", tail);
    assert Backslashes(k) + "" == Backslashes(k);
  }

  lemma TakeWritten(c: char, k: nat, after: string, rt: Runtime)
    requires c != '\\'
    ensures TakeArg(Written(c, k) + after, 0, true, rt) == Prepend(Backslashes(k) + [c], TakeArg(after, 0, true, rt))
  {
    var m := if c == '"' then 2 * k + 1 else k;
    var rest := [c] + after;
    assert Written(c, k) + after == Backslashes(m) + rest;
    TakeRun(m, rest, 0, true, rt);
    assert rest[1..] == after;
  }

  lemma BodySplits(arg: string, k: nat, tail: string)
    requires arg != "" && arg[0] != '\\'
    ensures Body(arg, k) + tail == Written(arg[0], k) + (Body(arg[1..], 0) + tail)
  {
  }

  lemma PutBack(arg: string, k: nat)
    requires arg != ""
    ensures arg[0] == '\\' ==> Backslashes(k + 1) + arg[1..] == Backslashes(k) + arg
    ensures Backslashes(k) + [arg[0]] + (Backslashes(0) + arg[1..]) == Backslashes(k) + arg
  {
  }

  /** Inside quotes the body gives the argument back, whatever run of
      backslashes is held back. */
  lemma {:induction false} TakeBody(arg: string, k: nat, tail: string, rt: Runtime)
    requires Follows(tail)
    ensures TakeArg(Body(arg, k) + tail, 0, true, rt) == Taken(Backslashes(k) + arg, tail)
    decreases |arg|
  {
    if arg == "" {
      TakeClosing(k, tail, rt);
      assert Backslashes(k) + arg == Backslashes(k);
    } else if arg[0] == '\\' {
      TakeBody(arg[1..], k + 1, tail, rt);
      PutBack(arg, k);
    } else {
      calc {
        TakeArg(Body(arg, k) + tail, 0, true, rt);
        { BodySplits(arg, k, tail); }
        TakeArg(Written(arg[0], k) + (Body(arg[1..], 0) + tail), 0, true, rt);
        { TakeWritten(arg[0], k, Body(arg[1..], 0) + tail, rt); }
        Prepend(Backslashes(k) + [arg[0]], TakeArg(Body(arg[1..], 0) + tail, 0, true, rt));
        { TakeBody(arg[1..], 0, tail, rt); }
        Prepend(Backslashes(k) + [arg[0]], Taken(Backslashes(0) + arg[1..], tail));
        { PutBack(arg, k); }
        Taken(Backslashes(k) + arg, tail);
      }
    }
  }

  predicate Plain(arg: string) { forall i :: 0 <= i < |arg| ==> !ForcesQuotes(arg[i]) }

  /** An argument that needs no quotes is taken as it stands. */
  lemma {:induction false} TakePlain(arg: string, k: nat, tail: string, rt: Runtime)
    requires Plain(arg) && Follows(tail)
    ensures TakeArg(arg + tail, k, false, rt) == Taken(Backslashes(k) + arg, tail)
    decreases |arg|
  {
    if arg == "" {
      assert arg + tail == tail && Backslashes(k) + arg == Backslashes(k);
    } else {
      assert (arg + tail)[1..] == arg[1..] + tail;
      var k' := if arg[0] == '\\' then k + 1 else 0;
      TakePlain(arg[1..], k', tail, rt);
      if arg[0] == '\\' {
        assert Backslashes(k') + arg[1..] == Backslashes(k) + arg;
      } else {
        assert Backslashes(k) + [arg[0]] + (Backslashes(0) + arg[1..]) == Backslashes(k) + arg;
      }
    }
  }

  lemma QuotedOpens(arg: string, tail: string)
    requires arg == "" || NeedsQuotes(arg)
    ensures Quoted(arg) + tail == "\"" + (Body(arg, 0) + tail)
  {
    Associates("\"", Body(arg, 0), tail);
  }

  lemma TakeQuoted(arg: string, tail: string, rt: Runtime)
    requires Follows(tail)
    ensures TakeArg(Quoted(arg) + tail, 0, false, rt) == Taken(arg, tail)
    ensures Quoted(arg) != "" && !IsBlank(Quoted(arg)[0])
  {
    assert Backslashes(0) + arg == arg;
    if arg != "" && !NeedsQuotes(arg) {
      TakePlain(arg, 0, tail, rt);
    } else {
      QuotedOpens(arg, tail);
      TakeBody(arg, 0, tail, rt);
    }
  }

  lemma SplitStep(quoted: string, tail: string, arg: string, rt: Runtime)
    requires TakeArg(quoted + tail, 0, false, rt) == Taken(arg, tail)
    requires quoted != "" && !IsBlank(quoted[0])
    ensures Split(" " + quoted + tail, rt) == [arg] + Split(tail, rt)
  {
    assert (" " + quoted + tail)[1..] == quoted + tail;
  }

  /** Splitting the joined quoted arguments gives the arguments back: every
      list of strings, every run of backslashes and quotes, either runtime. */
  lemma {:induction false} SplitInvertsQuoting(args: seq<string>, rt: Runtime)
    ensures Split(Joined(args), rt) == args
    decreases |args|
  {
    if args != [] {
      var tail := Joined(args[1..]);
      TakeQuoted(args[0], tail, rt);
      SplitStep(Quoted(args[0]), tail, args[0], rt);
      SplitInvertsQuoting(args[1..], rt);
    }
  }

  // ---------------------------------------------------------- the program name

  lemma {:induction false} BodyIsLonger(arg: string, k: nat)
    ensures |Body(arg, k)| > |arg| + k
    decreases |arg|
  {
    if arg != "" { BodyIsLonger(arg[1..], if arg[0] == '\\' then k + 1 else 0); }
  }

  /** Quotes are put around an argument exactly when it is empty or holds a space, a tab,
      a line feed, a vertical tab or a quote. */
  lemma UnquotedIff(arg: string)
    ensures Quoted(arg) == arg <==> arg != "" && forall i :: 0 <= i < |arg| ==> arg[i] !in " \t\n\U{B}\""
  {
    if NeedsQuotes(arg) {
      BodyIsLonger(arg, 0);
      var i :| 0 <= i < |arg| && ForcesQuotes(arg[i]);
      assert arg[i] in " \t\n\U{B}\"";
    } else {
      forall i | 0 <= i < |arg| ensures arg[i] !in " \t\n\U{B}\"" { assert !ForcesQuotes(arg[i]); }
    }
  }

  /** The program name is read by its own rule: quotes only delimit, and
      backslashes are never special. */
  function TakeProgram(s: string, inQuotes: bool): Taken
    decreases |s|
  {
    if s == "" || (IsBlank(s[0]) && !inQuotes) then Taken("", s)
    else if s[0] == '"' then TakeProgram(s[1..], !inQuotes)
    else Prepend([s[0]], TakeProgram(s[1..], inQuotes))
  }

  lemma {:induction false} ProgramHasNoQuote(s: string, inQuotes: bool)
    ensures '"' !in TakeProgram(s, inQuotes).arg
    decreases |s|
  {
    if s != "" {
      ProgramHasNoQuote(s[1..], inQuotes);
      ProgramHasNoQuote(s[1..], !inQuotes);
    }
  }

  /** The backslashes that end `arg`, `k` of them held back. */
  function Trailing(arg: string, k: nat): nat {
    if arg == "" then k
    else Trailing(arg[1..], if arg[0] == '\\' then k + 1 else 0)
  }

  lemma {:induction false} TrailingPositive(arg: string, k: nat)
    requires arg != ""
    ensures Trailing(arg, k) > 0 <==> arg[|arg| - 1] == '\\'
  {
    if |arg| > 1 { TrailingPositive(arg[1..], if arg[0] == '\\' then k + 1 else 0); }
  }

  lemma {:induction false} ProgramRun(m: nat, rest: string)
    ensures TakeProgram(Backslashes(m) + rest, true) == Prepend(Backslashes(m), TakeProgram(rest, true))
    decreases m
  {
    if m == 0 {
      assert Backslashes(0) + rest == rest;
      assert Backslashes(0) + TakeProgram(rest, true).arg == TakeProgram(rest, true).arg;
    } else {
      assert (Backslashes(m) + rest)[1..] == Backslashes(m - 1) + rest;
      ProgramRun(m - 1, rest);
      assert ['\\'] + Backslashes(m - 1) == Backslashes(m);
      assert ['\\'] + (Backslashes(m - 1) + TakeProgram(rest, true).arg)
          == Backslashes(m) + TakeProgram(rest, true).arg;
    }
  }

  lemma ProgramChar(c: char, k: nat, after: string)
    requires c != '"'
    ensures TakeProgram(Backslashes(k) + [c] + after, true)
         == Prepend(Backslashes(k) + [c], TakeProgram(after, true))
  {
    Associates(Backslashes(k), [c], after);
    ProgramRun(k, [c] + after);
  }

  lemma ProgramClosing(k: nat, tail: string)
    requires Follows(tail)
    ensures TakeProgram(Backslashes(2 * k) + "\"" + tail, true) == Taken(Backslashes(2 * k), tail)
  {
    var quote := "\"" + tail;
    assert Backslashes(2 * k) + "\"" + tail == Backslashes(2 * k) + quote;
    ProgramRun(2 * k, quote);
    assert quote[1..] == tail;
    assert Backslashes(2 * k) + "" == Backslashes(2 * k);
  }

  /** A quote-free body read as a program name comes back with the
      backslashes that end it doubled. */
  lemma {:induction false} ProgramBody(arg: string, k: nat, tail: string)
    requires '"' !in arg && Follows(tail)
    ensures TakeProgram(Body(arg, k) + tail, true) == Taken(Backslashes(k) + arg + Backslashes(Trailing(arg, k)), tail)
    decreases |arg|
  {
    if arg == "" {
      ProgramClosing(k, tail);
      assert Backslashes(k) + arg + Backslashes(k) == Backslashes(2 * k);
    } else if arg[0] == '\\' {
      ProgramBody(arg[1..], k + 1, tail);
      PutBack(arg, k);
    } else {
      var more := Backslashes(Trailing(arg[1..], 0));
      BodySplits(arg, k, tail);
      ProgramChar(arg[0], k, Body(arg[1..], 0) + tail);
      ProgramBody(arg[1..], 0, tail);
      PutBack(arg, k);
      assert Backslashes(k) + [arg[0]] + (Backslashes(0) + arg[1..] + more)
          == Backslashes(k) + [arg[0]] + (Backslashes(0) + arg[1..]) + more;
    }
  }

  lemma {:induction false} ProgramPlain(arg: string, tail: string)
    requires Plain(arg) && Follows(tail)
    ensures TakeProgram(arg + tail, false) == Taken(arg, tail)
    decreases |arg|
  {
    if arg == "" {
      assert arg + tail == tail;
    } else {
      assert (arg + tail)[1..] == arg[1..] + tail;
      ProgramPlain(arg[1..], tail);
      assert [arg[0]] + arg[1..] == arg;
    }
  }

  /** A quoted name without a quote comes back with its closing backslashes doubled. */
  lemma ProgramQuoted(command: string, tail: string)
    requires Follows(tail) && '"' !in command && (command == "" || NeedsQuotes(command))
    ensures TakeProgram(Quoted(command) + tail, false) == Taken(command + Backslashes(Trailing(command, 0)), tail)
  {
    QuotedOpens(command, tail);
    ProgramBody(command, 0, tail);
    assert Backslashes(0) + command == command;
  }

  /** `command_line_from_options` quotes the command like any argument. The
      program-name rule reads it back exactly when it holds no quote and is
      not both quoted and ended by a backslash; the arguments then follow. */
  lemma ProgramNameSurvivesIff(command: string, tail: string)
    requires Follows(tail)
    ensures TakeProgram(Quoted(command) + tail, false) == Taken(command, tail) <==>
            '"' !in command && !(NeedsQuotes(command) && command[|command| - 1] == '\\')
  {
    ProgramHasNoQuote(Quoted(command) + tail, false);
    if '"' !in command {
      if command != "" && !NeedsQuotes(command) {
        ProgramPlain(command, tail);
      } else {
        ProgramQuoted(command, tail);
        if command != "" { TrailingPositive(command, 0); }
      }
    }
  }

  /** Two names that do not survive: one holds a quote, the other needs quotes
      and ends in a backslash. */
  lemma ProgramNamesThatAreLost(quote: string, slash: string, tail: string)
    requires Follows(tail) && quote == ['a', '"'] && slash == ['a', ' ', '\\']
    ensures TakeProgram(Quoted(quote) + tail, false) != Taken(quote, tail)
    ensures TakeProgram(Quoted(slash) + tail, false) != Taken(slash, tail)
  {
    assert quote[1] == '"' && slash[1] == ' ' && slash[|slash| - 1] == '\\';
    ProgramNameSurvivesIff(quote, tail);
    ProgramNameSurvivesIff(slash, tail);
  }
}
