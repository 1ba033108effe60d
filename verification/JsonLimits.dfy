/** The document limits of the JSON-RPC parser, checked with an explicit stack,
    against their recursive meaning. String lengths are in UTF-8 code units. */
module JsonLimits {
  import opened Common
  import opened Json

  const MAX_DEPTH := 128
  const MAX_STRING_BYTES := 16 * 1024 * 1024
  const MAX_ENTRIES := 100000
  const MAX_NODES := 200000

  // --------------------------------------------------- what the limits bound

  /** What is counted: string bytes, keys included; collection entries; values. */
  datatype Measure = Bytes | Entries | Nodes

  /** What a value counts for by itself. */
  function Own(w: Measure, j: Json): nat {
    match w
    case Bytes => if j.Str? then |j.s| else 0
    case Entries => if j.Arr? then |j.items| else if j.Obj? then |j.members| else 0
    case Nodes => 1
  }

  function OfKey(w: Measure, k: string): nat { if w == Bytes then |k| else 0 }

  ghost function Total(w: Measure, j: Json): nat
    decreases j, 1
  {
    Own(w, j) +
    match j
    case Arr(items) => TotalOfItems(w, items)
    case Obj(m) => TotalOfMembers(w, j, m.Keys)
    case _ => 0
  }

  ghost function TotalOfItems(w: Measure, items: seq<Json>): nat
    decreases items, 0
  {
    if items == [] then 0
    else TotalOfItems(w, items[..|items| - 1]) + Total(w, items[|items| - 1])
  }

  /** The members of object `j` with keys in `keys`, summed in any order. */
  ghost function TotalOfMembers(w: Measure, j: Json, keys: set<string>): nat
    requires j.Obj? && keys <= j.members.Keys
    decreases j, 0, keys
  {
    if keys == {} then 0
    else var k :| k in keys; TotalOfMembers(w, j, keys - {k}) + OfKey(w, k) + Total(w, j.members[k])
  }

  lemma {:induction false} TotalWithoutMember(w: Measure, j: Json, keys: set<string>, k: string)
    requires j.Obj? && keys <= j.members.Keys && k in keys
    ensures TotalOfMembers(w, j, keys) == TotalOfMembers(w, j, keys - {k}) + OfKey(w, k) + Total(w, j.members[k])
    decreases keys
  {
    var x :| x in keys &&
      TotalOfMembers(w, j, keys) == TotalOfMembers(w, j, keys - {x}) + OfKey(w, x) + Total(w, j.members[x]);
    if x != k {
      assert keys - {x} - {k} == keys - {k} - {x};
      TotalWithoutMember(w, j, keys - {x}, k);
      TotalWithoutMember(w, j, keys - {k}, x);
    }
  }

  /** No value is nested more than `d` deep; a scalar is 1 deep. */
  ghost predicate DepthAtMost(j: Json, d: int) {
    && d >= 1
    && match j
       case Arr(items) => forall i :: 0 <= i < |items| ==> DepthAtMost(items[i], d - 1)
       case Obj(m) => forall k :: k in m ==> DepthAtMost(m[k], d - 1)
       case _ => true
  }

  ghost predicate WithinLimits(j: Json) {
    && DepthAtMost(j, MAX_DEPTH)
    && Total(Bytes, j) <= MAX_STRING_BYTES
    && Total(Entries, j) <= MAX_ENTRIES
    && Total(Nodes, j) <= MAX_NODES
  }

  // ---------------------------------------------------------------- the stack

  datatype Frame = Frame(value: Json, depth: nat)

  datatype LimitError = TooDeep | TooManyNodes | StringsTooLarge | TooManyEntries

  ghost function OnStack(w: Measure, stack: seq<Frame>): nat {
    if stack == [] then 0
    else OnStack(w, stack[..|stack| - 1]) + Total(w, stack[|stack| - 1].value)
  }

  /** The frame keeps the whole document within the depth limit. */
  ghost predicate FrameOk(f: Frame) { DepthAtMost(f.value, MAX_DEPTH + 1 - f.depth) }

  ghost predicate StackOk(stack: seq<Frame>) {
    forall i :: 0 <= i < |stack| ==> FrameOk(stack[i])
  }

  lemma PushOk(stack: seq<Frame>, f: Frame)
    ensures StackOk(stack + [f]) <==> StackOk(stack) && FrameOk(f)
  {
    var s := stack + [f];
    assert s[|stack|] == f && forall i :: 0 <= i < |stack| ==> s[i] == stack[i];
  }

  function ItemFrames(items: seq<Json>, depth: nat): seq<Frame> {
    seq(|items|, i requires 0 <= i < |items| => Frame(items[i], depth))
  }

  /** Pushing the items of an array adds exactly what they hold. */
  lemma {:induction false} PushItemsTotal(w: Measure, stack: seq<Frame>, items: seq<Json>, depth: nat)
    ensures OnStack(w, stack + ItemFrames(items, depth)) == OnStack(w, stack) + TotalOfItems(w, items)
    decreases |items|
  {
    if items == [] {
      assert stack + ItemFrames(items, depth) == stack;
    } else {
      var n := |items| - 1;
      var f := Frame(items[n], depth);
      assert stack + ItemFrames(items, depth) == stack + ItemFrames(items[..n], depth) + [f];
      PushItemsTotal(w, stack, items[..n], depth);
    }
  }

  lemma PushItemsOk(stack: seq<Frame>, f: Frame)
    requires f.value.Arr? && f.depth <= MAX_DEPTH
    ensures StackOk(stack + ItemFrames(f.value.items, f.depth + 1)) <==> StackOk(stack) && FrameOk(f)
  {
    var items, frames := f.value.items, ItemFrames(f.value.items, f.depth + 1);
    var s := stack + frames;
    assert forall i :: 0 <= i < |stack| ==> s[i] == stack[i];
    assert forall i :: 0 <= i < |items| ==> s[|stack| + i] == frames[i];
    assert forall i :: 0 <= i < |items| ==> frames[i] == Frame(items[i], f.depth + 1);
    if StackOk(s) {
      forall i | 0 <= i < |stack| ensures FrameOk(stack[i]) { assert FrameOk(s[i]); }
      forall i | 0 <= i < |items| ensures DepthAtMost(items[i], MAX_DEPTH - f.depth) {
        assert FrameOk(s[|stack| + i]);
      }
    }
  }

  // ------------------------------------------------------ pushing an object

  /** The members of object `j` whose keys are in `todo` are still to be
      pushed, the key bytes of the others having been added to `bytes`. */
  ghost predicate Pushing(j: Json, stack: seq<Frame>, bytes: nat, todo: set<string>, r: seq<Frame>, total: nat)
    requires j.Obj? && todo <= j.members.Keys
  {
    && |r| + |todo| == |stack| + |j.members|
    && total + OnStack(Bytes, r) + TotalOfMembers(Bytes, j, todo)
       == bytes + OnStack(Bytes, stack) + TotalOfMembers(Bytes, j, j.members.Keys)
    && OnStack(Entries, r) + TotalOfMembers(Entries, j, todo)
       == OnStack(Entries, stack) + TotalOfMembers(Entries, j, j.members.Keys)
  }

  ghost predicate PushingOk(j: Json, depth: nat, stack: seq<Frame>, todo: set<string>, r: seq<Frame>)
    requires j.Obj?
  {
    StackOk(r) <==>
      StackOk(stack) && forall k :: k in j.members && k !in todo ==> FrameOk(Frame(j.members[k], depth))
  }

  lemma PushMember(j: Json, depth: nat, stack: seq<Frame>, bytes: nat,
                   todo: set<string>, r: seq<Frame>, total: nat, k: string)
    requires j.Obj? && todo <= j.members.Keys && k in todo && Pushing(j, stack, bytes, todo, r, total)
    ensures Pushing(j, stack, bytes, todo - {k}, r + [Frame(j.members[k], depth)], total + |k|)
    ensures total + |k| <= bytes + OnStack(Bytes, stack) + TotalOfMembers(Bytes, j, j.members.Keys)
  {
    TotalWithoutMember(Bytes, j, todo, k);
    TotalWithoutMember(Entries, j, todo, k);
  }

  lemma PushMemberOk(j: Json, depth: nat, stack: seq<Frame>, todo: set<string>, r: seq<Frame>, k: string)
    requires j.Obj? && k in todo && todo <= j.members.Keys && PushingOk(j, depth, stack, todo, r)
    ensures PushingOk(j, depth, stack, todo - {k}, r + [Frame(j.members[k], depth)])
  {
    PushOk(r, Frame(j.members[k], depth));
  }

  /** Pushes the members of an object, counting the key bytes; stops as soon as
      the count is over the limit. */
  method PushMembers(stack: seq<Frame>, j: Json, depth: nat, bytes: nat)
    returns (r: seq<Frame>, total: nat)
    requires j.Obj? && bytes <= MAX_STRING_BYTES
    ensures total > MAX_STRING_BYTES ==>
              bytes + OnStack(Bytes, stack) + TotalOfMembers(Bytes, j, j.members.Keys) > MAX_STRING_BYTES
    ensures total <= MAX_STRING_BYTES ==>
              Pushing(j, stack, bytes, {}, r, total) && PushingOk(j, depth, stack, {}, r)
  {
    r, total := stack, bytes;
    var todo := j.members.Keys;
    while todo != {}
      invariant todo <= j.members.Keys && total <= MAX_STRING_BYTES
      invariant Pushing(j, stack, bytes, todo, r, total) && PushingOk(j, depth, stack, todo, r)
      decreases todo
    {
      var k :| k in todo;
      PushMember(j, depth, stack, bytes, todo, r, total, k);
      PushMemberOk(j, depth, stack, todo, r, k);
      total := total + |k|;
      if total > MAX_STRING_BYTES {
        return;
      }
      r := r + [Frame(j.members[k], depth)];
      todo := todo - {k};
    }
  }

  // --------------------------------------------------------------- one round

  /** Everything frame `f` holds has moved to the counters or to the stack. */
  ghost predicate Moved(f: Frame, stack: seq<Frame>, bytes: nat, entries: nat,
                        r: seq<Frame>, bytes': nat, entries': nat) {
    && bytes' + OnStack(Bytes, r) == bytes + OnStack(Bytes, stack) + Total(Bytes, f.value)
    && entries' + OnStack(Entries, r) == entries + OnStack(Entries, stack) + Total(Entries, f.value)
    && |r| + entries == |stack| + entries'
  }

  ghost predicate MovedOk(f: Frame, stack: seq<Frame>, r: seq<Frame>) {
    StackOk(r) <==> StackOk(stack) && FrameOk(f)
  }

  lemma ArrayMoved(f: Frame, stack: seq<Frame>, bytes: nat, entries: nat)
    requires f.value.Arr?
    ensures Moved(f, stack, bytes, entries,
                  stack + ItemFrames(f.value.items, f.depth + 1), bytes, entries + |f.value.items|)
  {
    PushItemsTotal(Bytes, stack, f.value.items, f.depth + 1);
    PushItemsTotal(Entries, stack, f.value.items, f.depth + 1);
  }

  lemma ObjectMovedOk(f: Frame, stack: seq<Frame>, r: seq<Frame>)
    requires f.value.Obj? && f.depth <= MAX_DEPTH && PushingOk(f.value, f.depth + 1, stack, {}, r)
    ensures MovedOk(f, stack, r)
  {
    var m := f.value.members;
    assert forall k :: k in m ==>
      (FrameOk(Frame(m[k], f.depth + 1)) <==> DepthAtMost(m[k], MAX_DEPTH - f.depth));
  }

  /** What is left to do on a popped frame once its depth is accepted. */
  method Visit(f: Frame, stack: seq<Frame>, bytes: nat, entries: nat)
    returns (r: seq<Frame>, bytes': nat, entries': nat, error: Option<LimitError>)
    requires f.depth <= MAX_DEPTH && bytes <= MAX_STRING_BYTES && entries <= MAX_ENTRIES
    ensures error.None? ==>
      && bytes' <= MAX_STRING_BYTES && entries' <= MAX_ENTRIES
      && Moved(f, stack, bytes, entries, r, bytes', entries') && MovedOk(f, stack, r)
    ensures error.Some? ==>
      || (error.value == StringsTooLarge && bytes + OnStack(Bytes, stack) + Total(Bytes, f.value) > MAX_STRING_BYTES)
      || (error.value == TooManyEntries && entries + Total(Entries, f.value) > MAX_ENTRIES)
  {
    r, bytes', entries', error := stack, bytes, entries, None;
    match f.value {
      case Str(s) =>
        bytes' := bytes + |s|;
        if bytes' > MAX_STRING_BYTES {
          error := Some(StringsTooLarge);
        }
      case Arr(items) =>
        entries' := entries + |items|;
        if entries' > MAX_ENTRIES {
          error := Some(TooManyEntries);
        } else {
          ArrayMoved(f, stack, bytes, entries);
          PushItemsOk(stack, f);
          r := stack + ItemFrames(items, f.depth + 1);
        }
      case Obj(m) =>
        entries' := entries + |m|;
        if entries' > MAX_ENTRIES {
          error := Some(TooManyEntries);
        } else {
          r, bytes' := PushMembers(stack, f.value, f.depth + 1, bytes);
          if bytes' > MAX_STRING_BYTES {
            error := Some(StringsTooLarge);
          } else {
            ObjectMovedOk(f, stack, r);
          }
        }
      case _ =>
    }
  }

  /** The invariant of the loop: nothing of the document has been lost, and
      the nodes seen and the nodes waiting are one more than the entries. */
  ghost predicate Checking(document: Json, stack: seq<Frame>, nodes: nat, bytes: nat, entries: nat) {
    && bytes + OnStack(Bytes, stack) == Total(Bytes, document)
    && entries + OnStack(Entries, stack) == Total(Entries, document)
    && nodes + |stack| == 1 + entries
    && bytes <= MAX_STRING_BYTES && entries <= MAX_ENTRIES
  }

  ghost predicate CheckingOk(document: Json, stack: seq<Frame>) {
    StackOk(stack) <==> DepthAtMost(document, MAX_DEPTH)
  }

  lemma StartCheckingOk(document: Json)
    ensures CheckingOk(document, [Frame(document, 1)])
  {
    var f := Frame(document, 1);
    assert [f] == [] + [f];
    PushOk([], f);
  }

  lemma ResumeOk(document: Json, f: Frame, rest: seq<Frame>, r: seq<Frame>)
    requires CheckingOk(document, rest + [f]) && MovedOk(f, rest, r)
    ensures CheckingOk(document, r)
  {
    PushOk(rest, f);
  }

  lemma TooDeepIsRight(document: Json, f: Frame, rest: seq<Frame>)
    requires CheckingOk(document, rest + [f]) && f.depth > MAX_DEPTH
    ensures !DepthAtMost(document, MAX_DEPTH)
  {
    PushOk(rest, f);
    assert !FrameOk(f);
  }

  /** Whether an error names a limit the document exceeds. */
  ghost predicate Exceeded(document: Json, e: LimitError) {
    match e
    case TooDeep => !DepthAtMost(document, MAX_DEPTH)
    case StringsTooLarge => Total(Bytes, document) > MAX_STRING_BYTES
    case TooManyEntries => Total(Entries, document) > MAX_ENTRIES
    case TooManyNodes => Total(Nodes, document) > MAX_NODES
  }

  method Round(document: Json, stack: seq<Frame>, nodes: nat, bytes: nat, entries: nat)
    returns (r: seq<Frame>, bytes': nat, entries': nat, error: Option<LimitError>)
    requires stack != [] && Checking(document, stack, nodes, bytes, entries) && CheckingOk(document, stack)
    ensures error.None? ==> Checking(document, r, nodes + 1, bytes', entries') && CheckingOk(document, r)
    ensures error.Some? ==> Exceeded(document, error.value) && error != Some(TooManyNodes)
  {
    r, bytes', entries' := stack, bytes, entries;
    var f, rest := stack[|stack| - 1], stack[..|stack| - 1];
    assert stack == rest + [f];
    if f.depth > MAX_DEPTH {
      TooDeepIsRight(document, f, rest);
      return r, bytes', entries', Some(TooDeep);
    }
    if nodes + 1 > MAX_NODES {
      return r, bytes', entries', Some(TooManyNodes);
    }
    r, bytes', entries', error := Visit(f, rest, bytes, entries);
    if error.None? {
      ResumeOk(document, f, rest, r);
    }
  }

  /** `validate_json_document_limits`: accepts exactly the documents within the
      limits, each refusal names a limit that is exceeded, and the node limit
      is never the one. */
  method ValidateLimits(document: Json) returns (r: Option<LimitError>)
    ensures r.None? <==> WithinLimits(document)
    ensures r.Some? ==> Exceeded(document, r.value) && r != Some(TooManyNodes)
  {
    var stack := [Frame(document, 1)];
    StartCheckingOk(document);
    var nodes: nat, bytes: nat, entries: nat := 0, 0, 0;
    while stack != []
      invariant Checking(document, stack, nodes, bytes, entries) && CheckingOk(document, stack)
      decreases Total(Entries, document) + 1 - nodes
    {
      stack, bytes, entries, r := Round(document, stack, nodes, bytes, entries);
      if r.Some? {
        return;
      }
      nodes := nodes + 1;
    }
    NodesAreEntriesPlusOne(document);
    return None;
  }

  // ----------------------------------------------------- nodes and entries

  /** A document has one node more than it has collection entries. */
  lemma {:induction false} NodesAreEntriesPlusOne(j: Json)
    ensures Total(Nodes, j) == 1 + Total(Entries, j)
    decreases j, 1
  {
    match j
    case Arr(items) => ItemsNodes(items);
    case Obj(m) => MembersNodes(j, m.Keys);
    case _ =>
  }

  lemma {:induction false} ItemsNodes(items: seq<Json>)
    ensures TotalOfItems(Nodes, items) == |items| + TotalOfItems(Entries, items)
    decreases items, 0
  {
    if items != [] {
      ItemsNodes(items[..|items| - 1]);
      NodesAreEntriesPlusOne(items[|items| - 1]);
    }
  }

  lemma {:induction false} MembersNodes(j: Json, keys: set<string>)
    requires j.Obj? && keys <= j.members.Keys
    ensures TotalOfMembers(Nodes, j, keys) == |keys| + TotalOfMembers(Entries, j, keys)
    decreases j, 0, keys
  {
    if keys != {} {
      var k :| k in keys;
      TotalWithoutMember(Nodes, j, keys, k);
      TotalWithoutMember(Entries, j, keys, k);
      MembersNodes(j, keys - {k});
      NodesAreEntriesPlusOne(j.members[k]);
    }
  }

  /** The limits in numbers; the last of them follows from the third. */
  lemma LimitsInNumbers(j: Json)
    ensures WithinLimits(j) <==> DepthAtMost(j, 128) && Total(Bytes, j) <= 16_777_216 && Total(Entries, j) <= 100_000
    ensures WithinLimits(j) ==> Total(Nodes, j) <= 200_000
  {
    NodesAreEntriesPlusOne(j);
  }
}
