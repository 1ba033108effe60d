/** One page of `tasks/list`, and what a client gathers by following cursors. */
module TaskPaging {
  import opened Common
  import opened Decimal

  datatype Page<+T> = Page(tasks: seq<T>, nextCursor: Option<string>, total: nat)

  /** `LengthError` is the `std::length_error` that `reserve` throws. */
  datatype ListError = BadCursor(error: CursorError) | LengthError

  function PageEnd(total: nat, pageSize: nat, start: nat): nat {
    Min((start + if pageSize == 0 then total else pageSize) % SIZE_MODULUS, total)
  }

  function PageAt<T>(items: seq<T>, pageSize: nat, start: nat): Result<Page<T>, ListError>
    requires start <= |items|
  {
    var end := PageEnd(|items|, pageSize, start);
    if end < start then Err(LengthError)
    else Ok(Page(items[start..end], if end < |items| then Some(ToString(end)) else None, |items|))
  }

  /** The page of `items` at a cursor, with `start + page_size` taken modulo
      2^64 as `size_t` arithmetic does. */
  function ListPage<T>(items: seq<T>, pageSize: nat, cursor: Option<string>): Result<Page<T>, ListError> {
    match CursorMeaning(cursor)
    case Err(e) => Err(BadCursor(e))
    case Ok(offset) => PageAt(items, pageSize, Min(offset, |items|))
  }

  lemma SumModulo(a: nat, b: nat)
    requires a < SIZE_MODULUS && b < SIZE_MODULUS
    ensures (a + b) % SIZE_MODULUS == if a + b < SIZE_MODULUS then a + b else a + b - SIZE_MODULUS
  {
  }

  /** Every start is served unless `start + page_size` wraps, and then none is:
      the wrapped end lies before the start and `reserve` throws. */
  lemma PageIsSliceUnlessSumWraps<T>(items: seq<T>, pageSize: nat, start: nat)
    requires |items| <= MAX_VECTOR_SIZE && pageSize <= SIZE_MAX && start <= |items|
    ensures var size := if pageSize == 0 then |items| else pageSize;
      if start + size >= SIZE_MODULUS then PageAt(items, pageSize, start) == Err(LengthError)
      else
        && PageAt(items, pageSize, start).Ok?
        && PageAt(items, pageSize, start).value.tasks == items[start..Min(start + size, |items|)]
  {
    SumModulo(start, if pageSize == 0 then |items| else pageSize);
  }

  /** One task, the largest page size, and a cursor at the end of the list. */
  lemma LargestPageSizeThrows<T>(item: T)
    ensures ListPage([item], SIZE_MAX, Some(ToString(1))) == Err(LengthError)
  {
    CursorInvertsPrinting(1);
    PageIsSliceUnlessSumWraps([item], SIZE_MAX, 1);
  }

  /** The page at an offset a client reaches by following cursors is full or
      last, and the sum never wraps: the offset is zero, or at least one page
      size and below the total. */
  lemma FollowedPage<T>(items: seq<T>, pageSize: nat, offset: nat)
    requires |items| <= MAX_VECTOR_SIZE && pageSize <= SIZE_MAX
    requires offset == 0 || pageSize <= offset < |items|
    ensures var end := if pageSize == 0 then |items| else Min(offset + pageSize, |items|);
      PageAt(items, pageSize, offset) ==
        Ok(Page(items[offset..end], if end < |items| then Some(ToString(end)) else None, |items|))
  {
    SumModulo(offset, if pageSize == 0 then |items| else pageSize);
  }
}
