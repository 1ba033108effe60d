/** Result types and machine constants shared by every component. */
module Common {

  datatype Option<+T> = None | Some(value: T)

  /** `core::Result`: a value or a `core::Error`. */
  datatype Result<+T, +E> = Ok(value: T) | Err(error: E)

  /** `core::Error`, without the category tag. */
  datatype Error = Error(code: int, message: string, detail: string)

  const PARSE_ERROR := -32700
  const INVALID_REQUEST := -32600
  const INTERNAL_ERROR := -32603

  /** `std::size_t` and `std::uint64_t` are 64 bits wide. */
  const SIZE_MODULUS := 0x1_0000_0000_0000_0000
  const SIZE_MAX := SIZE_MODULUS - 1

  /** No vector holds more than `PTRDIFF_MAX` elements. */
  const MAX_VECTOR_SIZE := 0x7FFF_FFFF_FFFF_FFFF

  function Min(a: nat, b: nat): nat { if a < b then a else b }

  predicate NoDup<T(==)>(s: seq<T>) {
    forall i, j :: 0 <= i < j < |s| ==> s[i] != s[j]
  }

  lemma CountJoin<T>(a: seq<T>, b: seq<T>, x: T)
    ensures multiset(a + b)[x] == multiset(a)[x] + multiset(b)[x]
  {
  }

  lemma TakeOneMore<T>(s: seq<T>, n: nat)
    requires n < |s|
    ensures s[..n + 1] == s[..n] + [s[n]]
  {
  }

  lemma SplitLast<T>(s: seq<T>, n: nat)
    requires |s| == n + 1
    ensures s == s[..n] + [s[n]]
  {
  }

  lemma Associates<T>(a: seq<T>, b: seq<T>, c: seq<T>)
    ensures a + b + c == a + (b + c)
  {
  }
}
