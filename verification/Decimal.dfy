/** `std::to_string` on unsigned integers, and the `tasks/list` cursor parser
    that has to invert it. */
module Decimal {
  import opened Common

  predicate IsDigit(c: char) { '0' <= c <= '9' }

  predicate AllDigits(s: string) {
    forall i :: 0 <= i < |s| ==> IsDigit(s[i])
  }

  function DigitValue(c: char): nat
    requires IsDigit(c)
  {
    c as int - '0' as int
  }

  function DigitChar(d: nat): char
    requires d < 10
  {
    '0' + d as char
  }

  /** The number a digit string denotes; leading zeros are allowed. */
  function Value(s: string): nat
    requires AllDigits(s)
  {
    if s == "" then 0 else Value(s[..|s| - 1]) * 10 + DigitValue(s[|s| - 1])
  }

  function ToString(n: nat): string
    decreases n
  {
    if n < 10 then [DigitChar(n)] else ToString(n / 10) + [DigitChar(n % 10)]
  }

  lemma {:induction false} ToStringDenotes(n: nat)
    ensures ToString(n) != "" && AllDigits(ToString(n)) && Value(ToString(n)) == n
  {
    if n < 10 {
      assert ToString(n)[..0] == "";
    } else {
      ToStringDenotes(n / 10);
      assert ToString(n)[..|ToString(n)| - 1] == ToString(n / 10);
    }
  }

  /** Printing is injective, so distinct task indices give distinct task ids. */
  lemma ToStringInjective(a: nat, b: nat)
    requires ToString(a) == ToString(b)
    ensures a == b
  {
    ToStringDenotes(a);
    ToStringDenotes(b);
  }

  datatype CursorError = NotDecimal | TooLarge

  /** Some all-digit prefix denotes a number that does not fit `size_t`. */
  predicate Overflows(s: string) {
    exists k :: 0 <= k <= |s| && AllDigits(s[..k]) && Value(s[..k]) > SIZE_MAX
  }

  /** What a cursor means, said without scanning: no cursor is offset 0, and
      an overflow is reported in preference to a bad character behind it. */
  function CursorMeaning(cursor: Option<string>): Result<nat, CursorError> {
    if cursor.None? || cursor.value == "" then Ok(0)
    else if Overflows(cursor.value) then Err(TooLarge)
    else if !AllDigits(cursor.value) then Err(NotDecimal)
    else Ok(Value(cursor.value))
  }

  /** `parse_task_list_cursor`: the guard divides before multiplying, so no
      intermediate value leaves `size_t`. */
  method ParseTaskListCursor(cursor: Option<string>) returns (r: Result<nat, CursorError>)
    ensures r == CursorMeaning(cursor)
    ensures r.Ok? ==> r.value <= SIZE_MAX
  {
    if cursor.None? || cursor.value == "" {
      return Ok(0);
    }
    var s := cursor.value;
    var value := 0;
    for i := 0 to |s|
      invariant AllDigits(s[..i])
      invariant value == Value(s[..i]) <= SIZE_MAX
      invariant forall k :: 0 <= k <= i ==> AllDigits(s[..k]) && Value(s[..k]) <= SIZE_MAX
    {
      if !IsDigit(s[i]) {
        assert forall k :: i < k <= |s| ==> !IsDigit(s[..k][i]);
        return Err(NotDecimal);
      }
      var digit := DigitValue(s[i]);
      assert s[..i + 1][..i] == s[..i];
      if value > (SIZE_MAX - digit) / 10 {
        assert Value(s[..i + 1]) > SIZE_MAX;
        return Err(TooLarge);
      }
      value := value * 10 + digit;
    }
    assert s[..|s|] == s;
    return Ok(value);
  }

  /** A long prefix denotes at least as much as a shorter one. */
  lemma {:induction false} PrefixValue(s: string, k: nat)
    requires AllDigits(s) && k <= |s|
    ensures Value(s[..k]) <= Value(s)
  {
    if k < |s| {
      assert s[..|s| - 1][..k] == s[..k];
      PrefixValue(s[..|s| - 1], k);
    } else {
      assert s[..k] == s;
    }
  }

  /** On digit strings, rejection is exactly `Value(s) > SIZE_MAX`. */
  lemma DigitStringsRejectedIffTooLarge(s: string)
    requires s != "" && AllDigits(s)
    ensures CursorMeaning(Some(s)) == if Value(s) > SIZE_MAX then Err(TooLarge) else Ok(Value(s))
  {
    assert s[..|s|] == s;
    if Value(s) <= SIZE_MAX {
      forall k | 0 <= k <= |s| ensures Value(s[..k]) <= SIZE_MAX { PrefixValue(s, k); }
    }
  }

  /** The cursor parser inverts decimal printing exactly on `size_t`: any
      number that fits comes back, any other is rejected as too large. */
  lemma CursorInvertsPrinting(n: nat)
    ensures CursorMeaning(Some(ToString(n))) == if n <= SIZE_MAX then Ok(n) else Err(TooLarge)
  {
    ToStringDenotes(n);
    DigitStringsRejectedIffTooLarge(ToString(n));
  }
}
