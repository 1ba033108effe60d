/**
 * The key under which a response is buffered: the JSON text of its request id.
 * An integer is written in decimal, a string in quotes with the escapes of
 * RFC 8259, section 7, so the integer 1 and the string "1" have different keys.
 */
module RequestKey {
  import opened JsonRpc
  import Decimal

  type Id = RequestId

  function Key(id: Id): string {
    match id
    case Num(n) => Signed(n)
    case Text(t) => "\"" + Escaped(t) + "\""
  }

  function Signed(n: int): string { if n < 0 then "-" + Decimal.ToString(-n) else Decimal.ToString(n) }

  function Hex(n: nat): char
    requires n < 16
  {
    "0123456789abcdef"[n]
  }

  /** How one character is written inside the quotes. */
  function Unit(c: char): string {
    match c
    case '\"' => "\\\""
    case '\\' => "\\\\"
    case '\U{8}' => "\\b"
    case '\U{C}' => "\\f"
    case '\n' => "\\n"
    case '\r' => "\\r"
    case '\t' => "\\t"
    case _ => if c < ' ' then "\\u00" + [Hex(c as int / 16), Hex(c as int % 16)] else [c]
  }

  function Escaped(s: string): string { if s == "" then "" else Unit(s[0]) + Escaped(s[1..]) }

  function HexValue(c: char): int {
    if '0' <= c <= '9' then c as int - '0' as int else c as int - 'a' as int + 10
  }

  /** The character that the text begins with, read back. */
  function FirstCode(t: string): int {
    if t == "" then -1
    else if t[0] != '\\' || |t| < 2 then t[0] as int
    else
      match t[1]
      case 'b' => 8
      case 'f' => 12
      case 'n' => 10
      case 'r' => 13
      case 't' => 9
      case 'u' => if |t| < 6 then -1 else 16 * HexValue(t[4]) + HexValue(t[5])
      case c => c as int
  }

  lemma HexRead(n: nat)
    requires n < 16
    ensures HexValue(Hex(n)) == n
  {
  }

  lemma UnitRead(c: char, rest: string)
    ensures FirstCode(Unit(c) + rest) == c as int
  {
    if c < ' ' {
      HexRead(c as int / 16);
      HexRead(c as int % 16);
    }
  }

  lemma UnitSplits(c: char, x: string, d: char, y: string)
    requires Unit(c) + x == Unit(d) + y
    ensures c == d && x == y
  {
    UnitRead(c, x);
    UnitRead(d, y);
    SameTail(Unit(c), x, y);
  }

  lemma {:induction false} EscapedInjective(a: string, b: string)
    requires Escaped(a) == Escaped(b)
    ensures a == b
    decreases |a|
  {
    if a != "" && b != "" {
      UnitSplits(a[0], Escaped(a[1..]), b[0], Escaped(b[1..]));
      EscapedInjective(a[1..], b[1..]);
      assert a == [a[0]] + a[1..] && b == [b[0]] + b[1..];
    }
  }

  lemma SameTail(head: string, x: string, y: string)
    requires head + x == head + y
    ensures x == y
  {
    assert (head + x)[|head|..] == x && (head + y)[|head|..] == y;
  }

  lemma SameMiddle(x: string, y: string)
    requires "\"" + x + "\"" == "\"" + y + "\""
    ensures x == y
  {
    assert |x| == |y|;
    assert ("\"" + x + "\"")[1..|x| + 1] == x && ("\"" + y + "\"")[1..|y| + 1] == y;
  }

  lemma SignedStart(n: int)
    ensures |Signed(n)| > 0 && if n < 0 then Signed(n)[0] == '-' else Decimal.IsDigit(Signed(n)[0])
  {
    if n >= 0 { Decimal.ToStringDenotes(n); }
  }

  lemma SignedInjective(m: int, n: int)
    requires Signed(m) == Signed(n)
    ensures m == n
  {
    SignedStart(m);
    SignedStart(n);
    if m < 0 {
      SameTail("-", Decimal.ToString(-m), Decimal.ToString(-n));
      Decimal.ToStringInjective(-m, -n);
    } else {
      Decimal.ToStringInjective(m, n);
    }
  }

  lemma QuotedInjective(s: string, t: string)
    requires "\"" + Escaped(s) + "\"" == "\"" + Escaped(t) + "\""
    ensures s == t
  {
    SameMiddle(Escaped(s), Escaped(t));
    EscapedInjective(s, t);
  }

  /** A number never starts with a quote. */
  lemma NumberIsNotQuoted(n: int, t: string)
    ensures Signed(n) != "\"" + t + "\""
  {
    SignedStart(n);
  }

  /** Different ids have different keys. */
  lemma KeyInjective(a: Id, b: Id)
    requires Key(a) == Key(b)
    ensures a == b
  {
    match (a, b) {
      case (Text(s), Text(t)) => QuotedInjective(s, t);
      case (Num(m), Num(n)) => SignedInjective(m, n);
      case (Num(n), Text(t)) => NumberIsNotQuoted(n, Escaped(t));
      case (Text(t), Num(n)) => NumberIsNotQuoted(n, Escaped(t));
    }
  }
}
