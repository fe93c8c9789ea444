/** Shared value types: optional values (SQL NULL), results with errors,
    decimal rendering of positional parameter numbers and separator joins. */
module Common {

  /** A value that may be SQL NULL. */
  datatype Option<+T> = None | Some(value: T)

  /** The outcome of an operation that can raise an error (elog(ERROR, ...)). */
  datatype Result<+T, +E> = Ok(value: T) | Err(error: E)

  predicate IsDigit(c: char) { '0' <= c <= '9' }

  /** Decimal rendering of a natural number, as printf's "%d" writes it. */
  function NatToString(n: nat): (s: string)
    ensures |s| >= 1 && forall i :: 0 <= i < |s| ==> IsDigit(s[i])
    ensures s[0] == '0' ==> n == 0
  {
    if n < 10 then [DigitChar(n)] else NatToString(n / 10) + [DigitChar(n % 10)]
  }

  function DigitChar(d: nat): (c: char)
    requires d < 10
    ensures IsDigit(c) && c as int - '0' as int == d
  {
    ('0' as int + d) as char
  }

  /** Reads back a string of decimal digits. */
  function DecimalValue(s: string): nat
    requires forall i :: 0 <= i < |s| ==> IsDigit(s[i])
  {
    if |s| == 0 then 0
    else
      assert IsDigit(s[|s| - 1]);
      DecimalValue(s[..|s| - 1]) * 10 + (s[|s| - 1] as int - '0' as int)
  }

  /** The rendering of a parameter number reads back as that number. */
  lemma {:induction false} NatToStringRoundTrip(n: nat)
    ensures DecimalValue(NatToString(n)) == n
  {
    if n >= 10 {
      var s := NatToString(n);
      assert s[..|s| - 1] == NatToString(n / 10);
      NatToStringRoundTrip(n / 10);
    }
  }

  /** Distinct numbers render as distinct text (so distinct "$n" placeholders). */
  lemma NatToStringInjective(m: nat, n: nat)
    requires NatToString(m) == NatToString(n)
    ensures m == n
  {
    NatToStringRoundTrip(m);
    NatToStringRoundTrip(n);
  }

  /** The items of a list separated by sep, as a C loop that writes sep
      before every item but the first produces them. */
  function Join(sep: string, items: seq<string>): string
  {
    if |items| == 0 then ""
    else if |items| == 1 then items[0]
    else Join(sep, items[..|items| - 1]) + sep + items[|items| - 1]
  }

  /** Concatenation of a list of strings. */
  function Concat(items: seq<string>): string
  {
    if |items| == 0 then "" else Concat(items[..|items| - 1]) + items[|items| - 1]
  }

  lemma JoinSnoc(sep: string, items: seq<string>, x: string)
    ensures Join(sep, items + [x]) == if |items| == 0 then x else Join(sep, items) + sep + x
  {
    assert (items + [x])[..|items|] == items;
  }

  lemma SliceSnoc<T>(s: seq<T>, a: nat, b: nat)
    requires a <= b < |s|
    ensures s[a..b + 1] == s[a..b] + [s[b]]
  {
  }

  lemma Assoc<T>(a: seq<T>, b: seq<T>, c: seq<T>)
    ensures a + b + c == a + (b + c)
  {
  }

  lemma ConcatSnoc(items: seq<string>, x: string)
    ensures Concat(items + [x]) == Concat(items) + x
  {
    assert (items + [x])[..|items|] == items;
  }

  // ---------------------------------------------------------------------
  // 32-bit integers.
  // ---------------------------------------------------------------------

  const Int32Min: int := -0x8000_0000
  const Int32Max: int := 0x7fff_ffff

  predicate IsInt32(x: int) { Int32Min <= x <= Int32Max }

  /** The value of x in 32-bit two's complement, as int arithmetic wraps
      on the usual targets. */
  function Wrap32(x: int): (r: int)
    ensures IsInt32(r) && (r - x) % 0x1_0000_0000 == 0
  {
    var m := (x - Int32Min) % 0x1_0000_0000;
    m + Int32Min
  }
}
