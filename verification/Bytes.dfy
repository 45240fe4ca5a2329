/** Byte strings as the program writes them, and readers that undo each writer: a reader takes
    the value it expects off the front and hands back the bytes that follow. */
module Bytes {
  import opened Chips

  newtype byte = x: int | 0 <= x < 256

  datatype Read<+T> = Read(value: T, rest: seq<byte>) | Malformed {
    predicate IsFailure() { Malformed? }

    function PropagateFailure<U>(): Read<U>
      requires IsFailure()
    {
      Malformed
    }

    function Extract(): (T, seq<byte>)
      requires !IsFailure()
    {
      (value, rest)
    }
  }

  // ----- Fixed-width numbers -----

  function Pow256(width: nat): (p: nat)
    ensures p > 0
  {
    if width == 0 then 1 else 256 * Pow256(width - 1)
  }

  /** The low `width` bytes of a number, most significant first; a longer number is cut, as a cast cuts it. */
  function BigEndian(value: nat, width: nat): (r: seq<byte>)
    ensures |r| == width
  {
    if width == 0 then [] else BigEndian(value / 256, width - 1) + [(value % 256) as byte]
  }

  function FromBigEndian(bytes: seq<byte>): nat {
    if |bytes| == 0 then 0
    else 256 * FromBigEndian(bytes[..|bytes| - 1]) + bytes[|bytes| - 1] as nat
  }

  lemma {:induction false} BigEndianRoundTrip(value: nat, width: nat)
    requires value < Pow256(width)
    ensures FromBigEndian(BigEndian(value, width)) == value
  {
    if width > 0 {
      BigEndianRoundTrip(value / 256, width - 1);
      var front := BigEndian(value / 256, width - 1);
      assert (front + [(value % 256) as byte])[..width - 1] == front;
    }
  }

  function ReadNumber(bytes: seq<byte>, width: nat): Read<nat> {
    if |bytes| < width then Malformed else Read(FromBigEndian(bytes[..width]), bytes[width..])
  }

  lemma {:induction false} ReadsNumber(value: nat, width: nat, rest: seq<byte>)
    requires value < Pow256(width)
    ensures ReadNumber(BigEndian(value, width) + rest, width) == Read(value, rest)
  {
    BigEndianRoundTrip(value, width);
    var bytes := BigEndian(value, width) + rest;
    assert bytes[..width] == BigEndian(value, width) && bytes[width..] == rest;
  }

  const WORD := 8
  const KEY := 32

  lemma {:induction false} Widths()
    ensures Pow256(1) == 256 && Pow256(4) == 0x1_0000_0000 && Pow256(8) == U64_MAX + 1
  {
    assert Pow256(2) == 65536;
    assert Pow256(4) == 256 * (256 * Pow256(2));
    assert Pow256(6) == 256 * (256 * Pow256(4));
    assert Pow256(8) == 256 * (256 * Pow256(6));
  }

  // ----- Tags and constants -----

  function ReadTag(bytes: seq<byte>): Read<byte> {
    if |bytes| == 0 then Malformed else Read(bytes[0], bytes[1..])
  }

  lemma {:induction false} ReadsTag(tag: byte, rest: seq<byte>)
    ensures ReadTag([tag] + rest) == Read(tag, rest)
  {
    assert ([tag] + rest)[1..] == rest;
  }

  function ReadExactly(bytes: seq<byte>, constant: seq<byte>): Read<Unit> {
    if |bytes| >= |constant| && bytes[..|constant|] == constant then Read(Unit, bytes[|constant|..]) else Malformed
  }

  lemma {:induction false} ReadsExactly(constant: seq<byte>, rest: seq<byte>)
    ensures ReadExactly(constant + rest, constant) == Read(Unit, rest)
  {
    assert (constant + rest)[..|constant|] == constant && (constant + rest)[|constant|..] == rest;
  }

  // ----- Length-prefixed byte strings -----

  function Prefixed(bytes: seq<byte>, width: nat): seq<byte> { BigEndian(|bytes|, width) + bytes }

  function ReadPrefixed(bytes: seq<byte>, width: nat): Read<seq<byte>> {
    var (n, rest) :- ReadNumber(bytes, width);
    if |rest| < n then Malformed else Read(rest[..n], rest[n..])
  }

  lemma {:induction false} ReadsPrefixed(value: seq<byte>, width: nat, rest: seq<byte>)
    requires |value| < Pow256(width)
    ensures ReadPrefixed(Prefixed(value, width) + rest, width) == Read(value, rest)
  {
    ReadsNumber(|value|, width, value + rest);
    assert Prefixed(value, width) + rest == BigEndian(|value|, width) + (value + rest);
    assert (value + rest)[..|value|] == value && (value + rest)[|value|..] == rest;
  }

  // ----- Text -----

  function Utf8Char(c: char): (r: seq<byte>)
    ensures 1 <= |r| <= 4
  {
    var n := c as int;
    if n < 0x80 then [n as byte]
    else if n < 0x800 then [(0xC0 + n / 0x40) as byte, (0x80 + n % 0x40) as byte]
    else if n < 0x1_0000 then
      [(0xE0 + n / 0x40 / 0x40) as byte, (0x80 + n / 0x40 % 0x40) as byte, (0x80 + n % 0x40) as byte]
    else
      [(0xF0 + n / 0x40 / 0x40 / 0x40) as byte, (0x80 + n / 0x40 / 0x40 % 0x40) as byte,
       (0x80 + n / 0x40 % 0x40) as byte, (0x80 + n % 0x40) as byte]
  }

  function Utf8(s: string): seq<byte> {
    if |s| == 0 then [] else Utf8Char(s[0]) + Utf8(s[1..])
  }

  /** How many bytes a character takes, told from its first byte. */
  function Utf8Width(first: byte): nat {
    if first < 0x80 then 1 else if first < 0xE0 then 2 else if first < 0xF0 then 3 else 4
  }

  lemma {:induction false} Utf8WidthTold(c: char)
    ensures Utf8Width(Utf8Char(c)[0]) == |Utf8Char(c)|
  {
  }

  /** The number spelled by the bytes of one character. */
  function CodePoint(b: seq<byte>): int {
    match |b|
    case 1 => b[0] as int
    case 2 => (b[0] as int - 0xC0) * 0x40 + (b[1] as int - 0x80)
    case 3 => ((b[0] as int - 0xE0) * 0x40 + (b[1] as int - 0x80)) * 0x40 + (b[2] as int - 0x80)
    case 4 =>
      (((b[0] as int - 0xF0) * 0x40 + (b[1] as int - 0x80)) * 0x40 + (b[2] as int - 0x80)) * 0x40 + (b[3] as int - 0x80)
    case _ => 0
  }

  lemma {:induction false} CodePointRoundTrip(c: char)
    ensures CodePoint(Utf8Char(c)) == c as int
  {
    var n := c as int;
    assert n == n / 0x40 * 0x40 + n % 0x40;
    assert n / 0x40 == n / 0x40 / 0x40 * 0x40 + n / 0x40 % 0x40;
    assert n / 0x40 / 0x40 == n / 0x40 / 0x40 / 0x40 * 0x40 + n / 0x40 / 0x40 % 0x40;
  }

  /** Text is told apart by its UTF-8 bytes. */
  lemma {:induction false} Utf8Injective(s: string, t: string)
    requires Utf8(s) == Utf8(t)
    ensures s == t
  {
    if |s| > 0 && |t| > 0 {
      var (a, b) := (Utf8Char(s[0]), Utf8Char(t[0]));
      assert Utf8(s)[0] == a[0] && Utf8(t)[0] == b[0];
      Utf8WidthTold(s[0]);
      Utf8WidthTold(t[0]);
      assert a == Utf8(s)[..|a|] == b;
      CodePointRoundTrip(s[0]);
      CodePointRoundTrip(t[0]);
      assert Utf8(s[1..]) == Utf8(s)[|a|..] == Utf8(t)[|b|..] == Utf8(t[1..]);
      Utf8Injective(s[1..], t[1..]);
      assert s == [s[0]] + s[1..] && t == [t[0]] + t[1..];
    }
  }

  // ----- Sorted sets of keys -----

  predicate IsLeast(m: nat, s: set<nat>) { m in s && forall y :: y in s ==> m <= y }

  lemma {:induction false} LeastExists(s: set<nat>)
    requires s != {}
    ensures exists m :: IsLeast(m, s)
  {
    var x :| x in s;
    if s == {x} {
      assert IsLeast(x, s);
    } else {
      LeastExists(s - {x});
      var m :| IsLeast(m, s - {x});
      assert forall y :: y in s ==> y == x || y in s - {x};
      assert IsLeast(if x < m then x else m, s);
    }
  }

  function Least(s: set<nat>): (m: nat)
    requires s != {}
    ensures IsLeast(m, s)
  {
    LeastExists(s);
    var m :| m in s && IsLeast(m, s);
    m
  }

  /** The elements in ascending order, as an ordered set is iterated. */
  function Ascending(s: set<nat>): (r: seq<nat>)
    ensures |r| == |s| && forall x :: x in r <==> x in s
  {
    if s == {} then []
    else
      var m := Least(s);
      assert |s - {m}| == |s| - 1;
      [m] + Ascending(s - {m})
  }

  ghost predicate StrictlyAscending(xs: seq<nat>) { forall i, j :: 0 <= i < j < |xs| ==> xs[i] < xs[j] }

  lemma {:induction false} AscendingUnfolds(s: set<nat>)
    requires s != {}
    ensures Ascending(s) == [Least(s)] + Ascending(s - {Least(s)})
  {
  }

  lemma {:induction false} AscendingAscends(s: set<nat>)
    ensures StrictlyAscending(Ascending(s))
  {
    hide Ascending, Least;
    if s != {} {
      AscendingUnfolds(s);
      var rest := Ascending(s - {Least(s)});
      AscendingAscends(s - {Least(s)});
      forall i | 0 <= i < |rest| ensures Least(s) < rest[i] { assert rest[i] in rest; }
    }
  }

  /** There is one way to put a set in order. */
  lemma {:induction false} OneOrder(xs: seq<nat>, ys: seq<nat>)
    requires StrictlyAscending(xs) && StrictlyAscending(ys) && forall x :: x in xs <==> x in ys
    ensures xs == ys
  {
    assert forall i :: 0 <= i < |xs| ==> xs[i] in ys;
    assert forall i :: 0 <= i < |ys| ==> ys[i] in xs;
    if |xs| > 0 && |ys| > 0 {
      assert xs[0] == ys[0];
      forall x ensures x in xs[1..] <==> x in ys[1..] {
        assert x in xs[1..] <==> x in xs && x != xs[0] by { Tail(xs, x); }
        assert x in ys[1..] <==> x in ys && x != ys[0] by { Tail(ys, x); }
      }
      OneOrder(xs[1..], ys[1..]);
    }
  }

  lemma {:induction false} Tail(xs: seq<nat>, x: nat)
    requires StrictlyAscending(xs) && |xs| > 0
    ensures x in xs[1..] <==> x in xs && x != xs[0]
  {
  }

  lemma {:induction false} AscendingInjective(s: set<nat>, t: set<nat>)
    requires Ascending(s) == Ascending(t)
    ensures s == t
  {
    forall x ensures x in s <==> x in t { assert x in Ascending(s) <==> x in Ascending(t); }
  }

  function Keys(keys: seq<nat>): (r: seq<byte>)
    ensures |r| == KEY * |keys|
  {
    if |keys| == 0 then [] else BigEndian(keys[0], KEY) + Keys(keys[1..])
  }

  function ReadKeys(bytes: seq<byte>, n: nat): Read<seq<nat>> {
    if n == 0 then Read([], bytes)
    else
      var (key, rest) :- ReadNumber(bytes, KEY);
      var (keys, tail) :- ReadKeys(rest, n - 1);
      Read([key] + keys, tail)
  }

  lemma {:induction false} ReadsKeys(keys: seq<nat>, rest: seq<byte>)
    requires forall i :: 0 <= i < |keys| ==> keys[i] < Pow256(KEY)
    ensures ReadKeys(Keys(keys) + rest, |keys|) == Read(keys, rest)
  {
    hide BigEndian, ReadNumber, Pow256;
    if |keys| > 0 {
      ReadsNumber(keys[0], KEY, Keys(keys[1..]) + rest);
      ReadsKeys(keys[1..], rest);
      assert Keys(keys) + rest == BigEndian(keys[0], KEY) + (Keys(keys[1..]) + rest);
      assert [keys[0]] + keys[1..] == keys;
    } else {
      assert Keys(keys) + rest == rest;
    }
  }
}
