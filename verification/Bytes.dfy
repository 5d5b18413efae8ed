/** Byte strings, their concatenation, and fixed-width big-endian numbers. */
module Bytes {
  import opened Sequences

  type Byte = x: int | 0 <= x < 0x100

  /** The concatenation of a list of byte strings. */
  function Flatten(parts: seq<seq<Byte>>): seq<Byte> {
    if parts == [] then [] else parts[0] + Flatten(parts[1..])
  }

  lemma FlattenCons(x: seq<Byte>, rest: seq<seq<Byte>>)
    ensures Flatten([x] + rest) == x + Flatten(rest)
  {
    assert ([x] + rest)[1..] == rest;
  }

  lemma {:induction false} FlattenAppend(a: seq<seq<Byte>>, b: seq<seq<Byte>>)
    ensures Flatten(a + b) == Flatten(a) + Flatten(b)
  {
    if a == [] {
      assert a + b == b;
    } else {
      FlattenAppend(a[1..], b);
      assert (a + b)[1..] == a[1..] + b;
      ConcatAssociates(a[0], Flatten(a[1..]), Flatten(b));
    }
  }

  lemma FlattenSnoc(a: seq<seq<Byte>>, x: seq<Byte>)
    ensures Flatten(a + [x]) == Flatten(a) + x
  {
    FlattenAppend(a, [x]);
    assert Flatten([x]) == x + Flatten([][..]);
  }

  /** 256 to the power `width`. */
  function Radix(width: nat): (r: nat)
    ensures r > 0
  {
    if width == 0 then 1 else 0x100 * Radix(width - 1)
  }

  /** The low `width` bytes of `v`, most significant first. */
  function BigEndian(v: nat, width: nat): (s: seq<Byte>)
    ensures |s| == width
  {
    if width == 0 then [] else BigEndian(v / 0x100, width - 1) + [v % 0x100]
  }

  /** The number a big-endian byte string spells. */
  function BigEndianValue(s: seq<Byte>): nat {
    if s == [] then 0 else 0x100 * BigEndianValue(s[..|s| - 1]) + s[|s| - 1]
  }

  /** Writing keeps exactly the value modulo 256^width. */
  lemma {:induction false} BigEndianRoundTrip(v: nat, width: nat)
    ensures BigEndianValue(BigEndian(v, width)) == v % Radix(width)
  {
    if width > 0 {
      BigEndianRoundTrip(v / 0x100, width - 1);
      var s := BigEndian(v, width);
      assert s[..width - 1] == BigEndian(v / 0x100, width - 1);
      SplitModulo(v, Radix(width - 1));
    }
  }

  lemma SplitModulo(v: nat, r: nat)
    requires r > 0
    ensures 0x100 * (v / 0x100 % r) + v % 0x100 == v % (0x100 * r)
  {
    var q := v / 0x100;
    var low := 0x100 * (q % r) + v % 0x100;
    assert v == 0x100 * q + v % 0x100;
    assert q == r * (q / r) + q % r;
    assert 0x100 * q == 0x100 * (r * (q / r)) + 0x100 * (q % r);
    assert 0x100 * (r * (q / r)) == (0x100 * r) * (q / r);
    assert v == (0x100 * r) * (q / r) + low;
    assert 0 <= low < 0x100 * r;
    EuclideanUnique(v, 0x100 * r, q / r, low);
  }

  /** Euclidean division has one quotient and one remainder. */
  lemma EuclideanUnique(v: nat, d: nat, q: nat, r: nat)
    requires d > 0 && r < d && v == d * q + r
    ensures v / d == q && v % d == r
  {
    var k := q - v / d;
    assert d * k == v % d - r by {
      assert v == d * (v / d) + v % d;
      assert d * k == d * q - d * (v / d);
    }
    MultipleGrows(d, k);
  }

  lemma MultipleGrows(d: int, k: int)
    requires d > 0
    ensures k >= 1 ==> d * k >= d
    ensures k <= -1 ==> d * k <= -d
  {
    if k >= 1 {
      assert d * k == d + d * (k - 1);
    } else if k <= -1 {
      assert d * k == -d + d * (k + 1);
    }
  }

  /** Two numbers are written alike exactly when they agree modulo 256^width. */
  lemma {:induction false} BigEndianInjective(a: nat, b: nat, width: nat)
    ensures BigEndian(a, width) == BigEndian(b, width) <==> a % Radix(width) == b % Radix(width)
  {
    BigEndianRoundTrip(a, width);
    BigEndianRoundTrip(b, width);
    if a % Radix(width) == b % Radix(width) {
      SameRemainderSameBytes(a, b, width);
    }
  }

  lemma {:induction false} SameRemainderSameBytes(a: nat, b: nat, width: nat)
    requires a % Radix(width) == b % Radix(width)
    ensures BigEndian(a, width) == BigEndian(b, width)
  {
    if width > 0 {
      var r := Radix(width - 1);
      SplitModulo(a, r);
      SplitModulo(b, r);
      SameRemainderSameBytes(a / 0x100, b / 0x100, width - 1);
    }
  }
}
