/** IP addresses as numbers, and the mask test by which a proxy is trusted (RFC 4632 section 3.1, RFC 4291 sections 2.2 and 2.3). */
module Cidr {
  import opened Basics
  import opened Bytes

  // -------------------------------------------------------- bits of naturals

  function Pow2(n: nat): (r: nat)
    ensures r >= 1
  {
    if n == 0 then 1 else 2 * Pow2(n - 1)
  }

  function Bit(a: nat, i: nat): nat {
    if i == 0 then a % 2 else Bit(a / 2, i - 1)
  }

  function Both(x: nat, y: nat): nat {
    if x == 1 && y == 1 then 1 else 0
  }

  /** The bitwise conjunction. */
  function And(a: nat, b: nat): nat {
    if a == 0 || b == 0 then 0 else Both(a % 2, b % 2) + 2 * And(a / 2, b / 2)
  }

  lemma {:induction false} AndIsBitwise(a: nat, b: nat, i: nat)
    ensures Bit(And(a, b), i) == Both(Bit(a, i), Bit(b, i))
  {
    if a == 0 || b == 0 {
      BitOfZero(i);
    } else {
      LowAndHigh(Both(a % 2, b % 2), And(a / 2, b / 2));
      if i > 0 {
        AndIsBitwise(a / 2, b / 2, i - 1);
      }
    }
  }

  lemma {:induction false} BitOfZero(i: nat)
    ensures Bit(0, i) == 0
  {
    if i > 0 {
      BitOfZero(i - 1);
    }
  }

  lemma LowAndHigh(low: nat, high: nat)
    requires low < 2
    ensures (low + 2 * high) % 2 == low && (low + 2 * high) / 2 == high
  {
  }

  lemma {:induction false} Pow2Sum(m: nat, n: nat)
    ensures Pow2(m + n) == Pow2(m) * Pow2(n)
  {
    if m > 0 {
      Pow2Sum(m - 1, n);
      assert Pow2(m + n) == 2 * Pow2(m - 1 + n);
    }
  }

  lemma AndOdd(a: nat, c: nat)
    ensures And(a, 2 * c + 1) == a % 2 + 2 * And(a / 2, c)
  {
    LowAndHigh(1, c);
  }

  /** A conjunction with n ones keeps the low n bits. */
  lemma {:induction false} AndOnes(a: nat, n: nat)
    ensures And(a, Pow2(n) - 1) == a % Pow2(n)
  {
    if n > 0 {
      AndOdd(a, Pow2(n - 1) - 1);
      AndOnes(a / 2, n - 1);
      HalveModulo(a, Pow2(n - 1));
    }
  }

  lemma HalveModulo(a: nat, p: nat)
    requires p >= 1
    ensures a % (2 * p) == a % 2 + 2 * ((a / 2) % p)
    ensures a / (2 * p) == a / 2 / p
  {
    var h := a / 2;
    var q, r := h / p, h % p;
    assert h == p * q + r;
    assert 2 * (p * q) == (2 * p) * q;
    assert a == (2 * p) * q + (a % 2 + 2 * r);
    EuclideanUnique(a, 2 * p, q, a % 2 + 2 * r);
  }

  lemma AndEven(a: nat, c: nat)
    ensures And(a, 2 * c) == 2 * And(a / 2, c)
  {
    LowAndHigh(0, c);
  }

  /** a << h */
  function Shl(a: nat, h: nat): nat {
    if h == 0 then a else 2 * Shl(a, h - 1)
  }

  /** a >> h */
  function Shr(a: nat, h: nat): nat {
    if h == 0 then a else Shr(a / 2, h - 1)
  }

  lemma {:induction false} ShlMultiplies(a: nat, h: nat)
    ensures Shl(a, h) == a * Pow2(h)
  {
    if h > 0 {
      ShlMultiplies(a, h - 1);
      Scale(a, Pow2(h - 1), 2);
    }
  }

  lemma {:induction false} ShrDivides(a: nat, h: nat)
    ensures Shr(a, h) == a / Pow2(h)
  {
    if h > 0 {
      ShrDivides(a / 2, h - 1);
      HalveModulo(a, Pow2(h - 1));
    }
  }

  /** A conjunction with a shifted number looks at the shifted other one. */
  lemma {:induction false} AndShifted(a: nat, b: nat, h: nat)
    ensures And(a, Shl(b, h)) == Shl(And(Shr(a, h), b), h)
  {
    if h > 0 {
      AndEven(a, Shl(b, h - 1));
      AndShifted(a / 2, b, h - 1);
    }
  }

  // ------------------------------------------------------------ the mask test

  datatype Family = V4 | V6
  datatype Address = Address(family: Family, value: nat)
  datatype Network = Network(family: Family, base: nat, mask: nat)

  function MaxBits(family: Family): nat {
    if family.V4? then 32 else 128
  }

  predicate ValidAddress(a: Address) {
    a.value < Pow2(MaxBits(a.family))
  }

  /** The mask of a prefix length: `maxBits` ones, shifted and cut. */
  function MaskOf(maxBits: nat, prefix: nat): nat
    requires prefix <= maxBits
  {
    var allBits := Pow2(maxBits) - 1;
    var hostBits := maxBits - prefix;
    if hostBits == maxBits then 0 else And(Shl(allBits, hostBits), allBits)
  }

  /** parseCidr on a valid address; no prefix length stands for the full one. */
  function ParseCidr(a: Address, prefix: Option<int>): Option<Network> {
    var maxBits := MaxBits(a.family);
    var length := if prefix.None? then maxBits else prefix.value;
    if length < 0 || length > maxBits then None
    else
      var mask := MaskOf(maxBits, length);
      Some(Network(a.family, And(a.value, mask), mask))
  }

  predicate Matches(n: Network, a: Address) {
    n.family == a.family && And(a.value, n.mask) == n.base
  }

  /** isTrustedProxy on an address that could be read. */
  predicate IsTrusted(networks: seq<Network>, a: Address) {
    exists n :: n in networks && Matches(n, a)
  }

  /** An entry of the configured list whose address could be read. */
  datatype Entry = Entry(network: Address, prefix: Option<int>)

  /** getTrustedProxyNetworks: entries with a prefix length out of range are dropped. */
  function TrustedNetworks(entries: seq<Entry>): seq<Network> {
    if entries == [] then []
    else
      var parsed := ParseCidr(entries[0].network, entries[0].prefix);
      (if parsed.Some? then [parsed.value] else []) + TrustedNetworks(entries[1..])
  }

  /** The mask has ones in the top `prefix` of `maxBits` places. */
  lemma MaskIsTopOnes(maxBits: nat, prefix: nat)
    requires prefix <= maxBits
    ensures MaskOf(maxBits, prefix) == Shl(Pow2(prefix) - 1, maxBits - prefix)
  {
    ShlMultiplies(Pow2(prefix) - 1, maxBits - prefix);
    if prefix == 0 {
      assert Pow2(0) == 1;
    } else {
      ShiftedOnes(prefix, maxBits - prefix);
      AndOnes(Shl(Pow2(maxBits) - 1, maxBits - prefix), maxBits);
    }
  }

  /** All ones, shifted and cut. */
  lemma ShiftedOnes(p: nat, h: nat)
    ensures Shl(Pow2(p + h) - 1, h) % Pow2(p + h) == Shl(Pow2(p) - 1, h)
  {
    ShlMultiplies(Pow2(p) - 1, h);
    ShlMultiplies(Pow2(p + h) - 1, h);
    Pow2Sum(p, h);
    TopOnes(Pow2(p), Pow2(h));
  }

  lemma TopOnes(p: nat, q: nat)
    requires p >= 1 && q >= 1
    ensures ((p * q - 1) * q) % (p * q) == (p - 1) * q
  {
    var d, r := p * q, (p - 1) * q;
    assert r == d - q;
    assert (d - 1) * q == d * (q - 1) + r;
    EuclideanUnique((d - 1) * q, d, q - 1, r);
  }

  /** Masking an address clears its host bits. */
  lemma MaskingFloors(value: nat, maxBits: nat, prefix: nat)
    requires prefix <= maxBits && value < Pow2(maxBits)
    ensures And(value, MaskOf(maxBits, prefix)) == Shl(Shr(value, maxBits - prefix), maxBits - prefix)
  {
    var h := maxBits - prefix;
    MaskIsTopOnes(maxBits, prefix);
    AndShifted(value, Pow2(prefix) - 1, h);
    AndOnes(Shr(value, h), prefix);
    ShrDivides(value, h);
    Pow2Sum(prefix, h);
    QuotientBelow(value, Pow2(prefix), Pow2(h));
    SmallModulo(Shr(value, h), Pow2(prefix));
  }

  lemma {:induction false} ShlInjective(a: nat, b: nat, h: nat)
    ensures Shl(a, h) == Shl(b, h) <==> a == b
  {
    if h > 0 {
      ShlInjective(a, b, h - 1);
    }
  }

  lemma QuotientBelow(v: nat, p: nat, q: nat)
    requires q >= 1 && v < p * q
    ensures v / q < p
  {
    var k := p - v / q;
    assert q * k == p * q - q * (v / q);
    assert v == q * (v / q) + v % q;
    MultipleGrows(q, k);
  }

  lemma SmallModulo(v: nat, p: nat)
    requires v < p
    ensures v % p == v
  {
    EuclideanUnique(v, p, 0, v);
  }

  lemma MatchesTopBits(network: Address, prefix: nat, a: Address)
    requires ValidAddress(network) && ValidAddress(a) && prefix <= MaxBits(network.family)
    ensures ParseCidr(network, Some(prefix)).Some?
    ensures Matches(ParseCidr(network, Some(prefix)).value, a) <==>
              a.family == network.family && Shr(a.value, MaxBits(a.family) - prefix) == Shr(network.value, MaxBits(a.family) - prefix)
  {
    if a.family == network.family {
      SameMasked(a.value, network.value, MaxBits(a.family), prefix);
    }
  }

  lemma SameMasked(a: nat, b: nat, maxBits: nat, prefix: nat)
    requires prefix <= maxBits && a < Pow2(maxBits) && b < Pow2(maxBits)
    ensures And(a, MaskOf(maxBits, prefix)) == And(b, MaskOf(maxBits, prefix)) <==> Shr(a, maxBits - prefix) == Shr(b, maxBits - prefix)
  {
    MaskingFloors(a, maxBits, prefix);
    MaskingFloors(b, maxBits, prefix);
    ShlInjective(Shr(a, maxBits - prefix), Shr(b, maxBits - prefix), maxBits - prefix);
  }

  /**
   An address is matched by a network exactly if the families agree and the top `prefix` bits do: floor division by
   two to the number of host bits gives the same.
   */
  lemma MatchesExactly(network: Address, prefix: nat, a: Address)
    requires ValidAddress(network) && ValidAddress(a) && prefix <= MaxBits(network.family)
    ensures ParseCidr(network, Some(prefix)).Some?
    ensures Matches(ParseCidr(network, Some(prefix)).value, a) <==>
              a.family == network.family
              && a.value / Pow2(MaxBits(a.family) - prefix) == network.value / Pow2(MaxBits(a.family) - prefix)
  {
    MatchesTopBits(network, prefix, a);
    if a.family == network.family {
      ShrDivides(a.value, MaxBits(a.family) - prefix);
      ShrDivides(network.value, MaxBits(a.family) - prefix);
    }
  }

  /** The prefix length of an entry is in range, and the address agrees with it in family and in that many top bits. */
  predicate Covers(e: Entry, a: Address) {
    var maxBits := MaxBits(e.network.family);
    var prefix := if e.prefix.None? then maxBits else e.prefix.value;
    && 0 <= prefix <= maxBits && a.family == e.network.family
    && a.value / Pow2(maxBits - prefix) == e.network.value / Pow2(maxBits - prefix)
  }

  lemma EntryMatches(e: Entry, a: Address)
    requires ValidAddress(e.network) && ValidAddress(a)
    ensures var parsed := ParseCidr(e.network, e.prefix);
            parsed.Some? && Matches(parsed.value, a) <==> Covers(e, a)
  {
    var maxBits := MaxBits(e.network.family);
    var prefix := if e.prefix.None? then maxBits else e.prefix.value;
    assert ParseCidr(e.network, e.prefix) == ParseCidr(e.network, Some(prefix));
    if 0 <= prefix <= maxBits {
      MatchesExactly(e.network, prefix, a);
    }
  }

  /** A proxy is trusted exactly if some configured entry covers its address. */
  lemma {:induction false} TrustedExactly(entries: seq<Entry>, a: Address)
    requires ValidAddress(a) && forall e :: e in entries ==> ValidAddress(e.network)
    ensures IsTrusted(TrustedNetworks(entries), a) <==> exists e :: e in entries && Covers(e, a)
  {
    if entries != [] {
      var first, rest := entries[0], entries[1..];
      EntryMatches(first, a);
      TrustedExactly(rest, a);
      assert forall e :: e in entries <==> e == first || e in rest;
      var parsed := ParseCidr(first.network, first.prefix);
      assert forall n :: n in TrustedNetworks(entries) <==> n in TrustedNetworks(rest) || parsed == Some(n);
    }
  }

  lemma ExtremePrefixes(network: Address, a: Address)
    requires ValidAddress(network) && ValidAddress(a)
    ensures Matches(ParseCidr(network, Some(0)).value, a) <==> a.family == network.family
    ensures Matches(ParseCidr(network, Some(MaxBits(network.family))).value, a) <==> a == network
    ensures ParseCidr(network, None) == ParseCidr(network, Some(MaxBits(network.family)))
  {
    MatchesExactly(network, 0, a);
    MatchesExactly(network, MaxBits(network.family), a);
    QuotientBelow(a.value, 1, Pow2(MaxBits(a.family)));
    QuotientBelow(network.value, 1, Pow2(MaxBits(network.family)));
    assert Pow2(0) == 1;
  }

  // ------------------------------------------------------------ text to number

  /** String.split on one character. */
  function Split(s: string, c: char): (r: seq<string>)
    ensures |r| >= 1
  {
    if s == "" then [""]
    else if s[0] == c then [""] + Split(s[1..], c)
    else
      var rest := Split(s[1..], c);
      [[s[0]] + rest[0]] + rest[1..]
  }

  /** The parts with the separator between them. */
  function Join(parts: seq<string>, c: char): string {
    if parts == [] then "" else if |parts| == 1 then parts[0] else parts[0] + [c] + Join(parts[1..], c)
  }

  lemma {:induction false} SplitOne(s: string, c: char)
    requires c !in s
    ensures Split(s, c) == [s]
  {
    if s != "" {
      SplitOne(s[1..], c);
      assert [s[0]] + s[1..] == s;
    }
  }

  lemma {:induction false} SplitFirst(s: string, c: char, rest: string)
    requires c !in s
    ensures Split(s + [c] + rest, c) == [s] + Split(rest, c)
  {
    var all := s + [c] + rest;
    if s == "" {
      assert all[1..] == rest;
    } else {
      SplitFirst(s[1..], c, rest);
      assert all[1..] == s[1..] + [c] + rest;
      assert [s[0]] + s[1..] == s;
    }
  }

  lemma {:induction false} SplitUndoesJoin(parts: seq<string>, c: char)
    requires parts != [] && forall p :: p in parts ==> c !in p
    ensures Split(Join(parts, c), c) == parts
  {
    if |parts| == 1 {
      SplitOne(parts[0], c);
    } else {
      SplitFirst(parts[0], c, Join(parts[1..], c));
      SplitUndoesJoin(parts[1..], c);
    }
  }

  /** Where "::" starts, or the length of the text. */
  function FindDouble(s: string): (i: nat)
    ensures i <= |s|
    ensures i < |s| ==> i + 1 < |s| && s[i] == ':' && s[i + 1] == ':'
    ensures forall k :: 0 <= k < i && k + 1 < |s| ==> !(s[k] == ':' && s[k + 1] == ':')
  {
    if |s| < 2 then |s|
    else if s[0] == ':' && s[1] == ':' then 0
    else FindDouble(s[1..]) + 1
  }

  /** The first two parts of a split at "::"; a missing second part is empty. */
  function HeadAndTail(s: string): (string, string) {
    var i := FindDouble(s);
    if i == |s| then (s, "")
    else
      var rest := s[i + 2..];
      (s[..i], rest[..FindDouble(rest)])
  }

  /** parseInt or Number on digits of the base. */
  function Value(s: string, base: nat): nat {
    if s == "" then 0 else Value(s[..|s| - 1], base) * base + Digit(s[|s| - 1])
  }

  /** The reduction (acc << bits) + value. */
  function Reduce(values: seq<nat>, base: nat): nat {
    if values == [] then 0 else Reduce(values[..|values| - 1], base) * base + values[|values| - 1]
  }

  function Values(parts: seq<string>, base: nat): (r: seq<nat>)
    ensures |r| == |parts| && forall i :: 0 <= i < |r| ==> r[i] == Value(parts[i], base)
  {
    seq(|parts|, i requires 0 <= i < |parts| => Value(parts[i], base))
  }

  /** The entry `address/text`; the empty text, like 0, is the number 0. */
  function EntryWithPrefix(network: Address, text: string): Entry {
    Entry(network, Some(Value(text, 10)))
  }

  /** A slash with nothing behind it is not the missing prefix: the entry trusts the whole family. */
  lemma EmptyPrefixTrustsTheFamily(network: Address, a: Address)
    requires ValidAddress(network) && ValidAddress(a)
    ensures IsTrusted(TrustedNetworks([EntryWithPrefix(network, "")]), a) <==> a.family == network.family
    ensures IsTrusted(TrustedNetworks([Entry(network, None)]), a) <==> a == network
  {
    ExtremePrefixes(network, a);
    OneEntry(EntryWithPrefix(network, ""), a);
    OneEntry(Entry(network, None), a);
  }

  lemma OneEntry(e: Entry, a: Address)
    ensures var parsed := ParseCidr(e.network, e.prefix);
            IsTrusted(TrustedNetworks([e]), a) <==> parsed.Some? && Matches(parsed.value, a)
  {
    var parsed := ParseCidr(e.network, e.prefix);
    assert [e][1..] == [];
    assert TrustedNetworks([e]) == if parsed.Some? then [parsed.value] else [];
  }

  function Ipv4ToNumber(ip: string): nat {
    Reduce(Values(Split(ip, '.'), 10), 256)
  }

  function Zeros(n: nat): (r: seq<string>)
    ensures |r| == n && forall i :: 0 <= i < n ==> r[i] == "0"
  {
    seq(n, _ => "0")
  }

  function PartsOrNone(s: string): seq<string> {
    if s == "" then [] else Split(s, ':')
  }

  /** The parts that ipv6ToBigInt reduces: those before "::", zeros for the missing ones, those after it. */
  function Ipv6Parts(ip: string): seq<string> {
    var (head, tail) := HeadAndTail(ip);
    var headParts, tailParts := PartsOrNone(head), PartsOrNone(tail);
    var missing := 8 - |headParts| - |tailParts|;
    headParts + Zeros(if missing > 0 then missing else 0) + tailParts
  }

  /** ipv6ToBigInt; an empty part counts as 0. */
  function Ipv6ToNumber(ip: string): nat {
    Reduce(Values(Ipv6Parts(ip), 16), 0x1_0000)
  }

  // ------------------------------------------------------- positional values

  /** The group at distance k from the end counts base ^ k. */
  function Power(base: nat, n: nat): nat {
    if n == 0 then 1 else base * Power(base, n - 1)
  }

  function Positional(values: seq<nat>, base: nat): nat {
    if values == [] then 0 else values[0] * Power(base, |values| - 1) + Positional(values[1..], base)
  }

  lemma {:induction false} PositionalSnoc(values: seq<nat>, base: nat, last: nat)
    ensures Positional(values + [last], base) == Positional(values, base) * base + last
  {
    if values == [] {
      assert [last][1..] == [];
    } else {
      PositionalSnoc(values[1..], base, last);
      assert (values + [last])[1..] == values[1..] + [last];
      Scale(values[0], Power(base, |values| - 1), base);
    }
  }

  lemma Scale(v: nat, p: nat, base: nat)
    ensures v * (base * p) == (v * p) * base
  {
  }

  /** The reduction computes the positional value. */
  lemma {:induction false} ReduceIsPositional(values: seq<nat>, base: nat)
    ensures Reduce(values, base) == Positional(values, base)
  {
    if values != [] {
      var n := |values| - 1;
      ReduceIsPositional(values[..n], base);
      PositionalSnoc(values[..n], base, values[n]);
      assert values[..n] + [values[n]] == values;
    }
  }

  lemma FitsBelow(v: nat, rest: nat, p: nat, base: nat)
    requires v < base && rest < p
    ensures v * p + rest < base * p
  {
    assert p * (base - v) == base * p - v * p;
    MultipleGrows(p, base - v);
  }

  /** Groups below the base give a number below base ^ length, and different groups give different numbers. */
  lemma {:induction false} PositionalBounded(values: seq<nat>, base: nat)
    requires forall i :: 0 <= i < |values| ==> values[i] < base
    ensures Positional(values, base) < Power(base, |values|)
  {
    if values != [] {
      PositionalBounded(values[1..], base);
      FitsBelow(values[0], Positional(values[1..], base), Power(base, |values| - 1), base);
    }
  }

  lemma LeadingGroup(values: seq<nat>, base: nat)
    requires values != [] && Positional(values[1..], base) < Power(base, |values| - 1)
    ensures var p := Power(base, |values| - 1);
            Positional(values, base) / p == values[0] && Positional(values, base) % p == Positional(values[1..], base)
  {
    var p := Power(base, |values| - 1);
    EuclideanUnique(Positional(values, base), p, values[0], Positional(values[1..], base));
  }

  lemma {:induction false} PositionalInjective(a: seq<nat>, b: seq<nat>, base: nat)
    requires |a| == |b| && Positional(a, base) == Positional(b, base)
    requires forall i :: 0 <= i < |a| ==> a[i] < base && b[i] < base
    ensures a == b
  {
    if a != [] {
      PositionalBounded(a[1..], base);
      PositionalBounded(b[1..], base);
      LeadingGroup(a, base);
      LeadingGroup(b, base);
      PositionalInjective(a[1..], b[1..], base);
      assert a == [a[0]] + a[1..] && b == [b[0]] + b[1..];
    }
  }

  // ------------------------------------------------------------- spellings

  /** A group of an IPv6 address: one to four hexadecimal digits. */
  ghost predicate IsGroup(text: string) {
    1 <= |text| <= 4 && forall c :: c in text ==> IsDigit(c, 16)
  }

  /** A part of an IPv4 address: one to three decimal digits below 256. */
  ghost predicate IsPart(text: string) {
    1 <= |text| <= 3 && (forall c :: c in text ==> IsDigit(c, 10)) && Value(text, 10) < 256
  }

  ghost predicate NoDouble(s: string) {
    forall k :: 0 <= k && k + 1 < |s| ==> !(s[k] == ':' && s[k + 1] == ':')
  }

  /** Joined groups have no colon at either end and no two in a row. */
  ghost predicate WellJoined(s: string) {
    NoDouble(s) && (s != "" ==> s[0] != ':' && s[|s| - 1] != ':')
  }

  lemma {:induction false} JoinedGroups(parts: seq<string>)
    requires forall p :: p in parts ==> IsGroup(p)
    ensures WellJoined(Join(parts, ':')) && (Join(parts, ':') == "" <==> parts == [])
  {
    if |parts| >= 1 {
      assert IsGroup(parts[0]);
      forall k | 0 <= k < |parts[0]|
        ensures parts[0][k] != ':'
      {
        assert parts[0][k] in parts[0];
      }
    }
    if |parts| > 1 {
      JoinedGroups(parts[1..]);
    }
  }

  lemma DoubleAt(a: string, b: string)
    requires WellJoined(a) && WellJoined(b)
    ensures HeadAndTail(a + "::" + b) == (a, b)
    ensures HeadAndTail(a) == (a, "")
  {
    var s := a + "::" + b;
    assert s[|a|] == ':' && s[|a| + 1] == ':';
    forall j | 0 <= j < |a|
      ensures !(s[j] == ':' && s[j + 1] == ':')
    {
      assert s[j] == a[j];
      assert s[j + 1] == if j + 1 < |a| then a[j + 1] else ':';
    }
    assert FindDouble(s) == |a|;
    assert s[|a| + 2..] == b && s[..|a|] == a;
    assert FindDouble(b) == |b| && FindDouble(a) == |a|;
    assert b[..|b|] == b;
  }

  lemma SplitGroups(parts: seq<string>)
    requires forall p :: p in parts ==> IsGroup(p)
    ensures PartsOrNone(Join(parts, ':')) == parts
  {
    JoinedGroups(parts);
    if parts != [] {
      forall p | p in parts
        ensures ':' !in p
      {
        assert IsGroup(p);
      }
      SplitUndoesJoin(parts, ':');
    }
  }

  /** Eight groups separated by colons are read as their positional value. */
  lemma FullSpelling(texts: seq<string>)
    requires |texts| == 8 && forall p :: p in texts ==> IsGroup(p)
    ensures Ipv6ToNumber(Join(texts, ':')) == Positional(Values(texts, 16), 0x1_0000)
  {
    JoinedGroups(texts);
    JoinedGroups([]);
    DoubleAt(Join(texts, ':'), "");
    SplitGroups(texts);
    assert texts + Zeros(0) + [] == texts;
    ReduceIsPositional(Values(texts, 16), 0x1_0000);
  }

  /** Wherever "::" stands for groups of zeros, at either end or in between, the value is that of the eight groups. */
  lemma CompressedSpelling(texts: seq<string>, k: nat, n: nat)
    requires |texts| == 8 && forall p :: p in texts ==> IsGroup(p)
    requires 1 <= n && k + n <= 8 && forall i :: k <= i < k + n ==> Value(texts[i], 16) == 0
    ensures Ipv6ToNumber(Join(texts[..k], ':') + "::" + Join(texts[k + n..], ':')) == Positional(Values(texts, 16), 0x1_0000)
  {
    CompressedParts(texts[..k], texts[k + n..]);
    ZerosFill(texts, k, n);
    ReduceIsPositional(Values(texts, 16), 0x1_0000);
  }

  lemma CompressedParts(head: seq<string>, tail: seq<string>)
    requires |head| + |tail| < 8 && (forall p :: p in head ==> IsGroup(p)) && (forall p :: p in tail ==> IsGroup(p))
    ensures Ipv6Parts(Join(head, ':') + "::" + Join(tail, ':')) == head + Zeros(8 - |head| - |tail|) + tail
  {
    var a, b := Join(head, ':'), Join(tail, ':');
    JoinedGroups(head);
    JoinedGroups(tail);
    DoubleAt(a, b);
    SplitGroups(head);
    SplitGroups(tail);
    PartsAre(a + "::" + b, a, b, head, tail);
  }

  lemma PartsAre(ip: string, a: string, b: string, head: seq<string>, tail: seq<string>)
    requires HeadAndTail(ip) == (a, b) && PartsOrNone(a) == head && PartsOrNone(b) == tail && |head| + |tail| <= 8
    ensures Ipv6Parts(ip) == head + Zeros(8 - |head| - |tail|) + tail
  {
  }

  lemma ZerosFill(texts: seq<string>, k: nat, n: nat)
    requires k + n <= |texts| && forall i :: k <= i < k + n ==> Value(texts[i], 16) == 0
    ensures Values(texts[..k] + Zeros(n) + texts[k + n..], 16) == Values(texts, 16)
  {
    assert "0"[..0] == "";
    assert Value("0", 16) == 0;
  }

  lemma {:induction false} DigitsBounded(text: string, base: nat)
    requires base == 10 || base == 16
    requires forall c :: c in text ==> IsDigit(c, base)
    ensures Value(text, base) < Power(base, |text|)
  {
    if text != "" {
      var n := |text| - 1;
      DigitsBounded(text[..n], base);
      assert text[n] in text;
      assert Digit(text[n]) < base;
      FitsBelow2(Value(text[..n], base), Digit(text[n]), Power(base, n), base);
    }
  }

  lemma FitsBelow2(v: nat, digit: nat, p: nat, base: nat)
    requires v < p && digit < base
    ensures v * base + digit < base * p
  {
    assert base * (p - v) == base * p - v * base;
    MultipleGrows(base, p - v);
  }

  lemma GroupBounded(text: string)
    requires IsGroup(text)
    ensures Value(text, 16) < 0x1_0000
  {
    DigitsBounded(text, 16);
    assert Power(16, 1) == 16 && Power(16, 2) == 256 && Power(16, 3) == 4096 && Power(16, 4) == 0x1_0000;
  }

  /** An address text is below 2 ^ 128, and two lists of groups have the same value exactly if they agree group by group. */
  lemma GroupsMakeAddress(a: seq<string>, b: seq<string>)
    requires |a| == |b| == 8 && (forall p :: p in a ==> IsGroup(p)) && (forall p :: p in b ==> IsGroup(p))
    ensures ValidAddress(Address(V6, Ipv6ToNumber(Join(a, ':'))))
    ensures Ipv6ToNumber(Join(a, ':')) == Ipv6ToNumber(Join(b, ':')) <==> Values(a, 16) == Values(b, 16)
  {
    FullSpelling(a);
    FullSpelling(b);
    forall i | 0 <= i < 8
      ensures Values(a, 16)[i] < 0x1_0000 && Values(b, 16)[i] < 0x1_0000
    {
      GroupBounded(a[i]);
      GroupBounded(b[i]);
    }
    PositionalBounded(Values(a, 16), 0x1_0000);
    PowerOfGroups();
    if Ipv6ToNumber(Join(a, ':')) == Ipv6ToNumber(Join(b, ':')) {
      PositionalInjective(Values(a, 16), Values(b, 16), 0x1_0000);
    }
  }

  lemma {:induction false} PowerOfPow2(m: nat, n: nat)
    ensures Power(Pow2(m), n) == Pow2(m * n)
  {
    if n > 0 {
      PowerOfPow2(m, n - 1);
      Pow2Sum(m, m * (n - 1));
      assert m + m * (n - 1) == m * n;
    }
  }

  lemma PowerOfGroups()
    ensures Power(0x1_0000, 8) == Pow2(128)
    ensures Power(256, 4) == Pow2(32)
  {
    Pow2Sum(4, 4);
    Pow2Sum(8, 8);
    assert Pow2(4) == 16;
    PowerOfPow2(16, 8);
    PowerOfPow2(8, 4);
  }

  /** A dotted quad is below 2 ^ 32 and read as its positional value. */
  lemma DottedQuad(parts: seq<string>)
    requires |parts| == 4 && forall p :: p in parts ==> IsPart(p)
    ensures Ipv4ToNumber(Join(parts, '.')) == Positional(Values(parts, 10), 256)
    ensures ValidAddress(Address(V4, Ipv4ToNumber(Join(parts, '.'))))
  {
    forall p | p in parts
      ensures '.' !in p
    {
      assert IsPart(p);
    }
    SplitUndoesJoin(parts, '.');
    ReduceIsPositional(Values(parts, 10), 256);
    forall i | 0 <= i < 4
      ensures Values(parts, 10)[i] < 256
    {
      assert IsPart(parts[i]);
    }
    PositionalBounded(Values(parts, 10), 256);
    PowerOfGroups();
  }
}
