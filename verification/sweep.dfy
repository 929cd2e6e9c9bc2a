/**
  core/discovery/addrs.go: prefix arithmetic. An address is its family and its number; the broadcast
  address is computed byte by byte and bit by bit as the original does, and the sweep walks the
  prefix one address after the other.
*/
module Sweep {
  import opened Wrappers

  function Pow2(n: nat): (r: nat)
    ensures r > 0
  {
    if n == 0 then 1 else 2 * Pow2(n - 1)
  }

  // ---- numbers in binary ----

  /** Without its n lowest bits. */
  function Drop(v: nat, n: nat): nat {
    if n == 0 then v else Drop(v / 2, n - 1)
  }

  /** With its n lowest bits clear, and with all of them set. */
  function ClearLow(v: nat, n: nat): nat {
    if n == 0 then v else 2 * ClearLow(v / 2, n - 1)
  }

  function FillLow(v: nat, n: nat): nat {
    if n == 0 then v else 2 * FillLow(v / 2, n - 1) + 1
  }

  /** v with bit k set, whether it was or not. */
  function SetBit(v: nat, k: nat): nat {
    if k == 0 then v - v % 2 + 1 else 2 * SetBit(v / 2, k - 1) + v % 2
  }

  /** The lower bits all ones are the lower bits all zero and the largest number they can hold. */
  lemma {:induction false} FillIsClearPlus(v: nat, n: nat)
    ensures FillLow(v, n) == ClearLow(v, n) + Pow2(n) - 1 && FillLow(ClearLow(v, n), n) == FillLow(v, n)
    ensures ClearLow(v, n) <= v <= FillLow(v, n)
  {
    if n > 0 {
      FillIsClearPlus(v / 2, n - 1);
    }
  }

  lemma {:induction false} FillFits(v: nat, n: nat, width: nat)
    requires v < Pow2(width) && n <= width
    ensures FillLow(v, n) < Pow2(width)
  {
    if n > 0 {
      FillFits(v / 2, n - 1, width - 1);
    }
  }

  /** Numbers that agree above bit n are those between the two. */
  lemma {:induction false} SameAbove(v: nat, w: nat, n: nat)
    ensures Drop(v, n) == Drop(w, n) <==> ClearLow(v, n) <= w <= FillLow(v, n)
  {
    if n > 0 {
      SameAbove(v / 2, w / 2, n - 1);
    }
  }

  /** One bit after the other. */
  lemma {:induction false} FillBitByBit(v: nat, n: nat)
    ensures SetBit(FillLow(v, n), n) == FillLow(v, n + 1)
  {
    if n > 0 {
      FillBitByBit(v / 2, n - 1);
    }
  }

  lemma {:induction false} SetBitFits(b: nat, k: nat, n: nat)
    requires b < Pow2(n) && k < n
    ensures SetBit(b, k) < Pow2(n)
  {
    if k > 0 {
      SetBitFits(b / 2, k - 1, n - 1);
    }
  }

  lemma {:induction false} PowersGrow(a: nat, b: nat)
    requires a <= b
    ensures Pow2(a) <= Pow2(b)
  {
    if a < b {
      PowersGrow(a, b - 1);
    }
  }

  lemma SmallPowers()
    ensures Pow2(2) == 4 && Pow2(8) == 256 && Pow2(12) == 4096 && Pow2(13) == 8192
  {
    assert Pow2(2) == 4 && Pow2(4) == 16 && Pow2(6) == 64 && Pow2(8) == 256 && Pow2(10) == 1024 && Pow2(12) == 4096;
  }

  // ---- four bytes ----

  /** n bits written under w. */
  function Under(w: nat, b: nat, n: nat): nat {
    if n == 0 then w else 2 * Under(w, b / 2, n - 1) + b % 2
  }

  lemma {:induction false} UnderIsShifted(w: nat, b: nat, n: nat)
    requires b < Pow2(n)
    ensures Under(w, b, n) == w * Pow2(n) + b
  {
    if n > 0 {
      UnderIsShifted(w, b / 2, n - 1);
      assert w * (2 * Pow2(n - 1)) == 2 * (w * Pow2(n - 1));
    }
  }

  lemma TwoParts(v: nat, b: nat)
    ensures (2 * v + b % 2) / 2 == v && (2 * v + b % 2) % 2 == b % 2
  {
  }

  /** A bit set in the lower part, or in the upper part. */
  lemma {:induction false} SetBitUnder(w: nat, b: nat, n: nat, k: nat)
    ensures SetBit(Under(w, b, n), k) == if k < n then Under(w, SetBit(b, k), n) else Under(SetBit(w, k - n), b, n)
  {
    if n > 0 {
      TwoParts(Under(w, b / 2, n - 1), b);
      if k > 0 {
        SetBitUnder(w, b / 2, n - 1, k - 1);
        TwoParts(SetBit(b / 2, k - 1), b);
        assert SetBit(Under(w, b, n), k) == 2 * SetBit(Under(w, b / 2, n - 1), k - 1) + b % 2;
        assert SetBit(b, k) == 2 * SetBit(b / 2, k - 1) + b % 2;
      } else {
        assert SetBit(b, 0) == b - b % 2 + 1;
        assert SetBit(b, 0) / 2 == b / 2 && SetBit(b, 0) % 2 == 1;
      }
    }
  }

  /** A byte under a number, and a bit set in one or the other. */
  lemma SetBitInByte(w: nat, b: nat, k: nat)
    requires b < 256
    ensures SetBit(256 * w + b, k) == if k < 8 then 256 * w + SetBit(b, k) else 256 * SetBit(w, k - 8) + b
    ensures k < 8 ==> SetBit(b, k) < 256
  {
    hide Under, SetBit;
    SmallPowers();
    UnderIsShifted(w, b, 8);
    SetBitUnder(w, b, 8, k);
    if k < 8 {
      SetBitFits(b, k, 8);
      UnderIsShifted(w, SetBit(b, k), 8);
    } else {
      UnderIsShifted(SetBit(w, k - 8), b, 8);
    }
  }

  predicate FourBytes(b: seq<nat>) { |b| == 4 && b[0] < 256 && b[1] < 256 && b[2] < 256 && b[3] < 256 }

  /** The number four bytes spell, the first one foremost. */
  function From4(b: seq<nat>): nat
    requires FourBytes(b)
  {
    256 * (256 * (256 * b[0] + b[1]) + b[2]) + b[3]
  }

  function Bytes4(v: nat): (b: seq<nat>)
    requires v < 0x1_0000_0000
    ensures FourBytes(b) && From4(b) == v
  {
    var (w, x) := (v / 256, v / 256 / 256);
    [x / 256, x % 256, w % 256, v % 256]
  }

  /** `base[3-i/8] |= 1 << (i%8)` sets bit i of the number the bytes spell. */
  lemma ByteBitIsNumberBit(b: seq<nat>, i: nat)
    requires FourBytes(b) && i < 32
    ensures var c := b[3 - i / 8 := SetBit(b[3 - i / 8], i % 8)];
      FourBytes(c) && From4(c) == SetBit(From4(b), i)
  {
    hide SetBit;
    SetBitInByte(b[0], b[1], if i < 16 then 0 else i - 16);
    SetBitInByte(256 * b[0] + b[1], b[2], if i < 8 then 0 else i - 8);
    SetBitInByte(256 * (256 * b[0] + b[1]) + b[2], b[3], i);
    SetBitInByte(0, b[3 - i / 8], i % 8);
  }

  // ---- addresses ----

  datatype Family = V4 | V6

  function Width(f: Family): nat { if f == V4 then 32 else 128 }

  datatype Addr = Addr(family: Family, value: nat)

  predicate Valid(a: Addr) { a.value < Pow2(Width(a.family)) }

  datatype Prefix = Prefix(addr: Addr, bits: nat)

  predicate ValidPrefix(p: Prefix) { Valid(p.addr) && p.bits <= Width(p.addr.family) }

  function HostBits(p: Prefix): nat
    requires ValidPrefix(p)
  {
    Width(p.addr.family) - p.bits
  }

  /** The first address of the prefix: `Masked`. */
  function Network(p: Prefix): Addr
    requires ValidPrefix(p)
  {
    Addr(p.addr.family, ClearLow(p.addr.value, HostBits(p)))
  }

  predicate Contains(p: Prefix, a: Addr)
    requires ValidPrefix(p)
  {
    a.family == p.addr.family && Drop(a.value, HostBits(p)) == Drop(p.addr.value, HostBits(p))
  }

  /** `Next`: there is none after the last address there is. */
  function Next(a: Addr): Option<Addr> {
    if a.value + 1 < Pow2(Width(a.family)) then Some(Addr(a.family, a.value + 1)) else None
  }

  /** A prefix holds exactly the addresses from its network number on, as many as its host field counts. */
  lemma ContainsIsARange(p: Prefix, a: Addr)
    requires ValidPrefix(p) && a.family == p.addr.family
    ensures Contains(p, a) <==> Network(p).value <= a.value < Network(p).value + Pow2(HostBits(p))
    ensures Network(p).value + Pow2(HostBits(p)) <= Pow2(Width(p.addr.family))
  {
    hide Drop, ClearLow, FillLow, Pow2;
    SameAbove(p.addr.value, a.value, HostBits(p));
    FillIsClearPlus(p.addr.value, HostBits(p));
    FillFits(p.addr.value, HostBits(p), Width(p.addr.family));
  }

  /**
    `broadcastOf`. Set bit by bit, the host field comes out all ones: the network number plus its
    size, less one (section 7 of RFC 919).
  */
  method BroadcastOf(p: Prefix) returns (r: Option<Addr>)
    requires ValidPrefix(p)
    ensures r.Some? <==> p.addr.family == V4 && p.bits < 31
    ensures r.Some? ==> r.value == Addr(V4, Network(p).value + Pow2(HostBits(p)) - 1)
  {
    hide SetBit, FillLow, ClearLow, Pow2, From4, Drop;
    if p.addr.family != V4 || p.bits >= 31 {
      return None;
    }
    var network := Network(p).value;
    FillIsClearPlus(p.addr.value, HostBits(p));
    NoBitsFilled(network);
    ContainsIsARange(p, p.addr);
    IPv4Fits();
    var bytes := Bytes4(network);
    var base := new nat[4](i requires 0 <= i < 4 => bytes[i]);
    assert base[..] == bytes;
    var i := 0;
    while i < HostBits(p)
      invariant 0 <= i <= HostBits(p) && FourBytes(base[..]) && From4(base[..]) == FillLow(network, i)
    {
      FillBitByBit(network, i);
      ByteBitIsNumberBit(base[..], i);
      ghost var before := base[..];
      base[3 - i / 8] := SetBit(base[3 - i / 8], i % 8);
      assert base[..] == before[3 - i / 8 := SetBit(before[3 - i / 8], i % 8)];
      i := i + 1;
    }
    r := Some(Addr(V4, From4(base[..])));
  }

  lemma NoBitsFilled(v: nat)
    ensures FillLow(v, 0) == v
  {
  }

  lemma IPv4Fits()
    ensures Pow2(32) == 0x1_0000_0000
  {
    assert Pow2(8) == 256 && Pow2(16) == 0x1_0000 && Pow2(24) == 0x100_0000;
  }

  // ---- the sweep ----

  datatype SweepError = InvalidPrefix | TooManyHosts

  /** `maxSweepHosts`. */
  const MAX_HOSTS := 4096

  function Numbered(f: Family, first: nat, n: nat): seq<Addr> {
    seq(n, i requires 0 <= i < n => Addr(f, first + i))
  }

  predicate TooMany(hostBits: nat) { hostBits > 20 || Pow2(hostBits) > MAX_HOSTS + 2 }

  predicate SkipsEdges(p: Prefix) { p.addr.family == V4 && p.bits < 31 }

  /** What a sweep of this prefix probes. */
  function Hosts(p: Prefix): seq<Addr>
    requires ValidPrefix(p)
  {
    var first, size := Network(p).value, Pow2(HostBits(p));
    assert SkipsEdges(p) ==> size >= 4 by {
      if SkipsEdges(p) {
        EdgesLeaveSomething(p);
      }
    }
    if SkipsEdges(p) then Numbered(V4, first + 1, size - 2) else Numbered(p.addr.family, first, size)
  }

  lemma EdgesLeaveSomething(p: Prefix)
    requires ValidPrefix(p) && SkipsEdges(p)
    ensures Pow2(HostBits(p)) >= 4
  {
    PowersGrow(2, HostBits(p));
    SmallPowers();
  }

  /**
    `SweepHosts`: the walk ends, and has met the prefix's addresses in increasing order and without
    repeats, less the two edges of an IPv4 prefix shorter than 31 bits. It stops of itself where
    there is no next address at all.
  */
  method SweepHosts(prefix: Option<Prefix>) returns (r: Result<seq<Addr>, SweepError>)
    requires prefix.Some? ==> ValidPrefix(prefix.value)
    ensures match prefix
      case None => r == Err(InvalidPrefix)
      case Some(p) => r == if TooMany(HostBits(p)) then Err(TooManyHosts) else Ok(Hosts(p))
  {
    hide Pow2, ClearLow, Drop;
    if prefix.None? {
      return Err(InvalidPrefix);
    }
    var p := prefix.value;
    if TooMany(HostBits(p)) {
      return Err(TooManyHosts);
    }
    var skip := SkipsEdges(p);
    var first := Network(p);
    ghost var size := Pow2(HostBits(p));
    var broadcast := BroadcastOf(p);
    if skip {
      EdgesLeaveSomething(p);
    }
    ContainsIsARange(p, first);
    var out: seq<Addr> := [];
    var addr := Some(first);
    ghost var n := 0;
    while addr.Some? && Contains(p, addr.value)
      invariant 0 <= n <= size && first.value + size <= Pow2(Width(first.family))
      invariant addr.Some? ==> addr.value == Addr(first.family, first.value + n)
      invariant addr.None? ==> n == size
      invariant out == if !skip then Numbered(first.family, first.value, n)
        else if n == 0 then [] else Numbered(V4, first.value + 1, if n == size then n - 2 else n - 1)
      decreases size - n
    {
      ContainsIsARange(p, addr.value);
      if !(skip && (addr.value == first || Some(addr.value) == broadcast)) {
        out := out + [addr.value];
      }
      addr := Next(addr.value);
      n := n + 1;
    }
    if addr.Some? {
      ContainsIsARange(p, addr.value);
    }
    return Ok(out);
  }

  predicate AtAnEdge(p: Prefix, a: Addr)
    requires ValidPrefix(p)
  {
    a.value == Network(p).value || a.value == Network(p).value + Pow2(HostBits(p)) - 1
  }

  /**
    What the list holds, said of the addresses: those of the prefix that are not its edges, each
    larger than the one before, and never more than the limit.
  */
  lemma HostsExactly(p: Prefix, a: Addr)
    requires ValidPrefix(p) && !TooMany(HostBits(p))
    ensures var hosts := Hosts(p);
      && |hosts| <= MAX_HOSTS
      && (forall i, j | 0 <= i < j < |hosts| :: hosts[i].value < hosts[j].value)
      && (a in hosts <==> Contains(p, a) && !(SkipsEdges(p) && AtAnEdge(p, a)))
  {
    var first, size := Network(p).value, Pow2(HostBits(p));
    SmallPowers();
    if HostBits(p) >= 13 {
      PowersGrow(13, HostBits(p));
    } else {
      PowersGrow(HostBits(p), 12);
    }
    if SkipsEdges(p) {
      EdgesLeaveSomething(p);
    }
    if a.family == p.addr.family {
      ContainsIsARange(p, a);
      var hosts := Hosts(p);
      var start := if SkipsEdges(p) then first + 1 else first;
      if start <= a.value < start + |hosts| {
        assert hosts[a.value - start] == a;
      }
    }
  }
}
