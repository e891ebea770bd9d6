/** wss/privite.go: is an address private? The code compares 16-byte addresses byte by
    byte with the ends of three ranges. */
module PrivateRange {
  import opened Data

  /** bytes.Compare */
  function Compare(a: seq<byte>, b: seq<byte>): (r: int)
    ensures -1 <= r <= 1
  {
    if a == [] then (if b == [] then 0 else -1)
    else if b == [] then 1
    else if a[0] < b[0] then -1
    else if a[0] > b[0] then 1
    else Compare(a[1..], b[1..])
  }

  function Pow(n: nat): (p: nat)
    ensures p >= 1
  {
    if n == 0 then 1 else 256 * Pow(n - 1)
  }

  /** The number an address is, most significant byte first. */
  function Num(a: seq<byte>): nat {
    if a == [] then 0 else a[0] * Pow(|a| - 1) + Num(a[1..])
  }

  lemma {:induction false} NumBound(a: seq<byte>)
    ensures Num(a) < Pow(|a|)
  {
    if a != [] {
      NumBound(a[1..]);
      Scale(a[0], 256, Pow(|a| - 1));
    }
  }

  lemma Scale(x: nat, y: nat, p: nat)
    requires x < y
    ensures x * p + p <= y * p
  {
    assert (y - x - 1) * p >= 0;
    assert y * p == (y - x - 1) * p + x * p + p;
  }

  /** Comparing addresses of one length byte by byte, of any length, is comparing the
      numbers they are. */
  lemma {:induction false} CompareIsNumeric(a: seq<byte>, b: seq<byte>)
    requires |a| == |b|
    ensures Compare(a, b) < 0 <==> Num(a) < Num(b)
    ensures Compare(a, b) == 0 <==> Num(a) == Num(b)
  {
    if a != [] {
      CompareIsNumeric(a[1..], b[1..]);
      NumBound(a[1..]);
      NumBound(b[1..]);
      if a[0] < b[0] { Scale(a[0], b[0], Pow(|a| - 1)); }
      if b[0] < a[0] { Scale(b[0], a[0], Pow(|a| - 1)); }
    }
  }

  lemma {:induction false} SamePrefix(p: seq<byte>, a: seq<byte>, b: seq<byte>)
    ensures Compare(p + a, p + b) == Compare(a, b)
  {
    if p == [] {
      assert p + a == a && p + b == b;
    } else {
      assert (p + a)[1..] == p[1..] + a && (p + b)[1..] == p[1..] + b;
      SamePrefix(p[1..], a, b);
    }
  }

  lemma Powers()
    ensures Pow(0) == 1 && Pow(1) == 256 && Pow(2) == 65536 && Pow(3) == 16777216
  {
  }

  lemma NumOfTwo(a: byte, b: byte)
    ensures Num([a, b]) == a * 256 + b
  {
    Powers();
    assert [a, b][1..] == [b] && [b][1..] == [];
    assert Num([b]) == b * Pow(0) + Num([]) == b;
  }

  lemma NumOfFour(a: byte, b: byte, c: byte, d: byte)
    ensures Num([a, b, c, d]) == ((a * 256 + b) * 256 + c) * 256 + d
  {
    assert [a, b, c, d][1..] == [b, c, d] && [b, c, d][1..] == [c, d];
    NumOfTwo(c, d);
    Powers();
    assert Num([b, c, d]) == b * Pow(2) + Num([c, d]);
    assert Num([a, b, c, d]) == a * Pow(3) + Num([b, c, d]);
  }

  /** The 16-byte form of an IPv4 address. */
  const PREFIX: seq<byte> := [0, 0, 0, 0, 0, 0, 0, 0, 0, 0, 255, 255]

  function V4(a: byte, b: byte, c: byte, d: byte): seq<byte> {
    PREFIX + [a, b, c, d]
  }

  predicate IsV4(ip: seq<byte>) {
    |ip| == 16 && ip[..12] == PREFIX
  }

  /** The IPv4-mapped addresses of section 2.5.5.2 of RFC 4291: as numbers of 128 bits,
      those whose upper 96 bits are 0xFFFF. */
  predicate Mapped(ip: seq<byte>)
    requires |ip| == 16
  {
    Num(ip[..12]) == 0xFFFF
  }

  /** The three prefixes of section 3 of RFC 1918, on the lower 32 bits: 10/8, 172.16/12
      and 192.168/16. */
  predicate Private(ip: seq<byte>)
    requires |ip| == 16
  {
    var v4 := Num(ip[12..]);
    Mapped(ip) && (v4 / 0x1000000 == 10 || v4 / 0x100000 == 0xAC1 || v4 / 0x10000 == 0xC0A8)
  }

  lemma {:induction false} CompareEqual(a: seq<byte>, b: seq<byte>)
    ensures Compare(a, b) == 0 <==> a == b
  {
    if a != [] && b != [] {
      CompareEqual(a[1..], b[1..]);
      assert a == [a[0]] + a[1..] && b == [b[0]] + b[1..];
    }
  }

  lemma {:induction false} LeadingZeros(a: seq<byte>, k: nat)
    requires k <= |a| && forall i :: 0 <= i < k ==> a[i] == 0
    ensures Num(a) == Num(a[k..])
  {
    if k > 0 {
      LeadingZeros(a[1..], k - 1);
      assert a[1..][k - 1..] == a[k..];
    } else {
      assert a[k..] == a;
    }
  }

  lemma NumOfPrefix()
    ensures Num(PREFIX) == 0xFFFF
  {
    LeadingZeros(PREFIX, 10);
    assert PREFIX[10..] == [255, 255];
    NumOfTwo(255, 255);
  }

  /** 127.0.0.1 */
  predicate Loopback(ip: seq<byte>)
    requires |ip| == 16
  {
    Mapped(ip) && Num(ip[12..]) == 0x7F000001
  }

  lemma LoopbackIff(ip: seq<byte>)
    requires |ip| == 16
    ensures ip == V4(127, 0, 0, 1) <==> Loopback(ip)
  {
    hide Num, Compare;
    MappedIff(ip);
    NumOfFour(127, 0, 0, 1);
    CompareIsNumeric(ip[12..], [127, 0, 0, 1]);
    CompareEqual(ip[12..], [127, 0, 0, 1]);
    assert ip == ip[..12] + ip[12..];
  }

  /** The test of the code, twelve bytes of prefix, is that. */
  lemma MappedIff(ip: seq<byte>)
    requires |ip| == 16
    ensures IsV4(ip) <==> Mapped(ip)
  {
    hide Num, Compare;
    NumOfPrefix();
    CompareIsNumeric(ip[..12], PREFIX);
    CompareEqual(ip[..12], PREFIX);
  }

  datatype Block = Block(low: seq<byte>, high: seq<byte>)

  const BLOCKS := [
    Block(V4(10, 0, 0, 0), V4(10, 255, 255, 255)),
    Block(V4(172, 16, 0, 0), V4(172, 31, 255, 255)),
    Block(V4(192, 168, 0, 0), V4(192, 168, 255, 255))
  ]

  predicate Inside(ip: seq<byte>, block: Block) {
    Compare(ip, block.low) >= 0 && Compare(ip, block.high) <= 0
  }

  /** A byte-wise test against two IPv4 ends is a test on 32-bit numbers. */
  lemma InsideIsNumeric(ip: seq<byte>, x: seq<byte>, y: seq<byte>)
    requires IsV4(ip) && |x| == |y| == 4
    ensures Inside(ip, Block(PREFIX + x, PREFIX + y)) <==> Num(x) <= Num(ip[12..]) <= Num(y)
  {
    assert ip == PREFIX + ip[12..];
    SamePrefix(PREFIX, ip[12..], x);
    SamePrefix(PREFIX, ip[12..], y);
    CompareIsNumeric(ip[12..], x);
    CompareIsNumeric(ip[12..], y);
  }

  lemma FirstBlock(ip: seq<byte>)
    requires IsV4(ip)
    ensures Inside(ip, BLOCKS[0]) <==> 0x0A000000 <= Num(ip[12..]) <= 0x0AFFFFFF
  {
    hide Num, Inside;
    NumOfFour(10, 0, 0, 0);
    NumOfFour(10, 255, 255, 255);
    InsideIsNumeric(ip, [10, 0, 0, 0], [10, 255, 255, 255]);
  }

  lemma SecondBlock(ip: seq<byte>)
    requires IsV4(ip)
    ensures Inside(ip, BLOCKS[1]) <==> 0xAC100000 <= Num(ip[12..]) <= 0xAC1FFFFF
  {
    hide Num, Inside;
    NumOfFour(172, 16, 0, 0);
    NumOfFour(172, 31, 255, 255);
    InsideIsNumeric(ip, [172, 16, 0, 0], [172, 31, 255, 255]);
  }

  lemma ThirdBlock(ip: seq<byte>)
    requires IsV4(ip)
    ensures Inside(ip, BLOCKS[2]) <==> 0xC0A80000 <= Num(ip[12..]) <= 0xC0A8FFFF
  {
    hide Num, Inside;
    NumOfFour(192, 168, 0, 0);
    NumOfFour(192, 168, 255, 255);
    InsideIsNumeric(ip, [192, 168, 0, 0], [192, 168, 255, 255]);
  }

  /** Each range is one prefix, and together they are the private addresses. */
  lemma BlocksArePrefixes(ip: seq<byte>)
    requires IsV4(ip)
    ensures Inside(ip, BLOCKS[0]) <==> Num(ip[12..]) / 0x1000000 == 10
    ensures Inside(ip, BLOCKS[1]) <==> Num(ip[12..]) / 0x100000 == 0xAC1
    ensures Inside(ip, BLOCKS[2]) <==> Num(ip[12..]) / 0x10000 == 0xC0A8
  {
    hide Num, Inside, IsV4;
    FirstBlock(ip);
    SecondBlock(ip);
    ThirdBlock(ip);
  }

  /** checkIpPrivite: `local` says that the text is 127.0.0.1, `trial` is what
      net.ParseIP makes of it. */
  method CheckIp(local: bool, trial: Option<seq<byte>>) returns (r: bool)
    requires trial.Some? ==> |trial.value| == 16
    ensures r <==> local || (trial.Some? && Private(trial.value))
  {
    hide Num, Inside, IsV4, Mapped;
    if local { return true; }
    if trial.Some? { MappedIff(trial.value); }
    if trial.None? || !IsV4(trial.value) { return false; }
    BlocksArePrefixes(trial.value);
    var k := 0;
    while k < |BLOCKS|
      invariant 0 <= k <= |BLOCKS| && forall i :: 0 <= i < k ==> !Inside(trial.value, BLOCKS[i])
    {
      if Inside(trial.value, BLOCKS[k]) {
        return true;
      }
      k := k + 1;
    }
    assert !Inside(trial.value, BLOCKS[0]) && !Inside(trial.value, BLOCKS[1]) && !Inside(trial.value, BLOCKS[2]);
    r := false;
  }

  /** checkAddrPrivite on the addresses a lookup gave, in their 16-byte form: printing
      an IPv4 address and parsing it back gives the same bytes. */
  method CheckAddr(ips: seq<seq<byte>>) returns (r: bool)
    requires forall ip <- ips :: |ip| == 16
    ensures r <==> exists i :: 0 <= i < |ips| && (Loopback(ips[i]) || Private(ips[i]))
  {
    hide Loopback, Private, V4;
    var k := 0;
    while k < |ips|
      invariant 0 <= k <= |ips|
      invariant forall i :: 0 <= i < k ==> !Loopback(ips[i]) && !Private(ips[i])
    {
      LoopbackIff(ips[k]);
      var found := CheckIp(ips[k] == V4(127, 0, 0, 1), Some(ips[k]));
      if found { return true; }
      k := k + 1;
    }
    r := false;
  }
}
