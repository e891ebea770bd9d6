/** wss/proxy_client_socks5.go: recognising a SOCKS5 client and decoding its request,
    against the encoding of sections 4 and 5 of RFC 1928. */
module Socks5 {
  import opened Data

  const SIZE := 1024

  /** DST.ADDR with its address type. */
  datatype Host = Ipv4(address: seq<byte>) | Domain(name: seq<byte>) | Ipv6(address: seq<byte>) | NoHost

  datatype Request = Request(host: Host, port: nat)

  datatype Parsed = Failed | NotSocks | Ok(request: Request)

  /** The first bytes that make the proxy speak SOCKS5. */
  predicate Trigger(data: seq<byte>) {
    |data| >= 2 && data[0] == 5
  }

  /** The proxy speaks SOCKS5 exactly to data that begins as a greeting of section 3 of
      RFC 1928: version 5, then a number of methods. */
  lemma TriggerIff(data: seq<byte>)
    ensures Trigger(data) <==> exists methods: byte, rest: seq<byte> :: data == [5, methods] + rest
  {
    if Trigger(data) {
      assert data == [5, data[1]] + data[2..];
    }
  }

  /** An address of the length its type asks for. */
  predicate Sized(h: Host) {
    match h
    case Ipv4(a) => |a| == 4
    case Ipv6(a) => |a| == 16
    case Domain(name) => |name| <= 255
    case NoHost => false
  }

  /** A destination a request can carry. */
  predicate Valid(r: Request) {
    r.port < 65536 && Sized(r.host)
  }

  /** ATYP and DST.ADDR, section 5 of RFC 1928. */
  function EncodeHost(h: Host): seq<byte>
    requires h.Domain? ==> |h.name| <= 255
  {
    match h
    case Ipv4(a) => [1] + a
    case Domain(name) => [3, |name|] + name
    case Ipv6(a) => [4] + a
    case NoHost => []
  }

  /** The request of section 4 of RFC 1928: VER, CMD, RSV, ATYP, DST.ADDR, DST.PORT. */
  function Encode(cmd: byte, r: Request): seq<byte>
    requires Valid(r)
  {
    [5, cmd, 0] + EncodeHost(r.host) + [r.port / 256, r.port % 256]
  }

  function Port(hi: byte, lo: byte): nat {
    hi * 256 + lo
  }

  /** The buffer after a read: the bytes, then zeros. */
  function Padded(data: seq<byte>): (buffer: seq<byte>)
    requires |data| <= SIZE
    ensures |buffer| == SIZE
  {
    data + seq(SIZE - |data|, _ => 0)
  }

  function HostOf(buffer: seq<byte>): Host
    requires |buffer| == SIZE
  {
    if buffer[3] == 1 then Ipv4(buffer[4..8])
    else if buffer[3] == 4 then Ipv6(buffer[4..20])
    else if buffer[3] == 3 then Domain(buffer[5..5 + buffer[4]])
    else NoHost
  }

  /** What ParseHeader makes of one read into a zeroed buffer: addresses are cut at
      fixed offsets, also beyond the bytes that were read; the port is the last two
      bytes of the read, wherever the address ended. */
  function Decoded(data: seq<byte>): Parsed
    requires |data| <= SIZE
  {
    if |data| < 6 then NotSocks
    else
      Ok(Request(HostOf(Padded(data)), Port(data[|data| - 2], data[|data| - 1])))
  }

  /** What a read says about the destination, by the encoding of RFC 1928: behind the
      header stands the encoding of the host, if the address type is known, and the last
      two bytes of the read are the port. */
  predicate Says(data: seq<byte>, req: Request)
    requires 6 <= |data| <= SIZE
  {
    && req.port < 65536 && data[|data| - 2..] == [req.port / 256, req.port % 256]
    && (if data[3] in {1, 3, 4} then Sized(req.host) && EncodeHost(req.host) <= Padded(data)[3..] else req.host.NoHost?)
  }

  /** Decoding is exact, for every read: fewer than six bytes are refused, anything else
      is decoded to the one destination it says. */
  lemma DecodedIff(data: seq<byte>, req: Request)
    requires |data| <= SIZE
    ensures Decoded(data) == NotSocks <==> |data| < 6
    ensures |data| >= 6 ==> (Decoded(data) == Ok(req) <==> Says(data, req))
  {
    if |data| >= 6 {
      var buffer, n := Padded(data), |data|;
      hide Padded;
      assert data[n - 2..] == [data[n - 2], data[n - 1]];
      if data[3] in {1, 3, 4} {
        HostEncoded(buffer);
        if Sized(req.host) && EncodeHost(req.host) <= buffer[3..] {
          PrefixFree(req.host, HostOf(buffer), buffer[3..]);
        }
      }
    }
  }

  lemma HostEncoded(buffer: seq<byte>)
    requires |buffer| == SIZE && buffer[3] in {1, 3, 4}
    ensures Sized(HostOf(buffer)) && EncodeHost(HostOf(buffer)) <= buffer[3..]
  {
    if buffer[3] == 1 {
      assert buffer[3..8] == [1] + buffer[4..8];
    } else if buffer[3] == 4 {
      assert buffer[3..20] == [4] + buffer[4..20];
    } else {
      assert buffer[3..5 + buffer[4]] == [3, buffer[4]] + buffer[5..5 + buffer[4]];
    }
  }

  /** No encoded host is the beginning of another. */
  lemma PrefixFree(a: Host, b: Host, w: seq<byte>)
    requires Sized(a) && Sized(b) && EncodeHost(a) <= w && EncodeHost(b) <= w
    ensures a == b
  {
    var x, y := EncodeHost(a), EncodeHost(b);
    assert x[0] == w[0] == y[0];
    assert a.Domain? ==> x[1] == w[1] == y[1];
    assert |x| == |y|;
    assert x == w[..|x|] == y;
    if a.Domain? {
      assert x[2..] == a.name && y[2..] == b.name;
    } else {
      assert x[1..] == a.address && y[1..] == b.address;
    }
  }

  /** io.ReadAtLeast from a slice of the buffer into a fresh slice. */
  method Cut(buffer: array<byte>, from: nat, n: nat) returns (part: array<byte>)
    requires from + n <= buffer.Length
    ensures fresh(part) && part[..] == buffer[from..from + n]
  {
    part := new byte[n](i requires 0 <= i < n reads buffer => buffer[from + i]);
  }

  /** ParseHeader: `greeted` says that the method selection could be written, `read` is
      what one conn.Read delivers, if it succeeds. */
  method ParseHeader(greeted: bool, read: Option<seq<byte>>) returns (r: Parsed)
    requires read.Some? ==> |read.value| <= SIZE
    ensures r == if !greeted || read.None? then Failed else Decoded(read.value)
  {
    if !greeted || read.None? { return Failed; }
    var data, n := read.value, |read.value|;
    var buffer := new byte[SIZE](_ => 0);
    forall i | 0 <= i < n {
      buffer[i] := data[i];
    }
    assert buffer[..] == Padded(data);
    if n < 6 { return NotSocks; }
    var host := NoHost;
    if buffer[3] == 1 {
      var ipv4 := Cut(buffer, 4, 4);
      host := Ipv4(ipv4[..]);
    } else if buffer[3] == 4 {
      var ipv6 := Cut(buffer, 4, 16);
      host := Ipv6(ipv6[..]);
    } else if buffer[3] == 3 {
      var domain := Cut(buffer, 5, buffer[4]);
      host := Domain(domain[..]);
    }
    var port := Cut(buffer, n - 2, 2);
    assert port[..] == buffer[n - 2..n] == data[n - 2..n];
    r := Ok(Request(host, Port(port[0], port[1])));
  }

  lemma PortParts(port: nat)
    requires port < 65536
    ensures 0 <= port / 256 < 256 && Port(port / 256, port % 256) == port
  {
  }

  /** Bytes behind a port that leave the same two bytes at the end. */
  predicate EndsAgain(extra: seq<byte>, hi: byte, lo: byte) {
    || extra == []
    || (|extra| == 1 && hi == lo == extra[0])
    || (|extra| >= 2 && extra[|extra| - 2..] == [hi, lo])
  }

  lemma PortAgain(enc: seq<byte>, extra: seq<byte>, port: nat)
    requires port < 65536 && |enc| >= 2 && enc[|enc| - 2] == port / 256 && enc[|enc| - 1] == port % 256
    ensures var data := enc + extra;
      Port(data[|data| - 2], data[|data| - 1]) == port <==> EndsAgain(extra, port / 256, port % 256)
  {
    var data := enc + extra;
    if |extra| >= 2 {
      assert extra[|extra| - 2..] == [extra[|extra| - 2], extra[|extra| - 1]];
    }
  }

  /** Decoding what a read delivered when the client sent a request and `extra` more
      bytes: the host is always the one sent; the port is right if and only if the extra
      bytes, read behind the port, end with the port again. */
  lemma DecodeWithExtra(cmd: byte, req: Request, extra: seq<byte>)
    requires Valid(req)
    requires |Encode(cmd, req) + extra| <= SIZE
    ensures var data := Encode(cmd, req) + extra;
      && Decoded(data).Ok?
      && Decoded(data).request.host == req.host
      && (Decoded(data).request.port == req.port <==> EndsAgain(extra, req.port / 256, req.port % 256))
  {
    var enc := Encode(cmd, req);
    var data := enc + extra;
    PortParts(req.port);
    PortAgain(enc, extra, req.port);
    HostInPlace(cmd, req, extra);
    HostEncoded(Padded(data));
    PrefixFree(req.host, HostOf(Padded(data)), Padded(data)[3..]);
  }

  lemma HostInPlace(cmd: byte, req: Request, extra: seq<byte>)
    requires Valid(req) && |Encode(cmd, req) + extra| <= SIZE
    ensures var data := Encode(cmd, req) + extra;
      |data| >= 6 && Padded(data)[3] in {1, 3, 4} && EncodeHost(req.host) <= Padded(data)[3..]
  {
    var h := EncodeHost(req.host);
    var data := Encode(cmd, req) + extra;
    assert data == [5, cmd, 0] + h + ([req.port / 256, req.port % 256] + extra);
    assert data[3..3 + |h|] == h;
    assert Padded(data)[3..3 + |h|] == h;
    assert h[0] == Padded(data)[3];
  }

  /** Round trip: one request in one read comes back as it was sent, and the port that
      is counted from the end is the one after the address. */
  lemma RoundTrip(cmd: byte, req: Request)
    requires Valid(req)
    ensures |Encode(cmd, req)| <= SIZE && Decoded(Encode(cmd, req)) == Ok(req)
    ensures |Encode(cmd, req)| - 2 == 3 + |EncodeHost(req.host)|
    ensures Trigger(Encode(cmd, req))
  {
    var data := Encode(cmd, req);
    assert data + [] == data;
    DecodeWithExtra(cmd, req, []);
  }
}
