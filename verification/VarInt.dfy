/**
 * Variable-length integers and the Java edition status handshake (src/minecraft.rs). Bytes and shifts as arithmetic.
 */
module VarInt {
  import opened Bytes
  import opened Options

  const TWO31: int := 0x8000_0000

  datatype Error = Negative | TooLong | EndOfStream
  datatype Result<+T> = Ok(value: T) | Err(error: Error)

  /** An unsigned 32-bit word read as an `i32`. */
  function ToI32(n: nat): int
    requires n < TWO32
  {
    if n < TWO31 then n else n - TWO32
  }

  /** The value of groups of seven bits, least significant first. */
  function Groups(s: seq<byte>): nat {
    if s == [] then 0 else s[0] % 128 + 128 * Groups(s[1..])
  }

  /** The groups' low 32 bits. */
  function Word(s: seq<byte>): nat {
    Groups(s) % TWO32
  }

  function VarInt(v: nat): (s: seq<byte>)
    ensures |s| >= 1
  {
    if v < 128 then [v] else [v % 128 + 128] + VarInt(v / 128)
  }

  /** How many bytes at the start announce another one. */
  function Continuations(s: seq<byte>): (k: nat)
    ensures k <= |s|
    ensures forall i :: 0 <= i < k ==> s[i] >= 128
    ensures k < |s| ==> s[k] < 128
  {
    if s == [] || s[0] < 128 then 0 else 1 + Continuations(s[1..])
  }

  /** What reading a VarInt from a stream gives, and how many bytes it takes. */
  function Reading(s: seq<byte>): (r: (Result<int>, nat))
    ensures r.1 <= 5 && r.1 <= |s|
  {
    var k := Continuations(s);
    if k >= 5 then (Err(TooLong), 5)
    else if k == |s| then (Err(EndOfStream), k)
    else (Ok(ToI32(Word(s[..k + 1]))), k + 1)
  }

  // The writer

  method WriteVarint(buffer: seq<byte>, value: int) returns (r: Result<seq<byte>>)
    requires -TWO31 <= value < TWO31
    ensures r == if value < 0 then Err(Negative) else Ok(buffer + VarInt(value))
  {
    if value < 0 {
      return Err(Negative);
    }
    var v: nat := value;
    var out := buffer;
    while true
      invariant out + VarInt(v) == buffer + VarInt(value)
      decreases v
    {
      if v / 128 == 0 {
        return Ok(out + [v]);
      }
      assert out + VarInt(v) == out + [v % 128 + 128] + VarInt(v / 128);
      out := out + [v % 128 + 128];
      v := v / 128;
    }
  }

  // The reader

  lemma {:induction false} GroupsSnoc(s: seq<byte>, b: byte)
    ensures Groups(s + [b]) == Groups(s) + (b % 128) * Pow(128, |s|)
  {
    if s == [] {
      assert s + [b] == [b];
      assert [b][1..] == [];
    } else {
      GroupsSnoc(s[1..], b);
      assert (s + [b])[1..] == s[1..] + [b];
      MulPow(b % 128, |s|);
    }
  }

  lemma MulPow(x: nat, e: nat)
    requires e > 0
    ensures x * Pow(128, e) == 128 * (x * Pow(128, e - 1))
  {
  }

  lemma {:induction false} GroupsBound(s: seq<byte>)
    ensures Groups(s) < Pow(128, |s|)
  {
    if s != [] {
      GroupsBound(s[1..]);
    }
  }

  lemma SmallPowers()
    ensures Pow(128, 0) == 1 == Pow(2, 0) && Pow(128, 1) == 128 == Pow(2, 7) && Pow(128, 2) == 0x4000 == Pow(2, 14)
    ensures Pow(128, 3) == 0x20_0000 == Pow(2, 21) && Pow(128, 4) == 0x1000_0000 == Pow(2, 28)
    ensures Pow(128, 5) == 0x8_0000_0000
  {
    assert Pow(128, 2) == 128 * Pow(128, 1);
    assert Pow(128, 3) == 128 * Pow(128, 2);
    assert Pow(128, 4) == 128 * Pow(128, 3);
    assert Pow(128, 5) == 128 * Pow(128, 4);
    assert Pow(2, 3) == 8 && Pow(2, 7) == 16 * Pow(2, 3);
    assert Pow(2, 10) == 8 * Pow(2, 7) && Pow(2, 14) == 16 * Pow(2, 10);
    assert Pow(2, 17) == 8 * Pow(2, 14) && Pow(2, 21) == 16 * Pow(2, 17);
    assert Pow(2, 24) == 8 * Pow(2, 21) && Pow(2, 28) == 16 * Pow(2, 24);
  }

  /** `i32::from(x) << position`: bits shifted out of the word are lost. */
  function Shl32(x: nat, position: nat): nat {
    x * Pow(2, position) % TWO32
  }

  /** One round of the reader on the byte after `s`: the or-ed bits are disjoint, so `|` is addition. */
  lemma Round(s: seq<byte>, b: byte)
    requires |s| < 5
    ensures Groups(s) + Shl32(b % 128, 7 * |s|) == Groups(s + [b]) % TWO32
  {
    GroupsSnoc(s, b);
    GroupsBound(s);
    SmallPowers();
    hide Groups, Pow, Continuations;
    if |s| == 0 {
      FitsBelow(Groups(s), b % 128, 1);
    } else if |s| == 1 {
      FitsBelow(Groups(s), b % 128, 128);
    } else if |s| == 2 {
      FitsBelow(Groups(s), b % 128, 0x4000);
    } else if |s| == 3 {
      FitsBelow(Groups(s), b % 128, 0x20_0000);
    } else {
      TopGroup(Groups(s), b % 128);
    }
  }

  lemma FitsBelow(g: nat, x: nat, p: nat)
    requires g < p <= 0x20_0000 && x < 128
    ensures g + x * p % TWO32 == (g + x * p) % TWO32
  {
    assert x * p <= 127 * p;
  }

  lemma LowWord(q: nat, low: nat)
    requires low < TWO32
    ensures (q * 0x1_0000_0000 + low) % TWO32 == low
  {
  }

  lemma TopGroup(g: nat, x: nat)
    requires g < 0x1000_0000
    ensures g + x * 0x1000_0000 % TWO32 == (g + x * 0x1000_0000) % TWO32
  {
    var q, r := x / 16, x % 16;
    assert x * 0x1000_0000 == q * 0x1_0000_0000 + r * 0x1000_0000;
    assert r * 0x1000_0000 <= 15 * 0x1000_0000;
    LowWord(q, r * 0x1000_0000);
    LowWord(q, g + r * 0x1000_0000);
  }

  lemma ShortGroups(s: seq<byte>)
    requires |s| < 5
    ensures Groups(s) < TWO32
  {
    GroupsBound(s);
    SmallPowers();
  }

  lemma RoundAt(stream: seq<byte>, n: nat)
    requires n < |stream| && n < 5
    ensures Word(stream[..n]) + Shl32(stream[n] % 128, 7 * n) == Word(stream[..n + 1])
  {
    assert stream[..n + 1] == stream[..n] + [stream[n]];
    Round(stream[..n], stream[n]);
    ShortGroups(stream[..n]);
    hide Groups, Shl32;
  }

  lemma ReadingEnds(s: seq<byte>, k: nat)
    requires Continuations(s) == k < 5 && k < |s|
    ensures Reading(s) == (Ok(ToI32(Word(s[..k + 1]))), k + 1)
  {
    hide Word, Continuations, ToI32;
  }

  lemma ReadingFails(s: seq<byte>)
    ensures Continuations(s) >= 5 ==> Reading(s) == (Err(TooLong), 5)
    ensures Continuations(s) == |s| < 5 ==> Reading(s) == (Err(EndOfStream), |s|)
  {
    hide Word, Continuations, ToI32;
  }

  /** The first `n` bytes all announce another one. */
  predicate GoesOn(s: seq<byte>, n: nat)
    requires n <= |s|
  {
    forall i :: 0 <= i < n ==> s[i] >= 128
  }

  /**
   * What a reader may return on these bytes: an error after five bytes that all announce another one, the stream's
   * error if it ends before that, and otherwise the value of the bytes up to the first that announces none.
   */
  predicate ReadsExactly(s: seq<byte>, r: Result<int>, taken: nat) {
    && (r == Err(TooLong) <==> |s| >= 5 && GoesOn(s, 5))
    && (r == Err(EndOfStream) <==> |s| < 5 && GoesOn(s, |s|))
    && r != Err(Negative)
    && (r.Err? ==> taken == if |s| < 5 then |s| else 5)
    && (r.Ok? ==>
          && 1 <= taken <= 5 && taken <= |s| && GoesOn(s, taken - 1) && s[taken - 1] < 128
          && r.value == ToI32(Groups(s[..taken]) % TWO32))
  }

  lemma ReadingIsExact(s: seq<byte>)
    ensures ReadsExactly(s, Reading(s).0, Reading(s).1)
  {
    var k := Continuations(s);
    assert forall i :: 0 <= i < k ==> s[i] >= 128;
    hide Groups, ToI32;
  }

  method ReadVarint(stream: seq<byte>) returns (r: Result<int>, taken: nat)
    ensures (r, taken) == Reading(stream)
    ensures ReadsExactly(stream, r, taken)
  {
    ReadingIsExact(stream);
    hide ReadsExactly;
    var value: nat := 0;
    var position := 0;
    taken := 0;
    assert Word(stream[..0]) == 0;
    hide Word, Continuations, Shl32, Reading, ToI32;
    while true
      invariant position == 7 * taken && taken <= 5 && taken <= |stream|
      invariant taken <= Continuations(stream)
      invariant value == Word(stream[..taken])
      decreases 5 - taken
    {
      ReadingFails(stream);
      if position >= 35 {
        return Err(TooLong), taken;
      }
      if taken == |stream| {
        return Err(EndOfStream), taken;
      }
      var b := stream[taken];
      RoundAt(stream, taken);
      value := value + Shl32(b % 128, position);
      taken := taken + 1;
      if b < 128 {
        ReadingEnds(stream, taken - 1);
        return Ok(ToI32(value)), taken;
      }
      position := position + 7;
    }
  }

  // Round trip

  /** Byte `i` holds the `i`-th group of seven bits from the low end, and all bytes but the last announce another. */
  lemma {:induction false} VarIntBytes(v: nat, i: nat)
    requires i < |VarInt(v)|
    ensures Pow(128, i) > 0 && VarInt(v)[i] % 128 == v / Pow(128, i) % 128
    ensures VarInt(v)[i] >= 128 <==> i < |VarInt(v)| - 1
  {
    PowPositive(128, i);
    if v >= 128 && i > 0 {
      VarIntBytes(v / 128, i - 1);
      PowPositive(128, i - 1);
      DivDiv(v, 128, Pow(128, i - 1));
    }
  }

  lemma {:induction false} VarIntShape(v: nat, suffix: seq<byte>)
    ensures Continuations(VarInt(v) + suffix) == |VarInt(v)| - 1
    ensures Groups(VarInt(v)) == v
  {
    if v < 128 {
      Prepended(v, [], suffix);
    } else {
      VarIntShape(v / 128, suffix);
      Prepended(v % 128 + 128, VarInt(v / 128), suffix);
    }
  }

  lemma Prepended(b: byte, s: seq<byte>, suffix: seq<byte>)
    ensures Continuations([b] + s + suffix) == if b < 128 then 0 else 1 + Continuations(s + suffix)
    ensures Groups([b] + s) == b % 128 + 128 * Groups(s)
  {
    assert ([b] + s)[1..] == s;
    assert ([b] + s + suffix)[1..] == s + suffix;
  }

  /** A value of `k` groups takes exactly `k` bytes, and no byte string the reader takes for it is shorter. */
  lemma {:induction false} VarIntIsMinimal(v: nat, s: seq<byte>)
    requires s != [] && Groups(s) == v
    ensures |VarInt(v)| <= |s|
    ensures v < Pow(128, |VarInt(v)|) && (v >= 128 ==> Pow(128, |VarInt(v)| - 1) <= v)
  {
    if v >= 128 {
      assert s[1..] != [];
      VarIntIsMinimal(v / 128, s[1..]);
      if v / 128 < 128 {
        assert Pow(128, 1) == 128;
      }
    }
  }

  lemma AtMostFive(v: nat)
    requires v < Pow(128, 5)
    ensures |VarInt(v)| <= 5
  {
    if |VarInt(v)| > 5 {
      VarIntShape(v, []);
      VarIntIsMinimal(v, VarInt(v));
      PowMonotone(5, |VarInt(v)| - 1);
    }
  }

  lemma {:induction false} PowMonotone(a: nat, b: nat)
    requires a <= b
    ensures Pow(128, a) <= Pow(128, b)
  {
    if a < b {
      PowMonotone(a, b - 1);
    }
  }

  lemma SmallWord(s: seq<byte>)
    requires Groups(s) < TWO31
    ensures ToI32(Word(s)) == Groups(s)
  {
    hide Groups;
  }

  lemma FitsFive(v: nat)
    requires v < TWO31
    ensures |VarInt(v)| <= 5
  {
    SmallPowers();
    AtMostFive(v);
  }

  lemma Prefix(a: seq<byte>, b: seq<byte>)
    ensures (a + b)[..|a|] == a
  {
  }

  /** Reading what was written gives the value back and leaves whatever follows. */
  lemma VarIntRoundTrip(v: nat, suffix: seq<byte>)
    requires v < TWO31
    ensures Reading(VarInt(v) + suffix) == (Ok(v), |VarInt(v)|)
    ensures 1 <= |VarInt(v)| <= 5
  {
    FitsFive(v);
    VarIntShape(v, suffix);
    Prefix(VarInt(v), suffix);
    ReadingEnds(VarInt(v) + suffix, |VarInt(v)| - 1);
    SmallWord(VarInt(v));
    hide *;
  }

  // The handshake

  /** `n as i32` for a length. */
  function AsI32(n: nat): int {
    ToI32(n % TWO32)
  }

  function Body(host: seq<byte>, port: nat, protocolVersion: nat, hostLen: nat): seq<byte> {
    [0] + Fields(host, port, protocolVersion, hostLen)
  }

  function Fields(host: seq<byte>, port: nat, protocolVersion: nat, hostLen: nat): seq<byte> {
    VarInt(protocolVersion) + (VarInt(hostLen) + (host + (BE(port, 2) + VarInt(1))))
  }

  /** The framed packet; a negative version, or a length that is negative as an `i32`, is refused. */
  function HandshakePacket(host: seq<byte>, port: nat, protocolVersion: int): Result<seq<byte>> {
    if protocolVersion < 0 || AsI32(|host|) < 0 then Err(Negative)
    else
      var body := Body(host, port, protocolVersion, AsI32(|host|));
      if AsI32(|body|) < 0 then Err(Negative) else Ok(VarInt(AsI32(|body|)) + body)
  }

  method BuildHandshakePacket(host: seq<byte>, port: nat, protocolVersion: int) returns (r: Result<seq<byte>>)
    requires port < TWO16 && -TWO31 <= protocolVersion < TWO31
    ensures r == HandshakePacket(host, port, protocolVersion)
  {
    var packet: seq<byte> := [0];
    r := WriteVarint(packet, protocolVersion);
    if r.Err? {
      return;
    }
    r := WriteVarint(r.value, AsI32(|host|));
    if r.Err? {
      return;
    }
    packet := r.value + host;
    packet := packet + BE(port, 2);
    r := WriteVarint(packet, 1);
    packet := r.value;
    Reassociate([0], VarInt(protocolVersion), VarInt(AsI32(|host|)), host, BE(port, 2) + VarInt(1));
    assert packet == [0] + VarInt(protocolVersion) + VarInt(AsI32(|host|)) + host + (BE(port, 2) + VarInt(1));
    assert packet == Body(host, port, protocolVersion, AsI32(|host|));
    r := WriteVarint([], AsI32(|packet|));
    if r.Err? {
      return;
    }
    assert r.value == VarInt(AsI32(|packet|));
    r := Ok(r.value + packet);
  }

  function PlainFields(host: seq<byte>, port: nat, protocolVersion: nat): seq<byte>
    requires port < TWO16
  {
    VarInt(protocolVersion) + VarInt(|host|) + host + [port / 256, port % 256, 1]
  }

  lemma BodyBytes(host: seq<byte>, port: nat, protocolVersion: nat)
    requires port < TWO16 && protocolVersion < TWO31 && |host| < TWO31 - 20
    ensures Body(host, port, protocolVersion, |host|) == [0x00] + PlainFields(host, port, protocolVersion)
    ensures |PlainFields(host, port, protocolVersion)| <= 13 + |host|
  {
    PortBytes(port);
    FitsFive(protocolVersion);
    FitsFive(|host|);
    Flatten(VarInt(protocolVersion), VarInt(|host|), host, BE(port, 2), VarInt(1));
    assert [port / 256, port % 256] + [1] == [port / 256, port % 256, 1];
    hide BE, VarInt;
  }

  lemma SmallLength(n: nat)
    requires n < TWO31
    ensures AsI32(n) == n
  {
  }

  /** The bytes of the framed packet, with the port's two bytes most significant first and next state 1. */
  lemma HandshakeBytes(host: seq<byte>, port: nat, protocolVersion: nat)
    requires port < TWO16 && protocolVersion < TWO31 && |host| < TWO31 - 20
    ensures var fields := VarInt(protocolVersion) + VarInt(|host|) + host + [port / 256, port % 256, 1];
      HandshakePacket(host, port, protocolVersion) == Ok(VarInt(1 + |fields|) + ([0x00] + fields))
  {
    BodyBytes(host, port, protocolVersion);
    SmallLength(|host|);
    SmallLength(1 + |PlainFields(host, port, protocolVersion)|);
    hide Body, VarInt, AsI32;
  }

  lemma Flatten(a: seq<byte>, b: seq<byte>, c: seq<byte>, d: seq<byte>, e: seq<byte>)
    ensures a + (b + (c + (d + e))) == a + b + c + (d + e)
  {
  }

  lemma PortBytes(port: nat)
    requires port < TWO16
    ensures BE(port, 2) == [port / 256, port % 256] && VarInt(1) == [1]
  {
    assert BE(port, 2) == BE(port / 256, 1) + [port % 256];
    assert BE(port / 256, 1) == BE(port / 256 / 256, 0) + [port / 256 % 256];
  }

  /** A handshake is refused exactly for a negative version, as long as the lengths fit. */
  lemma RefusesExactly(host: seq<byte>, port: nat, protocolVersion: int)
    requires port < TWO16 && protocolVersion < TWO31 && |host| < TWO31 - 20
    ensures HandshakePacket(host, port, protocolVersion) == Err(Negative) <==> protocolVersion < 0
  {
    if protocolVersion >= 0 {
      HandshakeBytes(host, port, protocolVersion);
    }
    hide Body, VarInt;
  }

  datatype Handshake = Handshake(protocolVersion: int, host: seq<byte>, port: nat, nextState: int)

  /**
   * A server's reading of the framed packet: length, packet id 0, version, host, port, next state, and nothing more.
   */
  function ParseHandshake(s: seq<byte>): Option<Handshake> {
    var (len, n) := Reading(s);
    if len.Ok? && len.value == |s| - n && n < |s| && s[n] == 0 then ParseFields(s[n + 1..]) else None
  }

  function ParseFields(s1: seq<byte>): Option<Handshake> {
    var (version, n1) := Reading(s1);
    var s2 := s1[n1..];
    var (hostLen, n2) := Reading(s2);
    var s3 := s2[n2..];
    if !(version.Ok? && hostLen.Ok? && 0 <= hostLen.value && hostLen.value + 2 <= |s3|) then None
    else
      var h := hostLen.value;
      var (state, n3) := Reading(s3[h + 2..]);
      if state.Ok? && n3 == |s3[h + 2..]|
      then Some(Handshake(version.value, s3[..h], FromBE(s3[h..h + 2]), state.value))
      else None
  }

  lemma Suffix(a: seq<byte>, b: seq<byte>)
    ensures (a + b)[|a|..] == b
  {
  }

  lemma ReadsNext(v: nat, rest: seq<byte>)
    requires v < TWO31
    ensures var (r, n) := Reading(VarInt(v) + rest); r == Ok(v) && n == |VarInt(v)| && (VarInt(v) + rest)[n..] == rest
  {
    VarIntRoundTrip(v, rest);
    Suffix(VarInt(v), rest);
  }

  lemma Reassociate(a: seq<byte>, b: seq<byte>, c: seq<byte>, d: seq<byte>, e: seq<byte>)
    ensures a + b + c + d + e == a + (b + (c + (d + e)))
  {
    assert c + d + e == c + (d + e);
    assert b + (c + d + e) == b + c + d + e;
    assert a + (b + c + d + e) == a + b + c + d + e;
  }

  lemma ThreeParts(a: seq<byte>, b: seq<byte>, c: seq<byte>)
    ensures var s := a + (b + c); s[..|a|] == a && s[|a|..|a| + |b|] == b && s[|a| + |b|..] == c
  {
  }

  lemma FieldsRoundTrip(host: seq<byte>, port: nat, protocolVersion: nat)
    requires port < TWO16 && protocolVersion < TWO31 && |host| < TWO31
    ensures ParseFields(Fields(host, port, protocolVersion, |host|)) == Some(Handshake(protocolVersion, host, port, 1))
  {
    var s3 := host + (BE(port, 2) + VarInt(1));
    ReadsNext(protocolVersion, VarInt(|host|) + s3);
    ReadsNext(|host|, s3);
    ReadsNext(1, []);
    assert VarInt(1) + [] == VarInt(1);
    PowValues();
    BERoundTrip(port, 2);
    ThreeParts(host, BE(port, 2), VarInt(1));
    hide Reading, VarInt, BE, FromBE, Pow;
  }

  lemma FrameRoundTrip(s1: seq<byte>)
    requires 1 + |s1| < TWO31
    ensures ParseHandshake(VarInt(1 + |s1|) + ([0] + s1)) == ParseFields(s1)
  {
    VarIntRoundTrip(1 + |s1|, [0] + s1);
    OpensBody(VarInt(1 + |s1|), s1);
    hide *;
  }

  lemma ParsesBody(s: seq<byte>, n: nat)
    requires n < |s| && Reading(s) == (Ok(|s| - n), n) && s[n] == 0
    ensures ParseHandshake(s) == ParseFields(s[n + 1..])
  {
    hide Reading, ParseFields;
  }

  lemma OpensBody(a: seq<byte>, s1: seq<byte>)
    requires Reading(a + ([0] + s1)) == (Ok(1 + |s1|), |a|)
    ensures ParseHandshake(a + ([0] + s1)) == ParseFields(s1)
  {
    hide *;
    var s := a + ([0] + s1);
    assert |s| == |a| + 1 + |s1| && s[|a|] == 0 && s[|a| + 1..] == s1 by {
      MiddleByte(a, 0, s1);
    }
    ParsesBody(s, |a|);
  }

  lemma MiddleByte(a: seq<byte>, b: byte, c: seq<byte>)
    ensures var s := a + ([b] + c); |s| == |a| + 1 + |c| && s[|a|] == b && s[|a| + 1..] == c
  {
  }

  lemma HostIsInBody(host: seq<byte>, port: nat, protocolVersion: nat)
    ensures |host| <= |Body(host, port, protocolVersion, |host|)|
  {
  }

  /**
   * The framed handshake reads back to exactly the version, host and port it was built from, whenever its length is
   * an `i32`; a negative version is refused (`HandshakePacket`).
   */
  lemma HandshakeRoundTrip(host: seq<byte>, port: nat, protocolVersion: nat)
    requires port < TWO16 && protocolVersion < TWO31 && |Body(host, port, protocolVersion, |host|)| < TWO31
    ensures var packet := HandshakePacket(host, port, protocolVersion);
      packet.Ok? && ParseHandshake(packet.value) == Some(Handshake(protocolVersion, host, port, 1))
  {
    HostIsInBody(host, port, protocolVersion);
    hide Fields, VarInt, ParseFields, ParseHandshake;
    FieldsRoundTrip(host, port, protocolVersion);
    FrameRoundTrip(Fields(host, port, protocolVersion, |host|));
  }
}
