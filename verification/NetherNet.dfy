/**
 * The NetherNet discovery envelope: built in src/broadcaster.rs (and alike in src/nethernet_broadcaster.rs), opened
 * in src/discovery.rs. The cipher's block map, its inverse and the MAC under the shared key are parameters.
 */
module NetherNet {
  import opened Bytes
  import opened Options

  const BLOCK: nat := 16

  /** The keyed primitives: an invertible map on 16-byte blocks and a 32-byte MAC. */
  datatype Keyed = Keyed(enc: seq<byte> -> seq<byte>, dec: seq<byte> -> seq<byte>, mac: seq<byte> -> seq<byte>)
  {
    ghost predicate Sound() {
      && (forall b :: |b| == BLOCK ==> |enc(b)| == BLOCK && |dec(b)| == BLOCK && dec(enc(b)) == b)
      && (forall m :: |mac(m)| == 32)
    }
  }

  // Blocks

  /** A block map applied to each 16-byte chunk in turn. */
  function MapBlocks(f: seq<byte> -> seq<byte>, s: seq<byte>): seq<byte>
    requires |s| % BLOCK == 0
  {
    if s == [] then [] else f(s[..BLOCK]) + MapBlocks(f, s[BLOCK..])
  }

  ghost predicate Blockwise(f: seq<byte> -> seq<byte>) {
    forall b :: |b| == BLOCK ==> |f(b)| == BLOCK
  }

  lemma {:induction false} MapBlocksLength(f: seq<byte> -> seq<byte>, s: seq<byte>)
    requires |s| % BLOCK == 0 && Blockwise(f)
    ensures |MapBlocks(f, s)| == |s|
  {
    if s != [] {
      MapBlocksLength(f, s[BLOCK..]);
    }
  }

  lemma {:induction false} BlocksInvert(k: Keyed, s: seq<byte>)
    requires |s| % BLOCK == 0 && k.Sound()
    ensures |MapBlocks(k.enc, s)| == |s| && MapBlocks(k.dec, MapBlocks(k.enc, s)) == s
  {
    if s != [] {
      BlocksInvert(k, s[BLOCK..]);
      var e := MapBlocks(k.enc, s);
      assert e[..BLOCK] == k.enc(s[..BLOCK]) && e[BLOCK..] == MapBlocks(k.enc, s[BLOCK..]);
      assert s == s[..BLOCK] + s[BLOCK..];
    }
  }

  lemma {:induction false} MapBlocksSnoc(f: seq<byte> -> seq<byte>, s: seq<byte>, b: seq<byte>)
    requires |s| % BLOCK == 0 && |b| == BLOCK
    ensures MapBlocks(f, s + b) == MapBlocks(f, s) + f(b)
  {
    if s == [] {
      assert s + b == b && b[..BLOCK] == b && b[BLOCK..] == [];
      assert MapBlocks(f, b[BLOCK..]) == [];
    } else {
      assert (s + b)[..BLOCK] == s[..BLOCK] && (s + b)[BLOCK..] == s[BLOCK..] + b;
      MapBlocksSnoc(f, s[BLOCK..], b);
    }
  }

  function Spliced(s: seq<byte>, at: nat, block: seq<byte>): seq<byte>
    requires at + BLOCK <= |s|
  {
    s[..at] + block + s[at + BLOCK..]
  }

  method WriteBlock(a: array<byte>, at: nat, block: seq<byte>)
    requires |block| == BLOCK && at + BLOCK <= a.Length
    modifies a
    ensures a[..] == Spliced(old(a[..]), at, block)
  {
    for j := 0 to BLOCK
      invariant forall i :: 0 <= i < a.Length ==> a[i] == if at <= i < at + j then block[i - at] else old(a[i])
    {
      a[at + j] := block[j];
    }
  }

  /** What the array holds when the blocks before `at` have been mapped. */
  function MappedUpTo(f: seq<byte> -> seq<byte>, was: seq<byte>, at: nat): seq<byte>
    requires at % BLOCK == 0 && at <= |was|
  {
    MapBlocks(f, was[..at]) + was[at..]
  }

  lemma MappedEnds(f: seq<byte> -> seq<byte>, was: seq<byte>)
    requires |was| % BLOCK == 0
    ensures MappedUpTo(f, was, 0) == was && MappedUpTo(f, was, |was|) == MapBlocks(f, was)
  {
    assert was[..|was|] == was;
  }

  lemma RoomForBlock(at: nat, n: nat)
    requires at % BLOCK == 0 && n % BLOCK == 0 && at < n
    ensures at + BLOCK <= n && (at + BLOCK) % BLOCK == 0
  {
  }

  lemma NextBlock(f: seq<byte> -> seq<byte>, was: seq<byte>, at: nat)
    requires at % BLOCK == 0 && at + BLOCK <= |was| && Blockwise(f)
    ensures var now := MappedUpTo(f, was, at);
      && |now| == |was| && |f(was[at..at + BLOCK])| == BLOCK && now[at..at + BLOCK] == was[at..at + BLOCK]
      && Spliced(now, at, f(was[at..at + BLOCK])) == MappedUpTo(f, was, at + BLOCK)
  {
    var front, block, rest := was[..at], was[at..at + BLOCK], was[at + BLOCK..];
    assert was[..at + BLOCK] == front + block && was[at..] == block + rest;
    MapBlocksSnoc(f, front, block);
    MapBlocksLength(f, front);
    var now := MapBlocks(f, front) + (block + rest);
    assert now[..at] == MapBlocks(f, front) && now[at + BLOCK..] == rest;
  }

  /** `chunks_mut(16)` with the block map applied in place. */
  method TransformInPlace(f: seq<byte> -> seq<byte>, a: array<byte>)
    requires a.Length % BLOCK == 0 && Blockwise(f)
    modifies a
    ensures a[..] == MapBlocks(f, old(a[..]))
  {
    ghost var was := a[..];
    var at := 0;
    MappedEnds(f, was);
    hide *;
    while at < a.Length
      invariant 0 <= at <= a.Length && at % BLOCK == 0
      invariant a[..] == MappedUpTo(f, was, at)
    {
      RoomForBlock(at, a.Length);
      NextBlock(f, was, at);
      var block := a[at..at + BLOCK];
      assert block == a[..][at..at + BLOCK];
      WriteBlock(a, at, f(block));
      at := at + BLOCK;
    }
  }

  // Hexadecimal

  function HexDigit(n: nat): byte
    requires n < 16
  {
    if n < 10 then 48 + n else 87 + n
  }

  function HexEncode(s: seq<byte>): (h: seq<byte>)
    ensures |h| == 2 * |s|
  {
    if s == [] then [] else [HexDigit(s[0] / 16), HexDigit(s[0] % 16)] + HexEncode(s[1..])
  }

  function HexValue(c: byte): Option<nat> {
    if 48 <= c <= 57 then Some(c - 48)
    else if 97 <= c <= 102 then Some(c - 87)
    else if 65 <= c <= 70 then Some(c - 55)
    else None
  }

  /** `hex::decode`: an even number of hexadecimal digits of either case. */
  function HexDecode(h: seq<byte>): Option<seq<byte>> {
    if h == [] then Some([])
    else if |h| == 1 then None
    else
      match (HexValue(h[0]), HexValue(h[1]), HexDecode(h[2..]))
      case (Some(a), Some(b), Some(rest)) => Some([a * 16 + b] + rest)
      case _ => None
  }

  lemma {:induction false} HexRoundTrip(s: seq<byte>)
    ensures HexDecode(HexEncode(s)) == Some(s)
  {
    if s != [] {
      HexRoundTrip(s[1..]);
      assert HexEncode(s)[2..] == HexEncode(s[1..]);
      assert s == [s[0]] + s[1..];
    }
  }

  /** `c` writes the half-byte `n`: 0 to 9, a to f, A to F. */
  predicate Writes(c: byte, n: nat) {
    (n < 10 && c == 48 + n) || (10 <= n < 16 && (c == 87 + n || c == 55 + n))
  }

  lemma DigitExactly(c: byte, n: nat)
    ensures HexValue(c) == Some(n) <==> Writes(c, n)
  {
  }

  predicate WritesAll(h: seq<byte>, s: seq<byte>) {
    |h| == 2 * |s| && forall i :: 0 <= i < |s| ==> Writes(h[2 * i], s[i] / 16) && Writes(h[2 * i + 1], s[i] % 16)
  }

  /** Decoding accepts exactly the texts with two digits of either case for each byte, and reads those bytes. */
  lemma {:induction false} HexExactly(h: seq<byte>, s: seq<byte>)
    ensures HexDecode(h) == Some(s) <==> WritesAll(h, s)
    decreases |h|
  {
    if |h| >= 2 && s != [] {
      HexExactly(h[2..], s[1..]);
      DigitExactly(h[0], s[0] / 16);
      DigitExactly(h[1], s[0] % 16);
      WritesTail(h, s);
      if HexDecode(h) == Some(s) {
        assert s[0] == HexValue(h[0]).value * 16 + HexValue(h[1]).value;
        assert HexDecode(h[2..]).value == s[1..];
      }
      if WritesAll(h, s) {
        assert s == [s[0]] + s[1..];
      }
    } else if s == [] && |h| >= 2 {
      assert HexDecode(h).Some? ==> |HexDecode(h).value| > 0;
    }
  }

  lemma WritesTail(h: seq<byte>, s: seq<byte>)
    requires |h| >= 2 && s != []
    ensures WritesAll(h, s) <==> Writes(h[0], s[0] / 16) && Writes(h[1], s[0] % 16) && WritesAll(h[2..], s[1..])
  {
    var ht, st := h[2..], s[1..];
    if WritesAll(ht, st) && Writes(h[0], s[0] / 16) && Writes(h[1], s[0] % 16) {
      forall i | 0 <= i < |s| ensures Writes(h[2 * i], s[i] / 16) && Writes(h[2 * i + 1], s[i] % 16) {
        if i > 0 {
          assert h[2 * i] == ht[2 * (i - 1)] && h[2 * i + 1] == ht[2 * (i - 1) + 1] && s[i] == st[i - 1];
        }
      }
    }
    if WritesAll(h, s) {
      assert Writes(h[2 * 0], s[0] / 16);
      forall i | 0 <= i < |st| ensures Writes(ht[2 * i], st[i] / 16) && Writes(ht[2 * i + 1], st[i] % 16) {
        assert ht[2 * i] == h[2 * (i + 1)] && ht[2 * i + 1] == h[2 * (i + 1) + 1] && st[i] == s[i + 1];
      }
    }
  }

  // The builder

  /** PKCS#7, section 6.3 of RFC 5652: always at least one byte, each holding the count. */
  function Padding(n: nat): (p: seq<byte>)
    ensures (n + |p|) % BLOCK == 0 && 1 <= |p| <= BLOCK
    ensures forall i :: 0 <= i < |p| ==> p[i] == |p|
  {
    var padLen := BLOCK - n % BLOCK;
    seq(padLen, _ => padLen as byte)
  }

  function Packet(senderId: nat, serverData: seq<byte>): seq<byte> {
    var hex := HexEncode(serverData);
    LE(1, 2) + LE(senderId, 8) + [0, 0, 0, 0, 0, 0, 0, 0] + LE(|hex|, 4) + hex
  }

  function Payload(senderId: nat, serverData: seq<byte>): seq<byte> {
    LE(|Packet(senderId, serverData)|, 2) + Packet(senderId, serverData)
  }

  function Datagram(k: Keyed, senderId: nat, serverData: seq<byte>): seq<byte> {
    var payload := Payload(senderId, serverData);
    k.mac(payload) + MapBlocks(k.enc, payload + Padding(|payload|))
  }

  method BuildResponsePacket(k: Keyed, senderId: nat, serverData: seq<byte>) returns (datagram: seq<byte>)
    requires k.Sound()
    ensures datagram == Datagram(k, senderId, serverData)
  {
    var hexData := HexEncode(serverData);
    var appDataBuf := LE(|hexData|, 4);
    appDataBuf := appDataBuf + hexData;

    var packetBuf := LE(1, 2);
    packetBuf := packetBuf + LE(senderId, 8);
    packetBuf := packetBuf + [0, 0, 0, 0, 0, 0, 0, 0];
    packetBuf := packetBuf + appDataBuf;
    assert packetBuf == Packet(senderId, serverData);

    var payload := LE(|packetBuf|, 2);
    payload := payload + packetBuf;

    var padded := payload + Padding(|payload|);
    var encrypted := new byte[|padded|](i requires 0 <= i < |padded| => padded[i]);
    assert encrypted[..] == padded;
    TransformInPlace(k.enc, encrypted);
    datagram := k.mac(payload) + encrypted[..];
  }

  // The parser

  /** How a stage of opening a datagram ends: its product, the datagram passed over, or an index or chunk-size panic. */
  datatype Opened<+T> = Got(value: T) | Ignored | Panic

  /** What the parser does with the decrypted bytes once the MAC has been found good. */
  function ReadPayload(payload: seq<byte>): Opened<seq<byte>> {
    if |payload| < 4 then Panic
    else if FromLE(payload[2..4]) != 1 then Ignored
    else if 24 > |payload| then Ignored
    else
      var appDataLen := FromLE(payload[20..24]);
      if 24 + appDataLen > |payload| then Ignored
      else
        match HexDecode(payload[24..24 + appDataLen])
        case Some(data) => Got(data)
        case None => Ignored
  }

  /** The payload the MAC vouches for, out of the first `len` bytes received. */
  function Isolate(k: Keyed, buf: seq<byte>, len: nat): Opened<seq<byte>>
    requires len <= |buf|
  {
    if len < 48 then Ignored
    else if (len - 32) % BLOCK != 0 then Panic
    else
      var decrypted := MapBlocks(k.dec, buf[32..len]);
      if |decrypted| < 2 then Panic
      else
        var payloadLen := FromLE(decrypted[..2]);
        if payloadLen + 2 > |decrypted| || k.mac(decrypted[..payloadLen + 2]) != buf[..32] then Ignored
        else Got(decrypted[..payloadLen + 2])
  }

  function Open(k: Keyed, buf: seq<byte>, len: nat): Opened<seq<byte>>
    requires len <= |buf|
  {
    match Isolate(k, buf, len)
    case Got(payload) => ReadPayload(payload)
    case Ignored => Ignored
    case Panic => Panic
  }

  /** The payload is a packet of id 1 holding `hex`: length, id, sender and zeros, text length, text, anything more. */
  predicate Holds(payload: seq<byte>, hex: seq<byte>, rest: seq<byte>) {
    && |payload| >= 24 && |hex| < TWO32
    && payload == payload[..2] + (LE(1, 2) + payload[4..12] + payload[12..20] + LE(|hex|, 4) + (hex + rest))
  }

  /** The text the payload holds is hexadecimal for `data`. */
  ghost predicate Carries(payload: seq<byte>, data: seq<byte>) {
    exists hex, rest :: Holds(payload, hex, rest) && HexDecode(hex) == Some(data)
  }

  lemma HoldsParts(payload: seq<byte>, hex: seq<byte>, rest: seq<byte>)
    requires Holds(payload, hex, rest)
    ensures FromLE(payload[2..4]) == 1 && FromLE(payload[20..24]) == |hex|
    ensures 24 + |hex| <= |payload| && payload[24..24 + |hex|] == hex
  {
    PowValues();
    LERoundTrip(1, 2);
    LERoundTrip(|hex|, 4);
    FieldsAt(payload[..2], LE(1, 2), payload[4..12], payload[12..20], LE(|hex|, 4), hex + rest);
    assert (hex + rest)[..|hex|] == hex;
    SubSlice(payload, 24, |hex + rest|, |hex|);
    hide LE, FromLE, Pow;
  }

  lemma SubSlice(s: seq<byte>, start: nat, n: nat, m: nat)
    requires start + n <= |s| && m <= n
    ensures s[start..start + n][..m] == s[start..start + m]
  {
  }

  lemma ReadsWhatItHolds(payload: seq<byte>, n: nat)
    requires 24 + n <= |payload| && FromLE(payload[2..4]) == 1 && FromLE(payload[20..24]) == n
    ensures Holds(payload, payload[24..24 + n], payload[24 + n..])
  {
    PowValues();
    FromLEInverse(payload[2..4]);
    FromLEInverse(payload[20..24]);
    hide LE, FromLE, Pow;
    Reassembled(payload, n);
  }

  lemma Reassembled(s: seq<byte>, n: nat)
    requires 24 + n <= |s|
    ensures s == s[..2] + (s[2..4] + s[4..12] + s[12..20] + s[20..24] + (s[24..24 + n] + s[24 + n..]))
  {
  }

  /**
   * An authenticated payload is read exactly when it carries data in the builder's layout, and that data is what is
   * read.
   */
  lemma ReadsExactly(payload: seq<byte>, data: seq<byte>)
    ensures ReadPayload(payload) == Got(data) <==> Carries(payload, data)
  {
    hide HexDecode, LE, FromLE, Holds;
    if ReadPayload(payload) == Got(data) {
      var n := FromLE(payload[20..24]);
      ReadsWhatItHolds(payload, n);
    }
    if Carries(payload, data) {
      var hex, rest :| Holds(payload, hex, rest) && HexDecode(hex) == Some(data);
      HoldsParts(payload, hex, rest);
      assert |payload| >= 24;
    }
  }

  method ParsePayload(payload: seq<byte>) returns (r: Opened<seq<byte>>)
    ensures r == ReadPayload(payload)
    ensures forall data :: r == Got(data) <==> Carries(payload, data)
    ensures r == Panic <==> |payload| < 4
  {
    forall data ensures ReadPayload(payload) == Got(data) <==> Carries(payload, data) {
      ReadsExactly(payload, data);
    }
    hide Carries;
    if |payload| < 4 {
      return Panic;
    }
    var packetId := FromLE(payload[2..4]);
    if packetId == 1 {
      var offset := 20;
      if offset + 4 <= |payload| {
        var appDataLen := FromLE(payload[offset..offset + 4]);
        offset := offset + 4;
        if offset + appDataLen <= |payload| {
          var appData := HexDecode(payload[offset..offset + appDataLen]);
          if appData.Some? {
            return Got(appData.value);
          }
        }
      }
    }
    return Ignored;
  }

  // What the parser yields and where it panics

  /** The MAC found in the datagram is good for a payload of the length its first two bytes give. */
  predicate Authentic(k: Keyed, buf: seq<byte>, d: seq<byte>)
    requires |buf| >= 32
  {
    |d| >= 2 && FromLE(d[..2]) + 2 <= |d| && k.mac(d[..FromLE(d[..2]) + 2]) == buf[..32]
  }

  /**
   * The parser panics on exactly these datagrams: long enough to be looked at, and either not a whole number of blocks
   * after the MAC, or authentic with a payload too short for a packet id. Everything else is read or passed over.
   */
  lemma PanicsExactly(k: Keyed, buf: seq<byte>, len: nat)
    requires k.Sound() && len <= |buf|
    ensures Open(k, buf, len) == Panic <==>
      && len >= 48
      && ((len - 32) % BLOCK != 0 ||
          var d := MapBlocks(k.dec, buf[32..len]);
          Authentic(k, buf, d) && FromLE(d[..2]) < 2)
  {
    if len >= 48 && (len - 32) % BLOCK == 0 {
      MapBlocksLength(k.dec, buf[32..len]);
      var d := MapBlocks(k.dec, buf[32..len]);
      PayloadPanics(d[..Min(FromLE(d[..2]) + 2, |d|)]);
    }
    hide MapBlocks, FromLE, ReadPayload;
  }

  lemma PayloadPanics(payload: seq<byte>)
    ensures ReadPayload(payload) == Panic <==> |payload| < 4
  {
    hide FromLE, HexDecode;
  }

  /** Long enough, of whole blocks, authentic, and carrying `data` inside. */
  ghost predicate Yields(k: Keyed, buf: seq<byte>, len: nat, data: seq<byte>)
    requires len <= |buf|
  {
    && len >= 48 && (len - 32) % BLOCK == 0
    && var d := MapBlocks(k.dec, buf[32..len]);
       Authentic(k, buf, d) && Carries(d[..FromLE(d[..2]) + 2], data)
  }

  /**
   * The parser yields data exactly when the datagram is long enough and of whole blocks, its MAC is good for the
   * payload inside, and that payload carries the data: nothing unauthenticated is ever read.
   */
  lemma GotExactly(k: Keyed, buf: seq<byte>, len: nat, data: seq<byte>)
    requires k.Sound() && len <= |buf|
    ensures Open(k, buf, len) == Got(data) <==> Yields(k, buf, len, data)
  {
    IsolatesExactly(k, buf, len);
    if len >= 48 && (len - 32) % BLOCK == 0 {
      var d := MapBlocks(k.dec, buf[32..len]);
      if Authentic(k, buf, d) {
        ReadsExactly(d[..FromLE(d[..2]) + 2], data);
      }
    }
    hide MapBlocks, FromLE, ReadPayload, Carries, Isolate;
  }

  lemma IsolatesExactly(k: Keyed, buf: seq<byte>, len: nat)
    requires k.Sound() && len <= |buf|
    ensures len < 48 || (len - 32) % BLOCK != 0 ==> !Isolate(k, buf, len).Got?
    ensures len >= 48 && (len - 32) % BLOCK == 0 ==>
      var d := MapBlocks(k.dec, buf[32..len]);
      Isolate(k, buf, len) == if Authentic(k, buf, d) then Got(d[..FromLE(d[..2]) + 2]) else Ignored
  {
    if len >= 48 && (len - 32) % BLOCK == 0 {
      MapBlocksLength(k.dec, buf[32..len]);
    }
    hide MapBlocks, FromLE;
  }

  /** One byte more than the shortest datagram looked at is enough, whatever the bytes and the key. */
  lemma OddLengthPanics(k: Keyed, buf: seq<byte>)
    requires k.Sound() && |buf| >= 49
    ensures Open(k, buf, 49) == Panic
  {
    PanicsExactly(k, buf, 49);
  }

  /** So does a well-made datagram whose payload is empty: it is authentic, but has no packet id. */
  lemma EmptyPayloadPanics(k: Keyed)
    requires k.Sound()
    ensures var buf := k.mac([0, 0]) + MapBlocks(k.enc, [0, 0] + Padding(2)); Open(k, buf, |buf|) == Panic
  {
    var padded := [0, 0] + Padding(2);
    BlocksInvert(k, padded);
    var buf := k.mac([0, 0]) + MapBlocks(k.enc, padded);
    assert |padded| == 16 && |buf| == 48;
    assert buf[32..|buf|] == MapBlocks(k.enc, padded) && buf[..32] == k.mac([0, 0]);
    assert padded[..2] == [0, 0] && FromLE([0, 0]) == 0;
    PanicsExactly(k, buf, |buf|);
    hide MapBlocks, Padding;
  }

  // The whole parser

  /** The datagram branch of discovery, entered when the bytes were not a RakNet pong. */
  method ParseResponse(k: Keyed, buf: seq<byte>, len: nat) returns (r: Opened<seq<byte>>)
    requires k.Sound() && len <= |buf|
    ensures r == Open(k, buf, len)
    ensures forall data :: r == Got(data) <==>
      Yields(k, buf, len, data)
  {
    forall data ensures Open(k, buf, len) == Got(data) <==> Yields(k, buf, len, data) {
      GotExactly(k, buf, len, data);
    }
    hide Carries, Authentic;
    if len < 48 {
      return Ignored;
    }
    if (len - 32) % BLOCK != 0 {
      return Panic;
    }
    var n := len - 32;
    var decrypted := new byte[n](i requires 0 <= i < n => buf[32 + i]);
    assert decrypted[..] == buf[32..len];
    TransformInPlace(k.dec, decrypted);
    MapBlocksLength(k.dec, buf[32..len]);
    ghost var d := decrypted[..];
    hide MapBlocks, FromLE, ReadPayload;
    assert decrypted[..2] == d[..2];
    var payloadLen := FromLE(decrypted[..2]);
    if payloadLen + 2 > decrypted.Length {
      return Ignored;
    }
    var payload := decrypted[..payloadLen + 2];
    assert payload == d[..payloadLen + 2];
    if k.mac(payload) != buf[..32] {
      return Ignored;
    }
    r := ParsePayload(payload);
  }

  // Round trip

  lemma PayloadLayout(senderId: nat, serverData: seq<byte>)
    requires |Packet(senderId, serverData)| < TWO16
    ensures var p := Payload(senderId, serverData);
      FromLE(p[..2]) + 2 == |p| && ReadPayload(p) == Got(serverData)
  {
    var hex, packet := HexEncode(serverData), Packet(senderId, serverData);
    PowValues();
    LERoundTrip(|packet|, 2);
    LERoundTrip(1, 2);
    LERoundTrip(|hex|, 4);
    HexRoundTrip(serverData);
    FieldsAt(LE(|packet|, 2), LE(1, 2), LE(senderId, 8), [0, 0, 0, 0, 0, 0, 0, 0], LE(|hex|, 4), hex);
    hide LE, FromLE, HexEncode, HexDecode, Pow;
  }

  lemma FieldsAt(len: seq<byte>, kind: seq<byte>, sender: seq<byte>, zeros: seq<byte>, n: seq<byte>, data: seq<byte>)
    requires |len| == |kind| == 2 && |sender| == |zeros| == 8 && |n| == 4
    ensures var p := len + (kind + sender + zeros + n + data);
      && |p| == 24 + |data| && p[..2] == len && p[2..4] == kind && p[20..24] == n && p[24..24 + |data|] == data
  {
  }

  /** The bytes of the payload, field by field; with `LEAt` the sender id is stated byte by byte. */
  lemma PayloadBytes(senderId: nat, serverData: seq<byte>)
    ensures var p, packet, hex := Payload(senderId, serverData), Packet(senderId, serverData), HexEncode(serverData);
      && |p| == 24 + 2 * |serverData| && |packet| == |p| - 2
      && p[..2] == [|packet| % 256, |packet| / 256 % 256]
      && p[2..4] == [1, 0]
      && p[4..12] == LE(senderId, 8)
      && p[12..20] == seq(8, _ => 0)
      && p[20..24] == LE(|hex|, 4)
      && p[24..] == hex
  {
    var packet, hex := Packet(senderId, serverData), HexEncode(serverData);
    TwoLow(|packet|);
    TwoLow(1);
    var zeros: seq<byte> := [0, 0, 0, 0, 0, 0, 0, 0];
    MorePartsAt(LE(|packet|, 2), LE(1, 2), LE(senderId, 8), zeros, LE(|hex|, 4), hex);
    hide LE, HexEncode;
  }

  lemma TwoLow(n: nat)
    ensures LE(n, 2) == [n % 256, n / 256 % 256]
  {
    assert LE(n / 256, 1) == [n / 256 % 256] + LE(n / 256 / 256, 0);
  }

  lemma MorePartsAt(
      len: seq<byte>, kind: seq<byte>, sender: seq<byte>, zeros: seq<byte>, n: seq<byte>, data: seq<byte>)
    requires |len| == |kind| == 2 && |sender| == |zeros| == 8 && |n| == 4
    ensures var p := len + (kind + sender + zeros + n + data);
      && |p| == 24 + |data| && p[..2] == len && p[2..4] == kind && p[4..12] == sender && p[12..20] == zeros
      && p[20..24] == n && p[24..] == data
  {
  }

  lemma DatagramParts(k: Keyed, senderId: nat, serverData: seq<byte>)
    requires k.Sound()
    ensures var d, payload := Datagram(k, senderId, serverData), Payload(senderId, serverData);
      && |d| >= 48 && (|d| - 32) % BLOCK == 0
      && d[..32] == k.mac(payload)
      && MapBlocks(k.dec, d[32..]) == payload + Padding(|payload|)
  {
    var payload := Payload(senderId, serverData);
    var padded := payload + Padding(|payload|);
    BlocksInvert(k, padded);
    hide Payload, MapBlocks, Padding;
    Halves(k.mac(payload), MapBlocks(k.enc, padded));
  }

  lemma Halves(a: seq<byte>, b: seq<byte>)
    ensures (a + b)[..|a|] == a && (a + b)[|a|..] == b
  {
  }

  /**
   * The parser under the same key strips the padding by the inner length, isolates exactly the payload the MAC was
   * taken over, reads packet id 1 and gets the server data back byte for byte.
   */
  lemma EnvelopeRoundTrip(k: Keyed, senderId: nat, serverData: seq<byte>, buf: seq<byte>, len: nat)
    requires k.Sound() && |Packet(senderId, serverData)| < TWO16
    requires len <= |buf| && buf[..len] == Datagram(k, senderId, serverData)
    ensures Isolate(k, buf, len) == Got(Payload(senderId, serverData))
    ensures Open(k, buf, len) == Got(serverData)
  {
    PayloadLayout(senderId, serverData);
    DatagramParts(k, senderId, serverData);
    hide Payload, Packet, MapBlocks, ReadPayload, FromLE, Padding, Datagram;
    var payload := Payload(senderId, serverData);
    var padded := payload + Padding(|payload|);
    assert buf[32..len] == buf[..len][32..] && buf[..32] == buf[..len][..32];
    assert padded[..2] == payload[..2] && padded[..|payload|] == payload;
  }
}
