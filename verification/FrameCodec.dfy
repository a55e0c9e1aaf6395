/** The relay's binary frames: one kind byte, an eight byte big-endian stream id, the payload (src/wss_relay.rs). */
module FrameCodec {
  import opened Bytes
  import opened Options

  const OPEN: byte := 1
  const DATA: byte := 2
  const CLOSE: byte := 3
  const HELLO: byte := 4
  const READY: byte := 5
  const ERROR: byte := 6
  const PING: byte := 7
  const DATA_ZSTD: byte := 8
  const PONG: byte := 9

  const ZSTD_MIN_PAYLOAD: nat := 64

  datatype Frame = Frame(kind: byte, id: nat, payload: seq<byte>)

  /** The compression library, of which only losslessness is used. */
  datatype Zstd = Zstd(compress: seq<byte> -> Option<seq<byte>>, decompress: seq<byte> -> Option<seq<byte>>)
  {
    ghost predicate Lossless() {
      forall x :: compress(x).Some? ==> decompress(compress(x).value) == Some(x)
    }
  }

  function EncodeFrame(kind: byte, id: nat, payload: seq<byte>): seq<byte> {
    [kind] + BE(id, 8) + payload
  }

  function DecodeFrame(z: Zstd, data: seq<byte>): Option<Frame> {
    if |data| < 9 then None
    else
      var id := FromBE(data[1..9]);
      if data[0] == DATA_ZSTD then
        match z.decompress(data[9..])
        case None => None
        case Some(payload) => Some(Frame(DATA, id, payload))
      else Some(Frame(data[0], id, data[9..]))
  }

  function EncodeData(z: Zstd, id: nat, payload: seq<byte>): seq<byte> {
    if |payload| < ZSTD_MIN_PAYLOAD then EncodeFrame(DATA, id, payload)
    else
      match z.compress(payload)
      case Some(packed) =>
        if |packed| < |payload| then EncodeFrame(DATA_ZSTD, id, packed) else EncodeFrame(DATA, id, payload)
      case None => EncodeFrame(DATA, id, payload)
  }

  lemma FrameParts(kind: byte, id: nat, payload: seq<byte>)
    requires id < TWO64
    ensures var raw := EncodeFrame(kind, id, payload);
      |raw| == 9 + |payload| && raw[0] == kind && FromBE(raw[1..9]) == id && raw[9..] == payload
  {
    PowValues();
    BERoundTrip(id, 8);
    assert EncodeFrame(kind, id, payload)[1..9] == BE(id, 8);
  }

  /** The wire layout: kind, the id's eight bytes with the most significant first, payload. */
  lemma FrameBytes(kind: byte, id: nat, payload: seq<byte>, i: nat)
    requires i < 8
    ensures var raw := EncodeFrame(kind, id, payload);
      |raw| == 9 + |payload| && raw[0] == kind && raw[9..] == payload
    ensures Pow(256, 7 - i) > 0 && EncodeFrame(kind, id, payload)[1 + i] == id / Pow(256, 7 - i) % 256
  {
    BEAt(id, 8, i);
  }

  /** A data frame is compressed exactly when that is tried, works and saves bytes; it is then the packed payload. */
  lemma CompressesExactly(z: Zstd, id: nat, payload: seq<byte>)
    ensures var packed := z.compress(payload);
      var smaller := |payload| >= 64 && packed.Some? && |packed.value| < |payload|;
      && EncodeData(z, id, payload)[0] == (if smaller then 8 else 2)
      && EncodeData(z, id, payload)[9..] == (if smaller then packed.value else payload)
  {
  }

  /** Every kind but the compressed one, and every 64-bit id, comes back as it was sent. */
  lemma DecodeEncode(z: Zstd, kind: byte, id: nat, payload: seq<byte>)
    requires id < TWO64 && kind != DATA_ZSTD
    ensures DecodeFrame(z, EncodeFrame(kind, id, payload)) == Some(Frame(kind, id, payload))
  {
    FrameParts(kind, id, payload);
  }

  /** Compressed or not, a data frame carries exactly its payload and never costs more than the plain form. */
  lemma DecodeEncodeData(z: Zstd, id: nat, payload: seq<byte>)
    requires id < TWO64 && z.Lossless()
    ensures DecodeFrame(z, EncodeData(z, id, payload)) == Some(Frame(DATA, id, payload))
    ensures |EncodeData(z, id, payload)| <= 9 + |payload|
  {
    FrameParts(DATA, id, payload);
    match z.compress(payload)
    case Some(packed) => FrameParts(DATA_ZSTD, id, packed);
    case None =>
  }

  /**
   * The decoder accepts exactly the messages of nine bytes or more whose compressed part, if any, decompresses;
   * and an uncompressed message is the encoding of the frame read from it, so no two of them read alike.
   */
  lemma DecodeIsExact(z: Zstd, data: seq<byte>)
    ensures DecodeFrame(z, data).Some? <==> |data| >= 9 && (data[0] == DATA_ZSTD ==> z.decompress(data[9..]).Some?)
    ensures DecodeFrame(z, data).Some? && data[0] != DATA_ZSTD ==>
      var f := DecodeFrame(z, data).value; f.id < TWO64 && data == EncodeFrame(f.kind, f.id, f.payload)
  {
    if |data| >= 9 {
      PowValues();
      FromBEInverse(data[1..9]);
      assert data == [data[0]] + data[1..9] + data[9..];
    }
  }
}
