/**
 * The two STUN response parsers, src/signaling.rs and src/stun.rs, against one reading of RFC 5389:
 * header in section 6, attributes in section 15, MAPPED-ADDRESS in 15.1, XOR-MAPPED-ADDRESS in 15.2.
 */
module Stun {
  import opened Bytes
  import opened Options

  const BINDING_RESPONSE: nat := 0x0101
  const MAPPED_ADDRESS: nat := 0x0001
  const XOR_MAPPED_ADDRESS: nat := 0x0020
  const MAGIC: nat := 0x2112_A442
  const COOKIE: seq<byte> := [0x21, 0x12, 0xA4, 0x42]
  const IPV4: byte := 1

  datatype Error = TooShort | UnexpectedType | TransactionMismatch | NoAddress
  datatype Result<+T> = Ok(value: T) | Err(error: Error)

  /** An IPv4 socket address; `ip` has four bytes. */
  datatype Addr = Addr(ip: seq<byte>, port: nat)

  datatype Attr = Attr(kind: nat, value: seq<byte>)

  function U16(s: seq<byte>, i: nat): (n: nat)
    requires i + 1 < |s|
    ensures n < TWO16
  {
    (s[i] as int) * 256 + s[i + 1]
  }

  /** The two-byte reading is `from_be_bytes`. */
  lemma U16IsFromBE(s: seq<byte>, i: nat)
    requires i + 1 < |s|
    ensures U16(s, i) == FromBE(s[i..i + 2])
  {
    var w := s[i..i + 2];
    assert w[..1][..0] == [];
    assert FromBE(w[..1]) == w[0];
  }

  // The standard's reading

  /** Bytes that fill a value of `n` bytes up to a multiple of four. */
  function Padding(n: nat): nat {
    (4 - n % 4) % 4
  }

  /** The attributes of a message from `offset` on, up to the first one that does not fit. */
  function Attributes(p: seq<byte>, offset: nat): seq<Attr>
    decreases |p| - offset
  {
    if offset + 4 > |p| || offset + 4 + U16(p, offset + 2) > |p| then []
    else
      var n := U16(p, offset + 2);
      [Attr(U16(p, offset), p[offset + 4..offset + 4 + n])] + Attributes(p, offset + 4 + n + Padding(n))
  }

  function XorBytes(a: seq<byte>, k: seq<byte>): (r: seq<byte>)
    requires |a| == |k|
    ensures |r| == |a|
  {
    if a == [] then []
    else
      XorByteRange(a[0], k[0]);
      [Xor(a[0], k[0])] + XorBytes(a[1..], k[1..])
  }

  lemma XorByteRange(a: byte, b: byte)
    ensures Xor(a, b) < 256
  {
    assert Pow(2, 4) == 16;
    assert Pow(2, 8) == 256 by {
      assert Pow(2, 6) == 4 * Pow(2, 4);
    }
    XorBound(a, b, 8);
  }

  /** The address an attribute carries, if it is an IPv4 (XOR-)MAPPED-ADDRESS of at least eight bytes. */
  function AddressOf(a: Attr): Option<Addr> {
    if |a.value| < 8 || a.value[1] != IPV4 then None
    else if a.kind == XOR_MAPPED_ADDRESS then
      Some(Addr(XorBytes(a.value[4..8], COOKIE), Xor(U16(a.value, 2), MAGIC / TWO16)))
    else if a.kind == MAPPED_ADDRESS then Some(Addr(a.value[4..8], U16(a.value, 2)))
    else None
  }

  function FirstAddress(attrs: seq<Attr>): (r: Result<Addr>)
    ensures r.Err? ==> r == Err(NoAddress)
  {
    if attrs == [] then Err(NoAddress)
    else
      match AddressOf(attrs[0])
      case Some(addr) => Ok(addr)
      case None => FirstAddress(attrs[1..])
  }

  /** What a binding response says, for the transaction `tx`. */
  function Response(tx: seq<byte>, p: seq<byte>): Result<Addr> {
    if |p| < 20 then Err(TooShort)
    else if U16(p, 0) != BINDING_RESPONSE then Err(UnexpectedType)
    else if p[8..20] != tx then Err(TransactionMismatch)
    else FirstAddress(Attributes(p, 20))
  }

  /** A binding response, by its first two bytes, to the transaction `tx`, by its last twelve header bytes. */
  predicate Answers(tx: seq<byte>, p: seq<byte>) {
    |p| >= 20 && IsResponse(p) && p[8..20] == tx
  }

  predicate IsResponse(p: seq<byte>) {
    |p| >= 2 && p[0] == 0x01 && p[1] == 0x01
  }

  /** Exactly which messages are refused, and why; an address only ever comes from an answer to the transaction. */
  predicate RefusesExactly(tx: seq<byte>, p: seq<byte>, r: Result<Addr>) {
    && (r == Err(TooShort) <==> |p| < 20)
    && (r == Err(UnexpectedType) <==> |p| >= 20 && !IsResponse(p))
    && (r == Err(TransactionMismatch) <==> |p| >= 20 && IsResponse(p) && p[8..20] != tx)
    && (r.Ok? ==> Answers(tx, p))
    && (r == Err(NoAddress) ==> Answers(tx, p))
  }

  lemma ResponseRefuses(tx: seq<byte>, p: seq<byte>)
    ensures RefusesExactly(tx, p, Response(tx, p))
  {
    hide FirstAddress, Attributes;
  }

  lemma NextAttribute(p: seq<byte>, offset: nat)
    requires offset + 4 <= |p| && offset + 4 + U16(p, offset + 2) <= |p|
    ensures var n := U16(p, offset + 2);
      FirstAddress(Attributes(p, offset)) ==
        match AddressOf(Attr(U16(p, offset), p[offset + 4..offset + 4 + n]))
        case Some(addr) => Ok(addr)
        case None => FirstAddress(Attributes(p, offset + 4 + n + Padding(n)))
  {
    var n := U16(p, offset + 2);
    var rest := Attributes(p, offset + 4 + n + Padding(n));
    assert Attributes(p, offset)[1..] == rest;
  }

  lemma NoMoreAttributes(p: seq<byte>, offset: nat)
    requires offset + 4 > |p| || offset + 4 + U16(p, offset + 2) > |p|
    ensures FirstAddress(Attributes(p, offset)) == Err(NoAddress)
  {
  }

  // src/signaling.rs

  function ParseXorMappedAddress(value: seq<byte>): (r: Option<Addr>)
    ensures r == AddressOf(Attr(XOR_MAPPED_ADDRESS, value))
  {
    if |value| < 8 || value[1] != 0x01 then None
    else
      var port := Xor(U16(value, 2), MAGIC / 0x10000);
      XorByteRange(value[4], COOKIE[0]);
      XorByteRange(value[5], COOKIE[1]);
      XorByteRange(value[6], COOKIE[2]);
      XorByteRange(value[7], COOKIE[3]);
      FourXors(value[4..8], COOKIE);
      Some(Addr([Xor(value[4], COOKIE[0]), Xor(value[5], COOKIE[1]), Xor(value[6], COOKIE[2]), Xor(value[7],
        COOKIE[3])], port))
  }

  lemma FourXors(a: seq<byte>, k: seq<byte>)
    requires |a| == 4 && |k| == 4
    ensures XorBytes(a, k) == [Xor(a[0], k[0]), Xor(a[1], k[1]), Xor(a[2], k[2]), Xor(a[3], k[3])]
  {
    hide Xor;
    assert XorBytes(a[1..], k[1..]) == [Xor(a[1], k[1])] + XorBytes(a[1..][1..], k[1..][1..]);
    assert XorBytes(a[3..], k[3..]) == [Xor(a[3], k[3])];
    assert a[1..][1..] == a[2..] && k[1..][1..] == k[2..] && a[2..][1..] == a[3..] && k[2..][1..] == k[3..];
  }

  function ParseMappedAddress(value: seq<byte>): (r: Option<Addr>)
    ensures r == AddressOf(Attr(MAPPED_ADDRESS, value))
  {
    if |value| < 8 || value[1] != 0x01 then None
    else
      assert [value[4], value[5], value[6], value[7]] == value[4..8];
      Some(Addr([value[4], value[5], value[6], value[7]], U16(value, 2)))
  }

  /** The `match` on the attribute type. */
  function ParseAttribute(attrType: nat, value: seq<byte>): (r: Option<Addr>)
    ensures r == AddressOf(Attr(attrType, value))
  {
    if attrType == 0x0020 then ParseXorMappedAddress(value)
    else if attrType == 0x0001 then ParseMappedAddress(value)
    else None
  }

  /** `usize::next_multiple_of(4)`. */
  function NextMultipleOf4(n: nat): nat {
    if n % 4 == 0 then n else n + (4 - n % 4)
  }

  /** From an aligned offset the two padding formulas agree and give an aligned offset again. */
  lemma PaddingFormulasAgree(offset: nat, n: nat)
    requires offset % 4 == 0
    ensures NextMultipleOf4(offset + 4 + n) == offset + 4 + n + Padding(n)
    ensures NextMultipleOf4(offset + 4 + n) % 4 == 0
  {
  }

  /** The attribute loop of `parse_stun_binding_response`. */
  method ScanPayload(payload: seq<byte>) returns (r: Result<Addr>)
    ensures r == FirstAddress(Attributes(payload, 20))
  {
    hide *;
    var offset := 20;
    while offset + 4 <= |payload|
      invariant offset % 4 == 0
      invariant FirstAddress(Attributes(payload, 20)) == FirstAddress(Attributes(payload, offset))
      decreases |payload| - offset
    {
      var attrType := U16(payload, offset);
      var attrLen := U16(payload, offset + 2);
      var valueStart := offset + 4;
      var valueEnd := valueStart + attrLen;
      if valueEnd > |payload| {
        break;
      }
      NextAttribute(payload, offset);
      var addr := ParseAttribute(attrType, payload[valueStart..valueEnd]);
      if addr.Some? {
        return Ok(addr.value);
      }
      PaddingFormulasAgree(offset, attrLen);
      offset := NextMultipleOf4(valueEnd);
    }
    NoMoreAttributes(payload, offset);
    return Err(NoAddress);
  }

  /** `build_stun_binding_request`, with the twelve random bytes given. */
  method BuildStunBindingRequest(tx: seq<byte>) returns (request: seq<byte>)
    requires |tx| == 12
    ensures |request| == 20 && request[..2] == [0x00, 0x01] && request[2..4] == [0, 0]
    ensures request[4..8] == COOKIE && request[8..20] == tx
  {
    request := seq(20, _ => 0 as byte);
    request := request[0 := 0x00];
    request := request[1 := 0x01];
    request := request[..4] + BE(MAGIC, 4) + request[8..];
    request := request[..8] + tx;
    CookieIsMagic();
    FromBEInverse(COOKIE);
    assert request == [0, 1] + [0, 0] + COOKIE + tx;
  }

  method ParseStunBindingResponse(request: seq<byte>, payload: seq<byte>) returns (r: Result<Addr>)
    requires |request| == 20
    ensures r == Response(request[8..20], payload)
    ensures RefusesExactly(request[8..20], payload, r)
  {
    ResponseRefuses(request[8..20], payload);
    hide RefusesExactly;
    if |payload| < 20 {
      return Err(TooShort);
    }
    if U16(payload, 0) != BINDING_RESPONSE {
      return Err(UnexpectedType);
    }
    if payload[8..20] != request[8..20] {
      return Err(TransactionMismatch);
    }
    r := ScanPayload(payload);
  }

  // src/stun.rs

  /** The message cut where its header says the attributes end. */
  function CutAtHeader(p: seq<byte>): seq<byte> {
    if |p| < 20 then p else p[..Min(20 + U16(p, 2), |p|)]
  }

  /** Word-wise and byte-wise exclusive-or decode the same four octets. */
  lemma WordXorIsByteXor(a: seq<byte>, k: seq<byte>)
    requires |a| == |k|
    ensures BE(Xor(FromBE(a), FromBE(k)), |a|) == XorBytes(a, k)
  {
    WordXorBySnoc(a, k);
  }

  lemma HighAndLow(high: nat, low: nat)
    requires low < 256
    ensures (high * 256 + low) / 256 == high && (high * 256 + low) % 256 == low
  {
  }

  lemma {:induction false} WordXorBySnoc(a: seq<byte>, k: seq<byte>)
    requires |a| == |k|
    ensures BE(Xor(FromBE(a), FromBE(k)), |a|) == XorBytes(a, k)
  {
    if a != [] {
      var n := |a| - 1;
      var al, kl := a[n], k[n];
      WordXorBySnoc(a[..n], k[..n]);
      XorSplit(FromBE(a[..n]), al, FromBE(k[..n]), kl);
      XorByteRange(al, kl);
      var high, low := Xor(FromBE(a[..n]), FromBE(k[..n])), Xor(al, kl);
      HighAndLow(high, low);
      XorBytesSnoc(a, k);
    }
  }

  lemma {:induction false} XorBytesSnoc(a: seq<byte>, k: seq<byte>)
    requires |a| == |k| && a != []
    ensures var n := |a| - 1;
      Xor(a[n], k[n]) < 256 && XorBytes(a, k) == XorBytes(a[..n], k[..n]) + [Xor(a[n], k[n])]
  {
    var n := |a| - 1;
    XorByteRange(a[n], k[n]);
    hide Xor;
    if n > 0 {
      XorBytesSnoc(a[1..], k[1..]);
      assert a[1..][..n - 1] == a[..n][1..] && k[1..][..n - 1] == k[..n][1..];
    } else {
      assert a[1..] == [] && a[..0] == [];
    }
  }

  lemma SubSlice(s: seq<byte>, start: nat, n: nat, i: nat, j: nat)
    requires start + n <= |s| && i <= j <= n
    ensures s[start..start + n][i..j] == s[start + i..start + j]
  {
    var v := s[start..start + n];
    forall k | i <= k < j ensures v[k] == s[start + k] {
    }
  }

  lemma HeaderOfCut(p: seq<byte>)
    requires |p| >= 20
    ensures var cut := CutAtHeader(p);
      |cut| >= 20 && cut == p[..Min(20 + U16(p, 2), |p|)] && U16(cut, 0) == U16(p, 0) && cut[8..20] == p[8..20]
  {
  }

  /** Cutting at the header's length changes no verdict on the header. */
  lemma CutRefuses(tx: seq<byte>, p: seq<byte>)
    ensures RefusesExactly(tx, p, Response(tx, CutAtHeader(p)))
  {
    ResponseRefuses(tx, CutAtHeader(p));
    if |p| >= 20 {
      HeaderOfCut(p);
      assert CutAtHeader(p)[0] == p[0] && CutAtHeader(p)[1] == p[1];
    }
    hide Response, CutAtHeader;
  }

  /** The two attribute branches, on the receive buffer itself. */
  function ReadAttribute(buf: seq<byte>, attrType: nat, attrStart: nat, attrLen: nat): (r: Option<Addr>)
    requires attrStart + attrLen <= |buf|
    ensures r == AddressOf(Attr(attrType, buf[attrStart..attrStart + attrLen]))
  {
    var value := buf[attrStart..attrStart + attrLen];
    if attrType == XOR_MAPPED_ADDRESS && attrLen >= 8 && buf[attrStart + 1] == 0x01 then
      var octets := buf[attrStart + 4..attrStart + 8];
      SubSlice(buf, attrStart, attrLen, 4, 8);
      CookieIsMagic();
      WordXorIsByteXor(octets, COOKIE);
      Some(Addr(BE(Xor(FromBE(octets), MAGIC), 4), Xor(U16(buf, attrStart + 2), MAGIC / TWO16)))
    else if attrType == MAPPED_ADDRESS && attrLen >= 8 && buf[attrStart + 1] == 0x01 then
      var ip := [buf[attrStart + 4], buf[attrStart + 5], buf[attrStart + 6], buf[attrStart + 7]];
      SubSlice(buf, attrStart, attrLen, 4, 8);
      assert ip == buf[attrStart + 4..attrStart + 8];
      Some(Addr(ip, U16(buf, attrStart + 2)))
    else None
  }

  /** The attribute loop of `stun_binding_request`, over the first `attrsEnd` bytes of the receive buffer. */
  method ScanBuffer(buf: seq<byte>, attrsEnd: nat) returns (r: Result<Addr>)
    requires attrsEnd <= |buf|
    ensures r == FirstAddress(Attributes(buf[..attrsEnd], 20))
  {
    hide *;
    ghost var p := buf[..attrsEnd];
    var offset := 20;
    while offset + 4 <= attrsEnd
      invariant FirstAddress(Attributes(p, 20)) == FirstAddress(Attributes(p, offset))
      decreases attrsEnd - offset
    {
      var attrType := U16(buf, offset);
      var attrLen := U16(buf, offset + 2);
      var attrStart := offset + 4;
      var attrEnd := attrStart + attrLen;
      SameU16(buf, attrsEnd, offset);
      SameU16(buf, attrsEnd, offset + 2);
      if attrEnd > attrsEnd {
        break;
      }
      NextAttribute(p, offset);
      SubSlice(buf, 0, attrsEnd, attrStart, attrEnd);
      var addr := ReadAttribute(buf, attrType, attrStart, attrLen);
      if addr.Some? {
        return Ok(addr.value);
      }
      OtherFormula(attrLen);
      offset := attrEnd + (4 - attrLen % 4) % 4;
    }
    NoMoreAttributes(p, offset);
    return Err(NoAddress);
  }

  method StunBindingResponse(txId: seq<byte>, buf: seq<byte>, len: nat) returns (r: Result<Addr>)
    requires |txId| == 12 && len <= |buf|
    ensures r == Response(txId, CutAtHeader(buf[..len]))
    ensures RefusesExactly(txId, buf[..len], r)
  {
    CutRefuses(txId, buf[..len]);
    hide RefusesExactly;
    if len < 20 {
      return Err(TooShort);
    }
    HeaderOfCut(buf[..len]);
    HeaderOfBuffer(buf, len);
    hide U16, Attributes, FirstAddress, CutAtHeader;
    if U16(buf, 0) != BINDING_RESPONSE {
      return Err(UnexpectedType);
    }
    if buf[8..20] != txId {
      return Err(TransactionMismatch);
    }
    var attrsLen := U16(buf, 2);
    var attrsEnd := Min(20 + attrsLen, len);
    r := ScanBuffer(buf, attrsEnd);
  }

  lemma HeaderOfBuffer(buf: seq<byte>, len: nat)
    requires 20 <= len <= |buf|
    ensures U16(buf[..len], 0) == U16(buf, 0) && buf[..len][8..20] == buf[8..20]
    ensures CutAtHeader(buf[..len]) == buf[..Min(20 + U16(buf, 2), len)]
  {
    assert buf[0..len] == buf[..len];
    SubSlice(buf, 0, len, 8, 20);
  }

  lemma SameU16(buf: seq<byte>, end: nat, i: nat)
    requires i + 1 < end <= |buf|
    ensures U16(buf[..end], i) == U16(buf, i)
  {
  }

  lemma OtherFormula(n: nat)
    ensures (4 - n % 4) % 4 == Padding(n)
  {
  }

  lemma CookieIsMagic()
    ensures FromBE(COOKIE) == MAGIC
  {
    assert COOKIE[..3] == [0x21, 0x12, 0xA4];
    assert COOKIE[..3][..2] == [0x21, 0x12];
    assert COOKIE[..3][..2][..1] == [0x21];
    assert FromBE(COOKIE[..3][..2][..1]) == 0x21;
    assert FromBE(COOKIE[..3][..2]) == 0x2112;
    assert FromBE(COOKIE[..3]) == 0x2112A4;
  }

  /** The two parsers are one function, the second being the first on the message cut at the length its header gives. */
  method BothParsers(request: seq<byte>, buf: seq<byte>, len: nat) returns (first: Result<Addr>, second: Result<Addr>)
    requires |request| == 20 && len <= |buf|
    ensures first == second
  {
    second := StunBindingResponse(request[8..20], buf, len);
    first := ParseStunBindingResponse(request, CutAtHeader(buf[..len]));
  }

  // Encoding

  /** One attribute on the wire: type, length, value, and padding whose content does not matter. */
  datatype WireAttr = WireAttr(attr: Attr, padding: seq<byte>) {
    predicate Valid() {
      attr.kind < TWO16 && |attr.value| < TWO16 && |padding| == Padding(|attr.value|)
    }
  }

  function EncodeAttr(w: WireAttr): seq<byte> {
    BE(w.attr.kind, 2) + BE(|w.attr.value|, 2) + w.attr.value + w.padding
  }

  function EncodeAttrs(ws: seq<WireAttr>): seq<byte> {
    if ws == [] then [] else EncodeAttr(ws[0]) + EncodeAttrs(ws[1..])
  }

  function Plain(ws: seq<WireAttr>): seq<Attr> {
    if ws == [] then [] else [ws[0].attr] + Plain(ws[1..])
  }

  /** A binding response; neither parser looks at the four cookie bytes. */
  function EncodeResponse(cookie: seq<byte>, tx: seq<byte>, ws: seq<WireAttr>): seq<byte> {
    BE(BINDING_RESPONSE, 2) + BE(|EncodeAttrs(ws)|, 2) + cookie + tx + EncodeAttrs(ws)
  }

  lemma TwoBytes(n: nat)
    requires n < TWO16
    ensures (BE(n, 2)[0] as int) * 256 + BE(n, 2)[1] == n
  {
    assert BE(n, 2) == BE(n / 256, 1) + [n % 256];
    assert BE(n / 256, 1) == BE(n / 256 / 256, 0) + [(n / 256) % 256];
  }

  lemma EncodeAttrParts(w: WireAttr)
    requires w.Valid()
    ensures var e, n := EncodeAttr(w), |w.attr.value|;
      |e| == 4 + n + Padding(n) && U16(e, 0) == w.attr.kind && U16(e, 2) == n && e[4..4 + n] == w.attr.value
  {
    TwoBytes(w.attr.kind);
    TwoBytes(|w.attr.value|);
  }

  lemma Inside(head: seq<byte>, mid: seq<byte>, tail: seq<byte>, n: nat)
    requires 4 + n <= |mid|
    ensures var p := head + mid + tail;
      U16(p, |head|) == U16(mid, 0) && U16(p, |head| + 2) == U16(mid,
        2) && p[|head| + 4..|head| + 4 + n] == mid[4..4 + n]
  {
    var p := head + mid + tail;
    forall i | 0 <= i < |mid| ensures p[|head| + i] == mid[i] {
    }
  }

  lemma AttributeAt(p: seq<byte>, offset: nat, a: Attr)
    requires offset + 4 + |a.value| <= |p|
    requires U16(p, offset) == a.kind && U16(p, offset + 2) == |a.value|
    requires p[offset + 4..offset + 4 + |a.value|] == a.value
    ensures Attributes(p, offset) == [a] + Attributes(p, offset + 4 + |a.value| + Padding(|a.value|))
  {
  }

  lemma OneAttribute(head: seq<byte>, w: WireAttr, tail: seq<byte>)
    requires w.Valid()
    ensures var p, next := head + EncodeAttr(w) + tail, |head + EncodeAttr(w)|;
      Attributes(p, |head|) == [w.attr] + Attributes(p, next)
  {
    EncodeAttrParts(w);
    Inside(head, EncodeAttr(w), tail, |w.attr.value|);
    hide *;
    AttributeAt(head + EncodeAttr(w) + tail, |head|, w.attr);
  }

  lemma {:induction false} AttributesOfEncoding(head: seq<byte>, ws: seq<WireAttr>)
    requires forall w :: w in ws ==> w.Valid()
    ensures Attributes(head + EncodeAttrs(ws), |head|) == Plain(ws)
    decreases |ws|
  {
    if ws != [] {
      var w := ws[0];
      assert w in ws && w.Valid();
      var rest := head + EncodeAttr(w);
      Associates(head, EncodeAttr(w), EncodeAttrs(ws[1..]));
      OneAttribute(head, w, EncodeAttrs(ws[1..]));
      AttributesOfEncoding(rest, ws[1..]);
      hide EncodeAttr, Attributes;
    }
  }

  /**
   * Correctness against the standard: from any encoded attribute list both parsers return the address of the first
   * attribute that is an IPv4 MAPPED-ADDRESS or XOR-MAPPED-ADDRESS of at least eight bytes, or the error that there is
   * none. (`Response` on the whole message is the first parser's result; the header's length makes the cut the
   * identity.)
   */
  lemma ResponseOfEncoding(cookie: seq<byte>, tx: seq<byte>, ws: seq<WireAttr>)
    requires |cookie| == 4 && |tx| == 12 && |EncodeAttrs(ws)| < TWO16
    requires forall w :: w in ws ==> w.Valid()
    ensures var p := EncodeResponse(cookie, tx, ws);
      && Response(tx, p) == FirstAddress(Plain(ws))
      && CutAtHeader(p) == p
      && (forall extra: seq<byte> :: CutAtHeader(p + extra) == p)
  {
    var p := EncodeResponse(cookie, tx, ws);
    TwoBytes(BINDING_RESPONSE);
    TwoBytes(|EncodeAttrs(ws)|);
    HeaderParts(BE(BINDING_RESPONSE, 2), BE(|EncodeAttrs(ws)|, 2), cookie, tx, EncodeAttrs(ws));
    AttributesOfEncoding(p[..20], ws);
    forall extra: seq<byte> ensures CutAtHeader(p + extra) == p {
      CutWhole(p, extra);
    }
    CutWhole(p, []);
    assert p + [] == p;
    hide BE, EncodeAttrs, Attributes, CutAtHeader, Plain;
  }

  lemma HeaderParts(kind: seq<byte>, len: seq<byte>, cookie: seq<byte>, tx: seq<byte>, body: seq<byte>)
    requires |kind| == |len| == 2 && |cookie| == 4 && |tx| == 12
    ensures var p := kind + len + cookie + tx + body;
      && |p| == 20 + |body| && p == p[..20] + body && p[8..20] == tx
      && U16(p, 0) == U16(kind, 0) && U16(p, 2) == U16(len, 0)
  {
  }

  /** A message whose length field gives its own length is what the cut leaves of it, whatever follows. */
  lemma CutWhole(p: seq<byte>, extra: seq<byte>)
    requires |p| >= 20 && 20 + U16(p, 2) == |p|
    ensures CutAtHeader(p + extra) == p
  {
    assert U16(p + extra, 2) == U16(p, 2);
  }

  /** Attribute `i` carries `addr` and none before it carries any. */
  predicate FirstAt(attrs: seq<Attr>, i: nat, addr: Addr)
    requires i < |attrs|
  {
    AddressOf(attrs[i]) == Some(addr) && forall j :: 0 <= j < i ==> AddressOf(attrs[j]) == None
  }

  /**
   * The first address is that of the first carrying attribute, and there is none exactly when no attribute carries
   * one.
   */
  lemma FirstAtTail(attrs: seq<Attr>, i: nat, addr: Addr)
    requires attrs != [] && AddressOf(attrs[0]).None? && i + 1 < |attrs| && FirstAt(attrs[1..], i, addr)
    ensures FirstAt(attrs, i + 1, addr)
  {
    var rest := attrs[1..];
    forall j | 0 <= j < i + 1 ensures AddressOf(attrs[j]) == None {
      assert j > 0 ==> attrs[j] == rest[j - 1];
    }
  }

  lemma {:induction false} FirstAddressIsFirst(attrs: seq<Attr>)
    ensures match FirstAddress(attrs)
      case Ok(addr) => exists i :: 0 <= i < |attrs| && FirstAt(attrs, i, addr)
      case Err(e) => e == NoAddress && forall i :: 0 <= i < |attrs| ==> AddressOf(attrs[i]) == None
  {
    if attrs != [] && AddressOf(attrs[0]).Some? {
      assert FirstAt(attrs, 0, FirstAddress(attrs).value);
    } else if attrs != [] {
      var rest := attrs[1..];
      FirstAddressIsFirst(rest);
      match FirstAddress(rest)
      case Ok(addr) =>
        var i :| 0 <= i < |rest| && FirstAt(rest, i, addr);
        FirstAtTail(attrs, i, addr);
        assert FirstAddress(attrs) == Ok(addr);
      case Err(_) =>
        forall j | 0 <= j < |attrs| ensures AddressOf(attrs[j]) == None {
          assert j > 0 ==> attrs[j] == rest[j - 1];
        }
    }
  }

  function EncodeMapped(reserved: byte, a: Addr): seq<byte> {
    [reserved, IPV4] + BE(a.port, 2) + a.ip
  }

  function EncodeXorMapped(reserved: byte, a: Addr): seq<byte>
    requires |a.ip| == 4
  {
    [reserved, IPV4] + BE(Xor(a.port, MAGIC / TWO16), 2) + XorBytes(a.ip, COOKIE)
  }

  lemma {:induction false} XorBytesInvolution(a: seq<byte>, k: seq<byte>)
    requires |a| == |k|
    ensures XorBytes(XorBytes(a, k), k) == a
  {
    if a != [] {
      XorInvolution(a[0], k[0]);
      hide Xor;
      XorBytesInvolution(a[1..], k[1..]);
      assert XorBytes(a, k)[1..] == XorBytes(a[1..], k[1..]);
    }
  }

  /** Decoding inverts both encodings for every port and address, whatever follows the eight bytes. */
  lemma AddressRoundTrip(reserved: byte, a: Addr, extra: seq<byte>)
    requires |a.ip| == 4 && a.port < TWO16
    ensures AddressOf(Attr(MAPPED_ADDRESS, EncodeMapped(reserved, a) + extra)) == Some(a)
    ensures AddressOf(Attr(XOR_MAPPED_ADDRESS, EncodeXorMapped(reserved, a) + extra)) == Some(a)
  {
    var key := MAGIC / TWO16;
    TwoBytes(a.port);
    assert (EncodeMapped(reserved, a) + extra)[4..8] == a.ip;
    SixteenBits();
    XorBound(a.port, key, 16);
    XorInvolution(a.port, key);
    XorBytesInvolution(a.ip, COOKIE);
    TwoBytes(Xor(a.port, key));
    hide Xor;
    var v := EncodeXorMapped(reserved, a) + extra;
    assert v[4..8] == XorBytes(a.ip, COOKIE);
    assert U16(v, 2) == Xor(a.port, key);
  }

  lemma SixteenBits()
    ensures Pow(2, 16) == TWO16
  {
    assert Pow(2, 4) == 16;
    assert Pow(2, 7) == 8 * Pow(2, 4);
    assert Pow(2, 10) == 8 * Pow(2, 7);
    assert Pow(2, 13) == 8 * Pow(2, 10);
    assert Pow(2, 16) == 8 * Pow(2, 13);
  }

  /** An attribute carries an address exactly when it is one of the two encodings of it, whatever follows. */
  lemma AddressExactly(a: Attr, addr: Addr)
    ensures AddressOf(a) == Some(addr) <==>
      && |addr.ip| == 4 && addr.port < TWO16 && |a.value| >= 8
      && (a.kind == 0x0001 || a.kind == 0x0020)
      && (a.kind == 0x0001 ==> a.value[..8] == EncodeMapped(a.value[0], addr))
      && (a.kind == 0x0020 ==> a.value[..8] == EncodeXorMapped(a.value[0], addr))
  {
    if |a.value| >= 8 && (a.kind == 0x0001 || a.kind == 0x0020) {
      var v := a.value;
      if AddressOf(a) == Some(addr) {
        DecodedEncodes(a, addr);
      }
      if |addr.ip| == 4 && addr.port < TWO16 {
        AddressRoundTrip(v[0], addr, v[8..]);
        assert v == v[..8] + v[8..];
      }
    }
    hide Xor;
  }

  lemma DecodedEncodes(a: Attr, addr: Addr)
    requires AddressOf(a) == Some(addr)
    ensures |addr.ip| == 4 && addr.port < TWO16 && |a.value| >= 8
    ensures a.value[..8] ==
      if a.kind == 0x0001 then EncodeMapped(a.value[0], addr) else EncodeXorMapped(a.value[0], addr)
  {
    var v := a.value;
    TwoBytesBack(v[2], v[3]);
    var port := U16(v, 2);
    if a.kind == 0x0020 {
      SixteenBits();
      XorBound(port, MAGIC / TWO16, 16);
      XorInvolution(port, MAGIC / TWO16);
      XorBytesInvolution(v[4..8], COOKIE);
    }
    hide Xor, XorBytes, BE;
    assert v[..8] == [v[0], v[1]] + [v[2], v[3]] + v[4..8];
  }

  lemma TwoBytesBack(high: byte, low: byte)
    ensures BE((high as int) * 256 + low, 2) == [high, low]
  {
    var n := (high as int) * 256 + low;
    assert BE(n, 2) == BE(n / 256, 1) + [n % 256];
    assert BE(n / 256, 1) == BE(n / 256 / 256, 0) + [(n / 256) % 256];
  }
}
