/**
 * The Bedrock discovery reply: built in src/bedrock_broadcaster.rs, read in src/discovery.rs and src/minecraft.rs.
 * Text is UTF-8 bytes; `lossy` is `String::from_utf8_lossy`.
 */
module RakNetPong {
  import opened Bytes
  import opened Options

  const SEMICOLON: byte := 59
  const SLASH: byte := 47
  const PLUS: byte := 43
  const MAGIC: seq<byte> :=
    [0x00, 0xff, 0xff, 0x00, 0xfe, 0xfe, 0xfe, 0xfe, 0xfd, 0xfd, 0xfd, 0xfd, 0x12, 0x34, 0x56, 0x78]
  const SERVER_GUID: nat := 1234567890

  // Splitting and joining

  /** `str::split` on one ASCII character: never empty, one piece more than there are separators. */
  function Split(s: seq<byte>, sep: byte): (parts: seq<seq<byte>>)
    ensures |parts| >= 1
  {
    if s == [] then [[]]
    else
      var rest := Split(s[1..], sep);
      if s[0] == sep then [[]] + rest else [[s[0]] + rest[0]] + rest[1..]
  }

  function Join(fields: seq<seq<byte>>, sep: byte): seq<byte>
    requires fields != []
  {
    if |fields| == 1 then fields[0] else fields[0] + ([sep] + Join(fields[1..], sep))
  }

  lemma {:induction false} SplitField(field: seq<byte>, rest: seq<byte>, sep: byte)
    requires sep !in field
    ensures Split(field, sep) == [field]
    ensures Split(field + ([sep] + rest), sep) == [field] + Split(rest, sep)
  {
    var s := field + ([sep] + rest);
    if field == [] {
      assert s[1..] == rest;
    } else {
      SplitField(field[1..], rest, sep);
      assert s[1..] == field[1..] + ([sep] + rest);
      assert [field[0]] + field[1..] == field;
    }
  }

  /** Splitting undoes joining when no field holds the separator. */
  lemma {:induction false} SplitJoin(fields: seq<seq<byte>>, sep: byte)
    requires fields != [] && forall f :: f in fields ==> sep !in f
    ensures Split(Join(fields, sep), sep) == fields
  {
    assert fields[0] in fields;
    if |fields| == 1 {
      SplitField(fields[0], [], sep);
    } else {
      SplitField(fields[0], Join(fields[1..], sep), sep);
      SplitJoin(fields[1..], sep);
    }
  }

  /** And joining undoes splitting: every text is its pieces, none of which holds the separator. */
  lemma {:induction false} JoinSplit(s: seq<byte>, sep: byte)
    ensures Join(Split(s, sep), sep) == s
    ensures forall p :: p in Split(s, sep) ==> sep !in p
  {
    if s != [] {
      JoinSplit(s[1..], sep);
      var rest := Split(s[1..], sep);
      assert s == [s[0]] + s[1..];
      if s[0] == sep {
        assert ([[]] + rest)[1..] == rest;
        assert [] + ([sep] + Join(rest, sep)) == s;
      } else {
        var parts := [[s[0]] + rest[0]] + rest[1..];
        assert parts[1..] == rest[1..];
        if |rest| > 1 {
          Associates([s[0]], rest[0], [sep] + Join(rest[1..], sep));
        }
      }
    }
  }

  // Decimal numbers

  function Decimal(n: nat): (s: seq<byte>)
    ensures s != []
  {
    if n < 10 then [48 + n] else Decimal(n / 10) + [48 + n % 10]
  }

  function Digits(s: seq<byte>): Option<nat> {
    if s == [] then Some(0)
    else
      var d := s[|s| - 1];
      match Digits(s[..|s| - 1])
      case Some(n) => if 48 <= d <= 57 then Some(n * 10 + (d - 48)) else None
      case None => None
  }

  /** `str::parse` for an unsigned type: an optional plus sign, then digits, at most `max`. */
  function ParseUnsigned(s: seq<byte>, max: nat): Option<nat> {
    var digits := if |s| > 1 && s[0] == PLUS then s[1..] else s;
    if digits == [] then None
    else
      match Digits(digits)
      case Some(n) => if n <= max then Some(n) else None
      case None => None
  }

  function ParseOr(s: seq<byte>, max: nat, default: nat): nat {
    match ParseUnsigned(s, max) case Some(n) => n case None => default
  }

  lemma {:induction false} DecimalIsDigits(n: nat)
    ensures Digits(Decimal(n)) == Some(n)
    ensures forall i :: 0 <= i < |Decimal(n)| ==> 48 <= Decimal(n)[i] <= 57
  {
    if n < 10 {
      assert Decimal(n)[..0] == [];
    } else {
      DecimalIsDigits(n / 10);
      assert Decimal(n)[..|Decimal(n)| - 1] == Decimal(n / 10);
    }
  }

  lemma ParseDecimal(n: nat, max: nat)
    ensures ParseUnsigned(Decimal(n), max) == if n <= max then Some(n) else None
    ensures SEMICOLON !in Decimal(n) && SLASH !in Decimal(n)
  {
    DecimalIsDigits(n);
  }

  // The broadcaster

  /** ASCII text as bytes. */
  function Ascii(s: string): (b: seq<byte>)
    requires forall i :: 0 <= i < |s| ==> s[i] < 128 as char
    ensures |b| == |s| && forall i :: 0 <= i < |s| ==> b[i] == s[i] as int
  {
    seq(|s|, i requires 0 <= i < |s| => s[i] as int)
  }

  /** The current and maximum player texts out of the slots text. */
  function Players(slots: seq<byte>): (seq<byte>, seq<byte>) {
    var parts := Split(slots, SLASH);
    if |parts| == 2 then (parts[0], parts[1]) else (Ascii("0"), Ascii("30"))
  }

  /** Exactly one slash makes two counts; any other number of slashes gives 0 and 30. */
  lemma PlayersExactly(pieces: seq<seq<byte>>)
    requires pieces != [] && forall p :: p in pieces ==> SLASH !in p
    ensures Players(Join(pieces, SLASH)) ==
      if |pieces| == 2 then (pieces[0], pieces[1]) else ([48], [51, 48])
  {
    SplitJoin(pieces, SLASH);
    DefaultCounts();
    hide Split, Join, Ascii;
  }

  lemma DefaultCounts()
    ensures Ascii("0") == [48] && Ascii("30") == [51, 48]
  {
  }

  lemma PlayersOfDecimals(online: nat, most: nat)
    ensures Players(Decimal(online) + ([SLASH] + Decimal(most))) == (Decimal(online), Decimal(most))
  {
    ParseDecimal(online, 0);
    ParseDecimal(most, 0);
    SplitField(Decimal(online), Decimal(most), SLASH);
    SplitField(Decimal(most), [], SLASH);
  }

  datatype Room = Room(room: seq<byte>, host: seq<byte>, version: seq<byte>, slots: seq<byte>, proxyPort: nat) {
    predicate Plain() {
      && SEMICOLON !in room && SEMICOLON !in host && SEMICOLON !in version && SEMICOLON !in slots
      && proxyPort < TWO16
    }
  }

  /** The thirteen fields of the advertisement; the last is empty because the text ends with a semicolon. */
  function Fields(r: Room): seq<seq<byte>> {
    var (players, most) := Players(r.slots);
    [Ascii("MCPE"), r.room, Ascii("776"), r.version, players, most, Ascii("1234567890"), r.host, Ascii("Survival"),
     Ascii("1"), Decimal(r.proxyPort), Ascii("19133"), []]
  }

  function Motd(r: Room): seq<byte> {
    Join(Fields(r), SEMICOLON)
  }

  function Pong(r: Room, pingTime: seq<byte>): seq<byte> {
    [0x1c] + pingTime + BE(SERVER_GUID, 8) + MAGIC + BE(|Motd(r)|, 2) + Motd(r)
  }

  /** The bytes of a pong: id, echoed time, server id 1234567890, the RakNet magic, the text's length, the text. */
  predicate LaidOut(pong: seq<byte>, pingTime: seq<byte>, motd: seq<byte>) {
    && |pong| == 35 + |motd|
    && pong[0] == 0x1c && pong[1..9] == pingTime
    && pong[9..17] == [0, 0, 0, 0, 0x49, 0x96, 0x02, 0xd2]
    && pong[17..33] ==
         [0x00, 0xff, 0xff, 0x00, 0xfe, 0xfe, 0xfe, 0xfe, 0xfd, 0xfd, 0xfd, 0xfd, 0x12, 0x34, 0x56, 0x78]
    && pong[33] == |motd| / 256 % 256 && pong[34] == |motd| % 256
    && pong[35..] == motd
  }

  lemma GuidBytes()
    ensures BE(SERVER_GUID, 8) == [0, 0, 0, 0, 0x49, 0x96, 0x02, 0xd2]
  {
    assert BE(0, 4) == [0, 0, 0, 0] by {
      assert BE(0, 3) == BE(0, 2) + [0] && BE(0, 2) == BE(0, 1) + [0] && BE(0, 1) == BE(0, 0) + [0];
    }
    assert BE(0x49, 5) == BE(0, 4) + [0x49];
    assert BE(0x4996, 6) == BE(0x49, 5) + [0x96];
    assert BE(0x499602, 7) == BE(0x4996, 6) + [0x02];
    assert BE(SERVER_GUID, 8) == BE(0x499602, 7) + [0xd2];
  }

  lemma TwoBytes(n: nat)
    ensures BE(n, 2) == [n / 256 % 256, n % 256]
  {
    assert BE(n, 2) == BE(n / 256, 1) + [n % 256];
    assert BE(n / 256, 1) == BE(n / 256 / 256, 0) + [n / 256 % 256];
  }

  lemma PongBytes(r: Room, pingTime: seq<byte>)
    requires |pingTime| == 8
    ensures LaidOut(Pong(r, pingTime), pingTime, Motd(r))
  {
    GuidBytes();
    TwoBytes(|Motd(r)|);
    SixParts([0x1c], pingTime, BE(SERVER_GUID, 8), MAGIC, BE(|Motd(r)|, 2), Motd(r));
    hide BE, Motd;
  }

  lemma SixParts(a: seq<byte>, b: seq<byte>, c: seq<byte>, d: seq<byte>, e: seq<byte>, f: seq<byte>)
    requires |a| == 1 && |b| == |c| == 8 && |d| == 16 && |e| == 2
    ensures var s := a + b + c + d + e + f;
      && |s| == 35 + |f| && s[0] == a[0] && s[1..9] == b && s[9..17] == c && s[17..33] == d
      && s[33] == e[0] && s[34] == e[1] && s[35..] == f
  {
  }

  /** The broadcaster's turn on one datagram: a pong for an unconnected ping, nothing otherwise. */
  method Answer(r: Room, buf: seq<byte>, len: nat) returns (pong: Option<seq<byte>>)
    requires len <= |buf|
    ensures pong == if len > 17 && (buf[0] == 0x01 || buf[0] == 0x02) then Some(Pong(r, buf[1..9])) else None
    ensures pong.Some? ==> LaidOut(pong.value, buf[1..9], Motd(r))
  {
    if len >= 9 {
      PongBytes(r, buf[1..9]);
    }
    hide LaidOut;
    if len > 17 && (buf[0] == 0x01 || buf[0] == 0x02) {
      var pingTime := buf[1..9];
      var out: seq<byte> := [];
      out := out + [0x1c];
      assert out == [0x1c];
      out := out + pingTime;
      out := out + BE(SERVER_GUID, 8);
      out := out + MAGIC;
      var motd := Motd(r);
      out := out + BE(|motd|, 2);
      out := out + motd;
      return Some(out);
    }
    return None;
  }

  // The two readers

  datatype ServerInfo = ServerInfo(
    name: seq<byte>, hostName: seq<byte>, mcVersion: seq<byte>, players: nat, maxPlayers: nat, port: nat)

  function ParseRaknetPong(lossy: seq<byte> -> seq<byte>, buf: seq<byte>, len: nat,
      defaultPort: nat): Option<ServerInfo>
    requires 0 < |buf| && len <= |buf|
  {
    if buf[0] == 0x1c && len > 35 then
      var parts := Split(lossy(buf[35..len]), SEMICOLON);
      if |parts| >= 6 then
        var port := if |parts| > 10 then ParseOr(parts[10], TWO16 - 1, defaultPort) else defaultPort;
        var hostName := parts[1];
        var name := if |parts| > 7 then parts[7] else [];
        Some(ServerInfo(if name == [] then hostName else name, hostName, parts[3],
          ParseOr(parts[4], TWO32 - 1, 0), ParseOr(parts[5], TWO32 - 1, 0), port))
      else None
    else None
  }

  datatype Probe = Probe(roomName: seq<byte>, hostName: seq<byte>, version: seq<byte>, online: nat, most: nat)

  function ProbeBedrock(lossy: seq<byte> -> seq<byte>, buf: seq<byte>, len: nat): Option<Probe>
    requires len <= |buf|
  {
    if len > 35 && buf[0] == 0x1c then
      var strLen := FromBE(buf[33..35]);
      if 35 + strLen <= len then
        var parts := Split(lossy(buf[35..35 + strLen]), SEMICOLON);
        if |parts| >= 6 then
          Some(Probe(parts[1], parts[1], parts[3], ParseOr(parts[4], TWO32 - 1, 0), ParseOr(parts[5], TWO32 - 1, 0)))
        else None
      else None
    else None
  }

  // Round trip

  lemma {:induction false} PiecesAvoid(s: seq<byte>, sep: byte, other: byte)
    requires other !in s
    ensures forall p :: p in Split(s, sep) ==> other !in p
  {
    if s != [] {
      PiecesAvoid(s[1..], sep, other);
    }
  }

  lemma FieldsAvoidSemicolon(r: Room)
    requires r.Plain()
    ensures forall f :: f in Fields(r) ==> SEMICOLON !in f
  {
    PiecesAvoid(r.slots, SLASH, SEMICOLON);
    ParseDecimal(r.proxyPort, 0);
    var parts := Split(r.slots, SLASH);
    if |parts| == 2 {
      assert parts[0] in parts && parts[1] in parts;
    }
  }

  lemma PongLayout(r: Room, pingTime: seq<byte>)
    requires |pingTime| == 8
    ensures var p := Pong(r, pingTime);
      |p| == 35 + |Motd(r)| && p[0] == 0x1c && p[33..35] == BE(|Motd(r)|, 2) && p[35..] == Motd(r)
  {
  }

  lemma Within(buf: seq<byte>, len: nat, i: nat, j: nat)
    requires i <= j <= len <= |buf|
    ensures buf[..len][i..j] == buf[i..j] && buf[..len][i..] == buf[i..len]
  {
  }

  lemma MotdNotEmpty(r: Room)
    ensures |Motd(r)| > 0
  {
  }

  /** The advertisement is these thirteen fields between semicolons. */
  lemma MotdFields(r: Room)
    requires r.Plain()
    ensures var (players, most) := Players(r.slots);
      Split(Motd(r), 59) ==
        [Ascii("MCPE"), r.room, Ascii("776"), r.version, players, most, Ascii("1234567890"), r.host,
         Ascii("Survival"), Ascii("1"), Decimal(r.proxyPort), Ascii("19133"), []]
  {
    FieldsAvoidSemicolon(r);
    SplitJoin(Fields(r), SEMICOLON);
  }

  /** What the discovery reader makes of the fields it finds. */
  predicate ReadFrom(fields: seq<seq<byte>>, defaultPort: nat, info: ServerInfo)
    requires |fields| >= 6
  {
    && info.hostName == fields[1] && info.mcVersion == fields[3]
    && info.name == (if |fields| > 7 && fields[7] != [] then fields[7] else fields[1])
    && info.players == ParseOr(fields[4], TWO32 - 1, 0) && info.maxPlayers == ParseOr(fields[5], TWO32 - 1, 0)
    && (|fields| <= 10 ==> info.port == defaultPort)
    && (|fields| > 10 ==> info.port == ParseOr(fields[10], TWO16 - 1, defaultPort))
  }

  /**
   * Whatever the datagram: it is taken for a pong exactly when it starts with 0x1c, has text after its 35 header bytes
   * and at least six fields there; and with ten fields or fewer the port asked about stands in for the one advertised.
   */
  lemma ParsesExactly(lossy: seq<byte> -> seq<byte>, buf: seq<byte>, len: nat, fields: seq<seq<byte>>, defaultPort: nat)
    requires 0 < |buf| && len <= |buf| && fields != [] && forall f :: f in fields ==> SEMICOLON !in f
    requires len > 35 ==> lossy(buf[35..len]) == Join(fields, SEMICOLON)
    ensures var info := ParseRaknetPong(lossy, buf, len, defaultPort);
      && (info.Some? <==> buf[0] == 0x1c && len > 35 && |fields| >= 6)
      && (info.Some? ==> ReadFrom(fields, defaultPort, info.value))
  {
    SplitJoin(fields, SEMICOLON);
    hide Split, Join, ParseUnsigned;
  }

  /** The probe reads as far as the length field says, and the same fields; it does not look at name or port. */
  lemma ProbesExactly(lossy: seq<byte> -> seq<byte>, buf: seq<byte>, len: nat, fields: seq<seq<byte>>)
    requires len <= |buf| && fields != [] && forall f :: f in fields ==> SEMICOLON !in f
    requires var n := if len > 35 then FromBE(buf[33..35]) else 0;
      len > 35 && 35 + n <= len ==> lossy(buf[35..35 + n]) == Join(fields, SEMICOLON)
    ensures var probe := ProbeBedrock(lossy, buf, len);
      && (probe.Some? <==>
            len > 35 && buf[0] == 0x1c && 35 + FromBE(buf[33..35]) <= len && |fields| >= 6)
      && (probe.Some? ==>
            && probe.value.roomName == fields[1] && probe.value.hostName == fields[1]
            && probe.value.version == fields[3]
            && probe.value.online == ParseOr(fields[4], TWO32 - 1, 0)
            && probe.value.most == ParseOr(fields[5], TWO32 - 1, 0))
  {
    SplitJoin(fields, SEMICOLON);
    hide Split, Join, ParseUnsigned, FromBE;
  }

  /**
   * A pong received whole gives back what was advertised: room, host (the room when the host is empty), version,
   * player counts and proxy port; and, while its length field holds its length, the probe reads the same room,
   * version and counts from the same bytes.
   */
  lemma PongRoundTrip(lossy: seq<byte> -> seq<byte>, r: Room, pingTime: seq<byte>, buf: seq<byte>, len: nat,
      defaultPort: nat)
    requires r.Plain() && |pingTime| == 8 && len <= |buf| && buf[..len] == Pong(r, pingTime)
    requires lossy(Motd(r)) == Motd(r)
    ensures var (players, most) := Players(r.slots);
      var online, limit := ParseOr(players, TWO32 - 1, 0), ParseOr(most, TWO32 - 1, 0);
      && ParseRaknetPong(lossy, buf, len, defaultPort) ==
           Some(ServerInfo(if r.host == [] then r.room else r.host, r.room, r.version, online, limit, r.proxyPort))
      && (|Motd(r)| < TWO16 ==>
            ProbeBedrock(lossy, buf, len) == Some(Probe(r.room, r.room, r.version, online, limit)))
  {
    PongLayout(r, pingTime);
    MotdNotEmpty(r);
    var motd := Motd(r);
    assert len == 35 + |motd| && buf[0] == buf[..len][0];
    Within(buf, len, 35, len);
    FieldsAvoidSemicolon(r);
    ParsesExactly(lossy, buf, len, Fields(r), defaultPort);
    ParseDecimal(r.proxyPort, TWO16 - 1);
    if |motd| < TWO16 {
      PowValues();
      BERoundTrip(|motd|, 2);
      Within(buf, len, 33, 35);
      ProbesExactly(lossy, buf, len, Fields(r));
    }
    hide Split, Join, Pong, BE, FromBE, Decimal, ParseUnsigned, ParseRaknetPong, ProbeBedrock, Ascii;
  }

  /** With decimal slots below 2^32 the counts read are the counts advertised. */
  lemma CountsRoundTrip(r: Room, online: nat, most: nat)
    requires r.slots == Decimal(online) + ([SLASH] + Decimal(most)) && online < TWO32 && most < TWO32
    ensures var (players, limit) := Players(r.slots);
      ParseOr(players, TWO32 - 1, 0) == online && ParseOr(limit, TWO32 - 1, 0) == most
  {
    PlayersOfDecimals(online, most);
    ParseDecimal(online, TWO32 - 1);
    ParseDecimal(most, TWO32 - 1);
  }
}
