/**
 The packet walkers of scripts/correlate_rtps_writer_locator.py: classic PCAP records, link
 headers, IPv4, UDP and RTPS submessages.  Each walker is proved to undo an encoder written from
 the formats, and to be monotone when a capture cuts frames short.
 */
module RtpsCorrelate {
  type Byte = x: int | 0 <= x < 256
  type Bytes = seq<Byte>

  datatype Option<+T> = None | Some(value: T)
  datatype Result<+T> = Ok(value: T) | Err(error: Error)

  datatype Error =
    | ShortGid | NotHexadecimal
    | ShortHeader | NextGeneration | UnknownMagic | UnsupportedVersion
    | ShortRecordHeader | Oversized | InconsistentLengths | ShortBody

  const MAX_PACKET: nat := 16 * 1024 * 1024
  const DATA: Byte := 0x15
  const DATA_FRAG: Byte := 0x16
  const RTPS_MAGIC: Bytes := [0x52, 0x54, 0x50, 0x53]
  const EXAMPLES: nat := 32

  /** Four bytes: an address, an entity, or a 32-bit field. */
  datatype Word = Word(b0: Byte, b1: Byte, b2: Byte, b3: Byte)

  function WordAt(p: Bytes, i: nat): Word
    requires i + 4 <= |p|
  {
    Word(p[i], p[i + 1], p[i + 2], p[i + 3])
  }

  function BytesOf(w: Word): Bytes {
    [w.b0, w.b1, w.b2, w.b3]
  }

  // ----- Integers in bytes -----

  function U16(first: nat, second: nat, little: bool): nat {
    if little then first + 256 * second else 256 * first + second
  }

  function PutU16(n: nat, little: bool): (b: Bytes)
    requires n < 0x1_0000
    ensures |b| == 2 && U16(b[0], b[1], little) == n
  {
    if little then [n % 256, n / 256] else [n / 256, n % 256]
  }

  function U32(w: Word, little: bool): nat {
    if little then U16(w.b0, w.b1, true) + 0x1_0000 * U16(w.b2, w.b3, true)
    else 0x1_0000 * U16(w.b0, w.b1, false) + U16(w.b2, w.b3, false)
  }

  function PutU32(n: nat, little: bool): (w: Word)
    requires n < 0x1_0000_0000
    ensures U32(w, little) == n
  {
    var low, high := PutU16(n % 0x1_0000, little), PutU16(n / 0x1_0000, little);
    if little then Word(low[0], low[1], high[0], high[1]) else Word(high[0], high[1], low[0], low[1])
  }

  // ----- RTPS submessages (sections 9.4.5.1, 9.4.5.3 and 9.4.5.4 of DDSI-RTPS) -----

  predicate IsData(id: Byte) {
    id == DATA || id == DATA_FRAG
  }

  function LengthAt(p: Bytes, offset: nat): nat
    requires offset + 4 <= |p|
  {
    U16(p[offset + 2], p[offset + 3], p[offset + 1] % 2 == 1)
  }

  /** The submessage at an offset names its writer: the field is declared and captured. */
  predicate NamesWriter(p: Bytes, offset: nat)
    requires offset + 4 <= |p|
  {
    var length := LengthAt(p, offset);
    IsData(p[offset]) && (length == 0 || length >= 12) && offset + 16 <= |p|
  }

  /** What one step of the walk finds: a writer, perhaps, and where the next submessage starts. */
  datatype Head = Head(writer: Option<Word>, next: Option<nat>)

  function HeadAt(p: Bytes, offset: nat): (h: Head)
    ensures h.next.Some? ==> offset < h.next.value <= |p|
  {
    if offset + 4 > |p| then Head(None, None)
    else
      var length := LengthAt(p, offset);
      Head(
        if NamesWriter(p, offset) then Some(WordAt(p, offset + 12)) else None,
        if length == 0 || offset + 4 + length > |p| then None else Some(offset + 4 + length))
  }

  function Cons(writer: Option<Word>, rest: seq<Word>): seq<Word> {
    if writer.Some? then [writer.value] + rest else rest
  }

  /** The writers met by following the heads that a reader finds; a reader that does not advance stops. */
  function Walk(p: Bytes, offset: nat, read: (Bytes, nat) -> Head): seq<Word>
    decreases |p| - offset
  {
    var h := read(p, offset);
    Cons(h.writer, if h.next.Some? && offset < h.next.value <= |p| then Walk(p, h.next.value, read) else [])
  }

  predicate IsRtps(p: Bytes) {
    |p| >= 20 && p[..4] == RTPS_MAGIC
  }

  function WriterIds(p: Bytes): seq<Word> {
    if IsRtps(p) then Walk(p, 20, HeadAt) else []
  }

  function Found(found: seq<Word>, writer: Option<Word>): seq<Word> {
    if writer.Some? then found + [writer.value] else found
  }

  /** The walk with what was found before it. */
  function WalkFrom(p: Bytes, offset: nat, read: (Bytes, nat) -> Head, found: seq<Word>): seq<Word>
    decreases |p| - offset
  {
    var h := read(p, offset);
    if h.next.Some? && offset < h.next.value <= |p| then WalkFrom(p, h.next.value, read, Found(found, h.writer))
    else Found(found, h.writer)
  }

  lemma {:induction false} WalkFromAppends(p: Bytes, offset: nat, read: (Bytes, nat) -> Head, found: seq<Word>)
    ensures WalkFrom(p, offset, read, found) == found + Walk(p, offset, read)
    decreases |p| - offset
  {
    var h := read(p, offset);
    var goesOn := h.next.Some? && offset < h.next.value <= |p|;
    if goesOn {
      WalkFromAppends(p, h.next.value, read, Found(found, h.writer));
    }
    var rest := if goesOn then Walk(p, h.next.value, read) else [];
    assert found + Cons(h.writer, rest) == Found(found, h.writer) + rest;
  }

  ghost predicate ReadsHeads(p: Bytes, read: (Bytes, nat) -> Head) {
    forall offset: nat {:trigger HeadAt(p, offset)} :: read(p, offset) == HeadAt(p, offset)
  }

  lemma ReadsHead(p: Bytes, offset: nat, read: (Bytes, nat) -> Head)
    requires offset + 4 <= |p| && ReadsHeads(p, read)
    ensures read(p, offset).writer == if NamesWriter(p, offset) then Some(WordAt(p, offset + 12)) else None
    ensures var length := LengthAt(p, offset);
      read(p, offset).next == if length == 0 || offset + 4 + length > |p| then None else Some(offset + 4 + length)
  {
    var h := HeadAt(p, offset);
  }

  lemma ReadsNothing(p: Bytes, offset: nat, read: (Bytes, nat) -> Head)
    requires |p| < offset + 4 && ReadsHeads(p, read)
    ensures read(p, offset) == Head(None, None)
  {
    var h := HeadAt(p, offset);
  }

  method RtpsDataWriterIds(payload: Bytes) returns (writers: seq<Word>)
    ensures writers == WriterIds(payload)
  {
    if |payload| < 20 || payload[..4] != RTPS_MAGIC { return []; }
    writers := WalkSubmessages(payload, HeadAt);
    WalkFromAppends(payload, 20, HeadAt, []);
  }

  method WalkSubmessages(payload: Bytes, ghost read: (Bytes, nat) -> Head) returns (writers: seq<Word>)
    requires ReadsHeads(payload, read)
    ensures writers == WalkFrom(payload, 20, read, [])
  {
    writers := [];
    var offset := 20;
    while offset + 4 <= |payload|
      invariant 20 <= offset
      invariant WalkFrom(payload, offset, read, writers) == WalkFrom(payload, 20, read, [])
      decreases |payload| - offset
    {
      var octetsToNext := LengthAt(payload, offset);
      var bodyStart := offset + 4;
      var bodyEnd := if octetsToNext == 0 then |payload| else bodyStart + octetsToNext;
      var isData := IsData(payload[offset]);
      var declared := octetsToNext == 0 || octetsToNext >= 12;
      var captured := |payload| >= bodyStart + 12;
      ReadsHead(payload, offset, read);
      if isData && declared && captured {
        writers := writers + [WordAt(payload, bodyStart + 8)];
      }
      if bodyEnd > |payload| { break; }
      if octetsToNext == 0 { break; }
      offset := bodyEnd;
    }
    if |payload| < offset + 4 { ReadsNothing(payload, offset, read); }
  }

  /** A submessage; the last one of a message may leave its length open. */
  datatype Submessage = Submessage(id: Byte, flags: Byte, body: Bytes, open: bool)

  predicate Encodable(ms: seq<Submessage>) {
    forall i :: 0 <= i < |ms| ==>
      if ms[i].open then i == |ms| - 1 else 1 <= |ms[i].body| < 0x1_0000
  }

  function Encode(m: Submessage): Bytes
    requires m.open || |m.body| < 0x1_0000
  {
    [m.id, m.flags] + PutU16(if m.open then 0 else |m.body|, m.flags % 2 == 1) + m.body
  }

  function EncodeAll(ms: seq<Submessage>): Bytes
    requires Encodable(ms)
  {
    if ms == [] then [] else Encode(ms[0]) + EncodeAll(ms[1..])
  }

  predicate CarriesWriter(m: Submessage) {
    IsData(m.id) && |m.body| >= 12
  }

  /** The writerEntityId follows extraFlags, octetsToInlineQos and the readerEntityId. */
  function WriterOf(m: Submessage): Option<Word> {
    if CarriesWriter(m) then Some(WordAt(m.body, 8)) else None
  }

  function Writers(ms: seq<Submessage>): seq<Word> {
    if ms == [] then [] else Cons(WriterOf(ms[0]), Writers(ms[1..]))
  }

  /** A reader that starts at an offset finds these submessages one behind the other. */
  ghost predicate Finds(p: Bytes, offset: nat, ms: seq<Submessage>, read: (Bytes, nat) -> Head)
    decreases |ms|
  {
    var h := read(p, offset);
    if ms == [] then h == Head(None, None)
    else if ms[0].open then |ms| == 1 && h == Head(WriterOf(ms[0]), None)
    else
      var next := offset + 4 + |ms[0].body|;
      h == Head(WriterOf(ms[0]), Some(next)) && next <= |p| && Finds(p, next, ms[1..], read)
  }

  lemma {:induction false} WalkOfFound(p: Bytes, offset: nat, ms: seq<Submessage>, read: (Bytes, nat) -> Head)
    requires Finds(p, offset, ms, read)
    ensures Walk(p, offset, read) == Writers(ms)
    decreases |ms|
  {
    if ms != [] && !ms[0].open {
      WalkOfFound(p, offset + 4 + |ms[0].body|, ms[1..], read);
    }
  }

  lemma {:induction false} EncodedIsFound(p: Bytes, offset: nat, ms: seq<Submessage>, read: (Bytes, nat) -> Head)
    requires Encodable(ms) && offset <= |p| && p[offset..] == EncodeAll(ms)
    requires forall o: nat {:trigger HeadAt(p, o)} :: read(p, o) == HeadAt(p, o)
    ensures Finds(p, offset, ms, read)
    decreases |ms|
  {
    assert read(p, offset) == HeadAt(p, offset);
    if ms != [] {
      HeadOfEncoded(p, offset, ms[0], EncodeAll(ms[1..]));
      if !ms[0].open {
        EncodedIsFound(p, offset + 4 + |ms[0].body|, ms[1..], read);
      }
    }
  }

  lemma HeadOfEncoded(p: Bytes, o: nat, m: Submessage, after: Bytes)
    requires if m.open then after == [] else 1 <= |m.body| < 0x1_0000
    requires o <= |p| && p[o..] == Encode(m) + after
    ensures var next := o + 4 + |m.body|;
      next <= |p| && p[next..] == after && HeadAt(p, o) == Head(WriterOf(m), if m.open then None else Some(next))
  {
    HeaderOfEncoded(p, o, m, after);
  }

  lemma HeaderOfEncoded(p: Bytes, o: nat, m: Submessage, after: Bytes)
    requires if m.open then after == [] else 1 <= |m.body| < 0x1_0000
    requires o <= |p| && p[o..] == Encode(m) + after
    ensures |p| == o + 4 + |m.body| + |after| && LengthAt(p, o) == (if m.open then 0 else |m.body|)
    ensures NamesWriter(p, o) <==> CarriesWriter(m)
    ensures CarriesWriter(m) ==> WordAt(p, o + 12) == WordAt(m.body, 8)
    ensures p[o + 4 + |m.body|..] == after
  {
    var length := PutU16(if m.open then 0 else |m.body|, m.flags % 2 == 1);
    var rest := p[o..];
    assert p[o] == rest[0] == m.id && p[o + 1] == rest[1] == m.flags;
    assert p[o + 2] == rest[2] == length[0] && p[o + 3] == rest[3] == length[1];
    assert forall i :: 0 <= i < |m.body| ==> p[o + 4 + i] == rest[4 + i] == m.body[i];
    assert p[o + 4 + |m.body|..] == rest[4 + |m.body|..];
  }

  /** A step in front of the cut finds less, and goes on only where the whole goes on. */
  predicate IsCutHead(cut: Head, whole: Head) {
    && (cut.writer.Some? || cut.next.Some? ==> cut.writer == whole.writer)
    && (cut.next.Some? ==> cut.next == whole.next)
  }

  lemma CutHead(p: Bytes, q: Bytes, offset: nat)
    requires q <= p
    ensures IsCutHead(HeadAt(q, offset), HeadAt(p, offset))
  {
    if offset + 4 <= |q| {
      assert LengthAt(q, offset) == LengthAt(p, offset);
    }
  }

  lemma {:induction false} CutWalk(p: Bytes, q: Bytes, offset: nat, read: (Bytes, nat) -> Head)
    requires |q| <= |p| && forall o: nat :: IsCutHead(read(q, o), read(p, o))
    ensures Walk(q, offset, read) <= Walk(p, offset, read)
    decreases |q| - offset
  {
    var h := read(q, offset);
    assert IsCutHead(h, read(p, offset));
    if h.next.Some? && offset < h.next.value <= |q| {
      CutWalk(p, q, h.next.value, read);
    }
  }

  /** For every payload and every cut, the writers found are the first of those in the whole. */
  lemma TruncationKeepsPrefix(p: Bytes, q: Bytes)
    requires q <= p
    ensures WriterIds(q) <= WriterIds(p)
  {
    if |q| >= 20 {
      assert q[..4] == p[..4];
      forall o: nat ensures IsCutHead(HeadAt(q, o), HeadAt(p, o)) {
        CutHead(p, q, o);
      }
      CutWalk(p, q, 20, HeadAt);
    }
  }

  datatype Message = Message(version: Word, prefix: Bytes, submessages: seq<Submessage>)

  predicate ValidMessage(m: Message) {
    |m.prefix| == 12 && Encodable(m.submessages)
  }

  function EncodeMessage(m: Message): Bytes
    requires ValidMessage(m)
  {
    RTPS_MAGIC + BytesOf(m.version) + m.prefix + EncodeAll(m.submessages)
  }

  /** Reading an encoded message gives the writers of its data submessages, in order. */
  lemma MessageRoundTrip(m: Message)
    requires ValidMessage(m)
    ensures var p := EncodeMessage(m);
      IsRtps(p) && p[8..20] == m.prefix && WriterIds(p) == Writers(m.submessages)
  {
    var p := EncodeMessage(m);
    assert p[20..] == EncodeAll(m.submessages);
    EncodedIsFound(p, 20, m.submessages, HeadAt);
    WalkOfFound(p, 20, m.submessages, HeadAt);
  }

  // ----- Link layers -----

  predicate IsTag(etherType: nat) {
    etherType == 0x8100 || etherType == 0x88A8 || etherType == 0x9100
  }

  const IPV4_TYPE: nat := 0x0800

  function EtherType(p: Bytes, end: nat): nat
    requires 2 <= end <= |p|
  {
    U16(p[end - 2], p[end - 1], false)
  }

  /** The payload behind an Ethernet type that ends at an offset, skipping VLAN tags. */
  function BehindTags(p: Bytes, offset: nat): Option<Bytes>
    requires 2 <= offset <= |p|
    decreases |p| - offset
  {
    if IsTag(EtherType(p, offset)) then if |p| < offset + 4 then None else BehindTags(p, offset + 4)
    else if EtherType(p, offset) == IPV4_TYPE then Some(p[offset..])
    else None
  }

  function LinkPayload(link: nat, p: Bytes): Option<Bytes> {
    if link == 1 then if |p| < 14 then None else BehindTags(p, 14)
    else if link == 113 then if |p| < 16 || EtherType(p, 16) != IPV4_TYPE then None else Some(p[16..])
    else if link == 276 then if |p| < 20 || EtherType(p, 2) != IPV4_TYPE then None else Some(p[20..])
    else if link == 101 || link == 228 then Some(p)
    else if link == 0 && |p| >= 4 && (WordAt(p, 0) == Word(2, 0, 0, 0) || WordAt(p, 0) == Word(0, 0, 0, 2)) then Some(p[4..])
    else None
  }

  method Ipv4Payload(link: nat, packet: Bytes) returns (r: Option<Bytes>)
    ensures r == LinkPayload(link, packet)
  {
    if link == 1 {
      if |packet| < 14 { return None; }
      var offset := 14;
      var etherType := U16(packet[12], packet[13], false);
      while etherType == 0x8100 || etherType == 0x88A8 || etherType == 0x9100
        invariant 14 <= offset <= |packet| && etherType == EtherType(packet, offset)
        invariant BehindTags(packet, offset) == LinkPayload(link, packet)
        decreases |packet| - offset
      {
        if |packet| < offset + 4 { return None; }
        etherType := U16(packet[offset + 2], packet[offset + 3], false);
        offset := offset + 4;
      }
      return if etherType == IPV4_TYPE then Some(packet[offset..]) else None;
    }
    if link == 113 {
      if |packet| < 16 || packet[14..16] != [8, 0] { return None; }
      return Some(packet[16..]);
    }
    if link == 276 {
      if |packet| < 20 || packet[0..2] != [8, 0] { return None; }
      return Some(packet[20..]);
    }
    if link == 101 || link == 228 { return Some(packet); }
    if link == 0 && |packet| >= 4 && (packet[..4] == [2, 0, 0, 0] || packet[..4] == [0, 0, 0, 2]) {
      return Some(packet[4..]);
    }
    r := None;
  }

  datatype Tag = Tag(protocol: nat, control0: Byte, control1: Byte)

  datatype LinkHeader =
    | Ethernet(addresses: Bytes, tags: seq<Tag>)
    | Cooked(packetType: Bytes)
    | Cooked2(fields: Bytes)
    | RawIp(declared: bool)
    | Loopback(swapped: bool)

  predicate ValidTags(tags: seq<Tag>) {
    forall i :: 0 <= i < |tags| ==> IsTag(tags[i].protocol)
  }

  predicate ValidHeader(h: LinkHeader) {
    match h
    case Ethernet(addresses, tags) => |addresses| == 12 && ValidTags(tags)
    case Cooked(packetType) => |packetType| == 14
    case Cooked2(fields) => |fields| == 18
    case _ => true
  }

  function LinkType(h: LinkHeader): nat {
    match h
    case Ethernet(_, _) => 1
    case Cooked(_) => 113
    case Cooked2(_) => 276
    case RawIp(declared) => if declared then 228 else 101
    case Loopback(_) => 0
  }

  /** Tags, then the type of the payload, then the payload. */
  function EncodeTags(tags: seq<Tag>, ip: Bytes): Bytes
    requires ValidTags(tags)
  {
    if tags == [] then PutU16(IPV4_TYPE, false) + ip
    else PutU16(tags[0].protocol, false) + ([tags[0].control0, tags[0].control1] + EncodeTags(tags[1..], ip))
  }

  function EncodeLink(h: LinkHeader, ip: Bytes): Bytes
    requires ValidHeader(h)
  {
    match h
    case Ethernet(addresses, tags) => addresses + EncodeTags(tags, ip)
    case Cooked(packetType) => packetType + ([8, 0] + ip)
    case Cooked2(fields) => [8, 0] + (fields + ip)
    case RawIp(_) => ip
    case Loopback(swapped) => (if swapped then [0, 0, 0, 2] else [2, 0, 0, 0]) + ip
  }

  lemma {:induction false} TagsRoundTrip(p: Bytes, offset: nat, tags: seq<Tag>, ip: Bytes)
    requires ValidTags(tags) && 2 <= offset <= |p| && p[offset - 2..] == EncodeTags(tags, ip)
    ensures BehindTags(p, offset) == Some(ip)
    decreases |tags|
  {
    var rest := p[offset - 2..];
    assert p[offset - 2] == rest[0] && p[offset - 1] == rest[1];
    if tags == [] {
      assert p[offset..] == rest[2..];
    } else {
      assert p[offset + 2..] == rest[4..];
      TagsRoundTrip(p, offset + 4, tags[1..], ip);
    }
  }

  /** Every supported link layer, with any number of VLAN tags, gives its payload back. */
  lemma LinkRoundTrip(h: LinkHeader, ip: Bytes)
    requires ValidHeader(h)
    ensures LinkPayload(LinkType(h), EncodeLink(h, ip)) == Some(ip)
  {
    var p := EncodeLink(h, ip);
    match h
    case Ethernet(addresses, tags) =>
      assert p[12..] == EncodeTags(tags, ip);
      TagsRoundTrip(p, 14, tags, ip);
    case Cooked(_) => assert p[16..] == ip;
    case Cooked2(_) => assert p[20..] == ip;
    case RawIp(_) =>
    case Loopback(_) => assert p[4..] == ip;
  }

  predicate IsCutOf(q: Option<Bytes>, p: Option<Bytes>) {
    q.Some? ==> p.Some? && q.value <= p.value
  }

  lemma {:induction false} CutTags(p: Bytes, q: Bytes, offset: nat)
    requires q <= p && 2 <= offset <= |q|
    ensures IsCutOf(BehindTags(q, offset), BehindTags(p, offset))
    decreases |q| - offset
  {
    assert EtherType(q, offset) == EtherType(p, offset);
    assert q[offset..] <= p[offset..];
    if IsTag(EtherType(q, offset)) && offset + 4 <= |q| {
      CutTags(p, q, offset + 4);
    }
  }

  lemma CutLink(link: nat, p: Bytes, q: Bytes)
    requires q <= p
    ensures IsCutOf(LinkPayload(link, q), LinkPayload(link, p))
  {
    if link == 1 && |q| >= 14 {
      CutTags(p, q, 14);
    }
  }

  // ----- IPv4 (section 3.1 of RFC 791) and UDP (RFC 768) -----

  datatype Datagram = Datagram(source: Word, destination: Word, sourcePort: nat, destinationPort: nat, payload: Bytes)

  function Least(a: nat, b: nat): nat {
    if a <= b then a else b
  }

  function UdpDatagram(ip: Bytes): Option<Datagram> {
    if |ip| < 20 || ip[0] / 16 != 4 then None
    else
      var headerLength := ip[0] % 16 * 4;
      var declared := U16(ip[2], ip[3], false);
      if headerLength < 20 || |ip| < headerLength + 8 || declared < headerLength + 8 then None
      else if U16(ip[6], ip[7], false) % 0x2000 != 0 || ip[9] != 17 then None
      else UdpAt(ip[..Least(declared, |ip|)], headerLength)
  }

  /** The UDP datagram behind an IPv4 header; its own length may cut it shorter. */
  function UdpAt(ip: Bytes, start: nat): Option<Datagram>
    requires 20 <= start && start + 8 <= |ip|
  {
    var udpLength := U16(ip[start + 4], ip[start + 5], false);
    if udpLength < 8 then None
    else
      Some(Datagram(
        WordAt(ip, 12), WordAt(ip, 16),
        U16(ip[start], ip[start + 1], false), U16(ip[start + 2], ip[start + 3], false),
        ip[start + 8..Least(start + udpLength, |ip|)]))
  }

  /** An unfragmented IPv4 packet that carries one UDP datagram; its identification and checksum go unread. */
  datatype Packet = Packet(
    service: Byte, unread: Word, flags: nat, ttl: Byte, options: Bytes, udpChecksum: Word, datagram: Datagram)

  predicate ValidPacket(p: Packet) {
    && p.flags < 8
    && |p.options| % 4 == 0 && |p.options| <= 40
    && p.datagram.sourcePort < 0x1_0000 && p.datagram.destinationPort < 0x1_0000
    && 28 + |p.options| + |p.datagram.payload| < 0x1_0000
  }

  function Ipv4Header(p: Packet): (b: Bytes)
    requires ValidPacket(p)
    ensures |b| == 20
  {
    var total := PutU16(28 + |p.options| + |p.datagram.payload|, false);
    var d := p.datagram;
    [0x45 + |p.options| / 4, p.service, total[0], total[1],
     p.unread.b0, p.unread.b1, p.flags * 32, 0, p.ttl, 17, p.unread.b2, p.unread.b3,
     d.source.b0, d.source.b1, d.source.b2, d.source.b3,
     d.destination.b0, d.destination.b1, d.destination.b2, d.destination.b3]
  }

  function UdpHeader(p: Packet): (b: Bytes)
    requires ValidPacket(p)
    ensures |b| == 8
  {
    var from, to := PutU16(p.datagram.sourcePort, false), PutU16(p.datagram.destinationPort, false);
    var length := PutU16(8 + |p.datagram.payload|, false);
    [from[0], from[1], to[0], to[1], length[0], length[1], p.udpChecksum.b0, p.udpChecksum.b1]
  }

  function EncodePacket(p: Packet): Bytes
    requires ValidPacket(p)
  {
    Ipv4Header(p) + p.options + UdpHeader(p) + p.datagram.payload
  }

  lemma HeaderFields(p: Packet, ip: Bytes)
    requires ValidPacket(p) && EncodePacket(p) <= ip
    ensures ip[0] / 16 == 4 && ip[0] % 16 * 4 == 20 + |p.options|
    ensures U16(ip[2], ip[3], false) == |EncodePacket(p)|
    ensures U16(ip[6], ip[7], false) % 0x2000 == 0 && ip[9] == 17
    ensures WordAt(ip, 12) == p.datagram.source && WordAt(ip, 16) == p.datagram.destination
  {
    var h := Ipv4Header(p);
    assert forall i :: 0 <= i < 20 ==> EncodePacket(p)[i] == h[i];
    assert forall i :: 0 <= i < 20 ==> ip[i] == h[i];
    assert U16(h[6], h[7], false) == 0x2000 * p.flags;
  }

  lemma UdpFields(p: Packet, ip: Bytes)
    requires ValidPacket(p) && ip == EncodePacket(p)
    ensures var start := 20 + |p.options|;
      && U16(ip[start], ip[start + 1], false) == p.datagram.sourcePort
      && U16(ip[start + 2], ip[start + 3], false) == p.datagram.destinationPort
      && U16(ip[start + 4], ip[start + 5], false) == 8 + |p.datagram.payload|
      && ip[start + 8..] == p.datagram.payload
  {
    var start, h := 20 + |p.options|, UdpHeader(p);
    assert forall i :: 0 <= i < 8 ==> ip[start + i] == h[i];
  }

  /** An encoded packet, with any padding of the link behind it, gives its datagram back. */
  lemma PacketRoundTrip(p: Packet, padding: Bytes)
    requires ValidPacket(p)
    ensures UdpDatagram(EncodePacket(p) + padding) == Some(p.datagram)
  {
    var ip := EncodePacket(p) + padding;
    HeaderFields(p, ip);
    HeaderFields(p, EncodePacket(p));
    assert ip[..|EncodePacket(p)|] == EncodePacket(p);
    UdpFields(p, EncodePacket(p));
    var e, start := EncodePacket(p), 20 + |p.options|;
    assert e[start + 8..|e|] == e[start + 8..];
    assert UdpAt(e, start) == Some(p.datagram);
  }

  predicate IsCutDatagram(q: Option<Datagram>, p: Option<Datagram>) {
    q.Some? ==> p.Some? && q.value.payload <= p.value.payload && q.value == p.value.(payload := q.value.payload)
  }

  lemma CutUdp(p: Bytes, q: Bytes, start: nat)
    requires q <= p && 20 <= start && start + 8 <= |q|
    ensures IsCutDatagram(UdpAt(q, start), UdpAt(p, start))
  {
  }

  lemma CutDatagram(p: Bytes, q: Bytes)
    requires q <= p
    ensures IsCutDatagram(UdpDatagram(q), UdpDatagram(p))
  {
    if UdpDatagram(q).Some? {
      var declared := U16(q[2], q[3], false);
      var a, b := q[..Least(declared, |q|)], p[..Least(declared, |p|)];
      assert a <= b;
      CutUdp(b, a, q[0] % 16 * 4);
    }
  }

  // ----- Classic PCAP files -----

  const MAGIC_LITTLE: Word := Word(0xD4, 0xC3, 0xB2, 0xA1)
  const MAGIC_BIG: Word := Word(0xA1, 0xB2, 0xC3, 0xD4)
  const MAGIC_LITTLE_NANO: Word := Word(0x4D, 0x3C, 0xB2, 0xA1)
  const MAGIC_BIG_NANO: Word := Word(0xA1, 0xB2, 0x3C, 0x4D)
  const MAGIC_NEXT: Word := Word(0x0A, 0x0D, 0x0D, 0x0A)

  datatype Layout = Layout(little: bool, link: nat)
  datatype Packets = Packets(link: nat, frames: seq<Bytes>)

  function ReadLayout(b: Bytes): Result<Layout> {
    if |b| < 24 then Err(ShortHeader)
    else
      var magic := WordAt(b, 0);
      var little := magic == MAGIC_LITTLE || magic == MAGIC_LITTLE_NANO;
      if magic == MAGIC_NEXT then Err(NextGeneration)
      else if !little && magic != MAGIC_BIG && magic != MAGIC_BIG_NANO then Err(UnknownMagic)
      else if U16(b[4], b[5], little) != 2 || U16(b[6], b[7], little) != 4 then Err(UnsupportedVersion)
      else Ok(Layout(little, U32(WordAt(b, 20), little)))
  }

  /** The record at an offset: where its packet ends, or why it cannot be read. */
  function RecordEnd(b: Bytes, offset: nat, little: bool): (r: Result<nat>)
    ensures r.Ok? ==> offset + 16 <= r.value <= |b|
  {
    if |b| < offset + 16 then Err(ShortRecordHeader)
    else
      var captured, original := U32(WordAt(b, offset + 8), little), U32(WordAt(b, offset + 12), little);
      if captured > MAX_PACKET then Err(Oversized)
      else if original < captured then Err(InconsistentLengths)
      else if |b| < offset + 16 + captured then Err(ShortBody)
      else Ok(offset + 16 + captured)
  }

  function ReadRecords(b: Bytes, offset: nat, little: bool): Result<seq<Bytes>>
    requires offset <= |b|
    decreases |b| - offset
  {
    if offset == |b| then Ok([])
    else
      match RecordEnd(b, offset, little)
      case Err(e) => Err(e)
      case Ok(end) =>
        var rest := ReadRecords(b, end, little);
        if rest.Ok? then Ok([b[offset + 16..end]] + rest.value) else rest
  }

  function ReadCapture(b: Bytes): Result<Packets> {
    match ReadLayout(b)
    case Err(e) => Err(e)
    case Ok(layout) =>
      match ReadRecords(b, 24, layout.little)
      case Err(e) => Err(e)
      case Ok(frames) => Ok(Packets(layout.link, frames))
  }

  /** What is left to read is put behind the packets read so far. */
  function Behind(frames: seq<Bytes>, rest: Result<seq<Bytes>>): Result<seq<Bytes>> {
    if rest.Ok? then Ok(frames + rest.value) else rest
  }

  method IterPcapPackets(b: Bytes) returns (r: Result<Packets>)
    ensures r == ReadCapture(b)
  {
    var layout := ReadLayout(b);
    if layout.Err? { return Err(layout.error); }
    var little, frames, offset := layout.value.little, [], 24;
    ghost var all := ReadRecords(b, 24, little);
    assert all.Ok? ==> [] + all.value == all.value;
    while offset < |b|
      invariant 24 <= offset <= |b|
      invariant Behind(frames, ReadRecords(b, offset, little)) == all
      decreases |b| - offset
    {
      var end := RecordEnd(b, offset, little);
      if end.Err? { return Err(end.error); }
      var frame := b[offset + 16..end.value];
      ghost var rest := ReadRecords(b, end.value, little);
      if rest.Ok? {
        assert frames + ([frame] + rest.value) == frames + [frame] + rest.value;
      }
      frames := frames + [frame];
      offset := end.value;
    }
    assert frames + [] == frames;
    r := Ok(Packets(layout.value.link, frames));
  }

  datatype Record = Record(seconds: Word, fraction: Word, original: nat, frame: Bytes)
  datatype Capture = Capture(little: bool, nanoseconds: bool, zone: Word, accuracy: Word, snaplen: Word, link: nat, records: seq<Record>)

  predicate ValidRecord(r: Record) {
    |r.frame| <= MAX_PACKET && |r.frame| <= r.original < 0x1_0000_0000
  }

  predicate ValidCapture(c: Capture) {
    c.link < 0x1_0000_0000 && forall i :: 0 <= i < |c.records| ==> ValidRecord(c.records[i])
  }

  function Magic(c: Capture): Word {
    if c.little then if c.nanoseconds then MAGIC_LITTLE_NANO else MAGIC_LITTLE
    else if c.nanoseconds then MAGIC_BIG_NANO
    else MAGIC_BIG
  }

  function EncodeRecordHeader(r: Record, little: bool): (b: Bytes)
    requires ValidRecord(r)
    ensures |b| == 16
  {
    BytesOf(r.seconds) + BytesOf(r.fraction) + BytesOf(PutU32(|r.frame|, little)) + BytesOf(PutU32(r.original, little))
  }

  function EncodeRecords(records: seq<Record>, little: bool): Bytes
    requires forall i :: 0 <= i < |records| ==> ValidRecord(records[i])
  {
    if records == [] then []
    else EncodeRecordHeader(records[0], little) + (records[0].frame + EncodeRecords(records[1..], little))
  }

  function EncodeGlobalHeader(c: Capture): (b: Bytes)
    requires ValidCapture(c)
    ensures |b| == 24
  {
    BytesOf(Magic(c)) + PutU16(2, c.little) + PutU16(4, c.little)
    + BytesOf(c.zone) + BytesOf(c.accuracy) + BytesOf(c.snaplen) + BytesOf(PutU32(c.link, c.little))
  }

  function EncodeCapture(c: Capture): Bytes
    requires ValidCapture(c)
  {
    EncodeGlobalHeader(c) + EncodeRecords(c.records, c.little)
  }

  function Frames(records: seq<Record>): (frames: seq<Bytes>)
    ensures |frames| == |records| && forall i :: 0 <= i < |records| ==> frames[i] == records[i].frame
  {
    if records == [] then [] else [records[0].frame] + Frames(records[1..])
  }

  lemma RecordHeaderRoundTrip(b: Bytes, offset: nat, r: Record, rest: Bytes, little: bool)
    requires ValidRecord(r) && offset <= |b| && b[offset..] == EncodeRecordHeader(r, little) + (r.frame + rest)
    ensures var end := offset + 16 + |r.frame|;
      RecordEnd(b, offset, little) == Ok(end) && b[offset + 16..end] == r.frame && b[end..] == rest
  {
    var tail, h := b[offset..], EncodeRecordHeader(r, little);
    assert forall i :: 0 <= i < 16 ==> b[offset + i] == tail[i] == h[i];
    assert WordAt(b, offset + 8) == PutU32(|r.frame|, little);
    assert WordAt(b, offset + 12) == PutU32(r.original, little);
    assert b[offset + 16..] == tail[16..] == r.frame + rest;
    var end := offset + 16 + |r.frame|;
    assert b[offset + 16..end] == b[offset + 16..][..|r.frame|];
    assert b[end..] == b[offset + 16..][|r.frame|..];
  }

  lemma {:induction false} RecordsRoundTrip(b: Bytes, offset: nat, records: seq<Record>, little: bool)
    requires forall i :: 0 <= i < |records| ==> ValidRecord(records[i])
    requires offset <= |b| && b[offset..] == EncodeRecords(records, little)
    ensures ReadRecords(b, offset, little) == Ok(Frames(records))
    decreases |records|
  {
    if records != [] {
      RecordHeaderRoundTrip(b, offset, records[0], EncodeRecords(records[1..], little), little);
      var end := offset + 16 + |records[0].frame|;
      RecordsRoundTrip(b, end, records[1..], little);
      ReadOneMore(b, offset, end, little, Frames(records[1..]));
    }
  }

  lemma ReadOneMore(b: Bytes, offset: nat, end: nat, little: bool, rest: seq<Bytes>)
    requires offset <= |b| && RecordEnd(b, offset, little) == Ok(end) && ReadRecords(b, end, little) == Ok(rest)
    ensures ReadRecords(b, offset, little) == Ok([b[offset + 16..end]] + rest)
  {
  }

  lemma LayoutRoundTrip(c: Capture)
    requires ValidCapture(c)
    ensures ReadLayout(EncodeCapture(c)) == Ok(Layout(c.little, c.link))
  {
    var b, h := EncodeCapture(c), EncodeGlobalHeader(c);
    assert forall i :: 0 <= i < 24 ==> b[i] == h[i];
    assert WordAt(h, 0) == Magic(c) && WordAt(h, 20) == PutU32(c.link, c.little);
  }

  /** Reading a written capture gives its link type and frames back, in either byte order. */
  lemma CaptureRoundTrip(c: Capture)
    requires ValidCapture(c)
    ensures ReadCapture(EncodeCapture(c)) == Ok(Packets(c.link, Frames(c.records)))
  {
    LayoutRoundTrip(c);
    var b := EncodeCapture(c);
    assert b[24..] == EncodeRecords(c.records, c.little);
    RecordsRoundTrip(b, 24, c.records, c.little);
  }

  lemma PutGetU16(first: Byte, second: Byte, little: bool)
    ensures U16(first, second, little) < 0x1_0000
    ensures PutU16(U16(first, second, little), little) == [first, second]
  {
  }

  lemma PutGetU32(w: Word, little: bool)
    ensures U32(w, little) < 0x1_0000_0000 && PutU32(U32(w, little), little) == w
  {
    var n, a, b := U32(w, little), U16(w.b0, w.b1, little), U16(w.b2, w.b3, little);
    PutGetU16(w.b0, w.b1, little);
    PutGetU16(w.b2, w.b3, little);
    var low, high := if little then a else b, if little then b else a;
    assert n == low + 0x1_0000 * high;
    assert n % 0x1_0000 == low && n / 0x1_0000 == high;
  }

  /** The records that a readable file must have been written from. */
  function RecordsAt(b: Bytes, offset: nat, little: bool): (records: seq<Record>)
    requires offset <= |b|
    decreases |b| - offset
  {
    var end := RecordEnd(b, offset, little);
    if offset == |b| || end.Err? then []
    else
      [RecordAt(b, offset, end.value, little)] + RecordsAt(b, end.value, little)
  }

  function RecordAt(b: Bytes, offset: nat, end: nat, little: bool): Record
    requires offset + 16 <= end <= |b|
  {
    Record(WordAt(b, offset), WordAt(b, offset + 4), U32(WordAt(b, offset + 12), little), b[offset + 16..end])
  }

  lemma ReadableRecordIsEncoded(b: Bytes, offset: nat, end: nat, little: bool)
    requires RecordEnd(b, offset, little) == Ok(end)
    ensures var r := RecordAt(b, offset, end, little);
      && ValidRecord(r)
      && EncodeRecordHeader(r, little) + (r.frame + b[end..]) == b[offset..]
  {
    var r := RecordAt(b, offset, end, little);
    PutGetU32(WordAt(b, offset + 8), little);
    PutGetU32(WordAt(b, offset + 12), little);
    assert EncodeRecordHeader(r, little) == b[offset..offset + 16];
    assert r.frame + b[end..] == b[offset + 16..];
  }

  lemma {:induction false} ReadableRecordsAreEncoded(b: Bytes, offset: nat, little: bool)
    requires offset <= |b| && ReadRecords(b, offset, little).Ok?
    ensures var records := RecordsAt(b, offset, little);
      && (forall i :: 0 <= i < |records| ==> ValidRecord(records[i]))
      && EncodeRecords(records, little) == b[offset..]
    decreases |b| - offset
  {
    if offset < |b| {
      var end := RecordEnd(b, offset, little).value;
      ReadableRecordsAreEncoded(b, end, little);
      ReadableRecordIsEncoded(b, offset, end, little);
      ConsRecord(RecordAt(b, offset, end, little), RecordsAt(b, end, little), little);
    }
  }

  lemma ConsRecord(r: Record, records: seq<Record>, little: bool)
    requires ValidRecord(r) && forall i :: 0 <= i < |records| ==> ValidRecord(records[i])
    ensures forall i :: 0 <= i < |[r] + records| ==> ValidRecord(([r] + records)[i])
    ensures EncodeRecords([r] + records, little)
      == EncodeRecordHeader(r, little) + (r.frame + EncodeRecords(records, little))
  {
    assert ([r] + records)[1..] == records;
  }

  function CaptureOf(b: Bytes): Capture
    requires ReadCapture(b).Ok?
  {
    var layout := ReadLayout(b).value;
    var magic := WordAt(b, 0);
    Capture(layout.little, magic == MAGIC_LITTLE_NANO || magic == MAGIC_BIG_NANO,
      WordAt(b, 8), WordAt(b, 12), WordAt(b, 16), layout.link, RecordsAt(b, 24, layout.little))
  }

  lemma ReadableHeaderIsEncoded(b: Bytes)
    requires ReadCapture(b).Ok? && ValidCapture(CaptureOf(b))
    ensures EncodeGlobalHeader(CaptureOf(b)) == b[..24]
  {
    var c := CaptureOf(b);
    assert Magic(c) == WordAt(b, 0);
    PutGetU32(WordAt(b, 20), c.little);
    PutGetU16(b[4], b[5], c.little);
    PutGetU16(b[6], b[7], c.little);
  }

  /** Nothing else is accepted: a file that is read is the encoding of the capture read from it. */
  lemma ReadableIsEncoded(b: Bytes)
    requires ReadCapture(b).Ok?
    ensures ValidCapture(CaptureOf(b)) && EncodeCapture(CaptureOf(b)) == b
  {
    var c := CaptureOf(b);
    ReadableRecordsAreEncoded(b, 24, c.little);
    PutGetU32(WordAt(b, 20), c.little);
    ReadableHeaderIsEncoded(b);
    assert b == b[..24] + b[24..];
  }

  // ----- Writer GIDs -----

  datatype Gid = Gid(prefix: Bytes, entity: Word, all: Bytes)

  predicate IsSeparator(c: char) {
    c == '.' || c == ':' || c == '-' || c == ' ' || '\t' <= c <= '\r' || '\U{1C}' <= c <= '\U{1F}'
  }

  function Compact(s: string): string {
    if s == [] then [] else if IsSeparator(s[0]) then Compact(s[1..]) else [s[0]] + Compact(s[1..])
  }

  function HexValue(c: char): (r: Option<nat>)
    ensures r.Some? ==> r.value < 16
  {
    if '0' <= c <= '9' then Some(c as int - '0' as int)
    else if 'a' <= c <= 'f' then Some(c as int - 'a' as int + 10)
    else if 'A' <= c <= 'F' then Some(c as int - 'A' as int + 10)
    else None
  }

  function FromHex(s: string): (r: Option<Bytes>)
    requires |s| % 2 == 0
    ensures r.Some? ==> 2 * |r.value| == |s|
  {
    if s == [] then Some([])
    else
      var high, low, rest := HexValue(s[0]), HexValue(s[1]), FromHex(s[2..]);
      if high.None? || low.None? || rest.None? then None
      else Some([16 * high.value + low.value] + rest.value)
  }

  function ParseWriterGid(value: string): (r: Result<Gid>)
    ensures r.Ok? ==> |r.value.prefix| == 12 && |r.value.all| >= 16
  {
    var compact := Compact(value);
    if |compact| < 32 || |compact| % 2 != 0 then Err(ShortGid)
    else
      match FromHex(compact)
      case None => Err(NotHexadecimal)
      case Some(gid) => Ok(Gid(gid[..12], WordAt(gid, 12), gid))
  }

  /** One byte as a person may write it: either case, separators before and between the digits. */
  datatype Spelled = Spelled(value: Byte, upperHigh: bool, upperLow: bool, gap: string, middle: string)

  predicate Separators(s: string) {
    forall i :: 0 <= i < |s| ==> IsSeparator(s[i])
  }

  predicate ValidSpelling(bytes: seq<Spelled>) {
    forall i :: 0 <= i < |bytes| ==> Separators(bytes[i].gap) && Separators(bytes[i].middle)
  }

  function HexDigit(n: nat, upper: bool): (c: char)
    requires n < 16
    ensures HexValue(c) == Some(n) && !IsSeparator(c)
  {
    if n < 10 then ('0' as int + n) as char
    else if upper then ('A' as int + n - 10) as char
    else ('a' as int + n - 10) as char
  }

  function Digits(b: Spelled): string {
    [HexDigit(b.value / 16, b.upperHigh), HexDigit(b.value % 16, b.upperLow)]
  }

  function Spell(bytes: seq<Spelled>): string {
    if bytes == [] then []
    else
      var d := Digits(bytes[0]);
      bytes[0].gap + ([d[0]] + (bytes[0].middle + ([d[1]] + Spell(bytes[1..]))))
  }

  function Values(bytes: seq<Spelled>): Bytes {
    if bytes == [] then [] else [bytes[0].value] + Values(bytes[1..])
  }

  lemma {:induction false} CompactSkips(gap: string, rest: string)
    requires Separators(gap)
    ensures Compact(gap + rest) == Compact(rest)
  {
    if gap == [] {
      assert gap + rest == rest;
    } else {
      assert (gap + rest)[1..] == gap[1..] + rest;
      CompactSkips(gap[1..], rest);
    }
  }

  lemma {:induction false} SpellingReads(bytes: seq<Spelled>)
    requires ValidSpelling(bytes)
    ensures |Compact(Spell(bytes))| == 2 * |bytes| && FromHex(Compact(Spell(bytes))) == Some(Values(bytes))
    decreases |bytes|
  {
    if bytes != [] {
      var b, rest := bytes[0], Spell(bytes[1..]);
      SpellingReads(bytes[1..]);
      CompactByte(b, rest);
      assert Compact(Spell(bytes))[2..] == Compact(rest);
    }
  }

  lemma CompactByte(b: Spelled, rest: string)
    requires Separators(b.gap) && Separators(b.middle)
    ensures var d := Digits(b);
      Compact(b.gap + ([d[0]] + (b.middle + ([d[1]] + rest)))) == d + Compact(rest)
  {
    var d := Digits(b);
    var tail := b.middle + ([d[1]] + rest);
    CompactSkips(b.gap, [d[0]] + tail);
    CompactSkips(b.middle, [d[1]] + rest);
    assert ([d[0]] + tail)[1..] == tail;
    assert ([d[1]] + rest)[1..] == rest;
    assert [d[0]] + ([d[1]] + Compact(rest)) == d + Compact(rest);
  }

  lemma {:induction false} ValuesLength(bytes: seq<Spelled>)
    ensures |Values(bytes)| == |bytes|
    decreases |bytes|
  {
    if bytes != [] {
      ValuesLength(bytes[1..]);
    }
  }

  /** However sixteen bytes or more are spelled, they are read as prefix, entity and GID. */
  lemma GidRoundTrip(bytes: seq<Spelled>)
    requires ValidSpelling(bytes) && |bytes| >= 16
    ensures var v := Values(bytes);
      |v| == |bytes| && ParseWriterGid(Spell(bytes)) == Ok(Gid(v[..12], WordAt(v, 12), v))
  {
    SpellingReads(bytes);
    ValuesLength(bytes);
  }

  // ----- Correlation -----

  datatype Endpoints = Endpoints(source: Word, destination: Word, sourcePort: nat, destinationPort: nat)

  datatype PacketRecord = PacketRecord(number: nat, endpoints: Endpoints)

  datatype Conclusion = SingleSource | MultipleSources | PrefixOnly | NotSeen

  datatype Report = Report(
    total: nat, decoded: nat, prefixSources: map<Word, nat>, writerSources: map<Word, nat>,
    prefixExamples: seq<PacketRecord>, writerExamples: seq<PacketRecord>, proven: set<Word>, conclusion: Conclusion)

  function Decode(link: nat, frame: Bytes): Option<Datagram> {
    match LinkPayload(link, frame)
    case None => None
    case Some(ip) => UdpDatagram(ip)
  }

  function EndpointsOf(d: Datagram): Endpoints {
    Endpoints(d.source, d.destination, d.sourcePort, d.destinationPort)
  }

  /** The frame is an RTPS message of the participant. */
  function PrefixSight(link: nat, frame: Bytes, prefix: Bytes): Option<Endpoints> {
    match Decode(link, frame)
    case None => None
    case Some(d) => if IsRtps(d.payload) && d.payload[8..20] == prefix then Some(EndpointsOf(d)) else None
  }

  /** Moreover it carries data of the writer. */
  function WriterSight(link: nat, frame: Bytes, prefix: Bytes, entity: Word): Option<Endpoints> {
    match Decode(link, frame)
    case None => None
    case Some(d) =>
      if IsRtps(d.payload) && d.payload[8..20] == prefix && entity in WriterIds(d.payload) then Some(EndpointsOf(d)) else None
  }

  type Sight = Bytes -> Option<Endpoints>

  function Decodes(link: nat): Sight {
    f => match Decode(link, f) case None => None case Some(d) => Some(EndpointsOf(d))
  }

  function SeesPrefix(link: nat, prefix: Bytes): Sight {
    f => PrefixSight(link, f, prefix)
  }

  function SeesWriter(link: nat, prefix: Bytes, entity: Word): Sight {
    f => WriterSight(link, f, prefix, entity)
  }

  function Count(frames: seq<Bytes>, sees: Sight, source: Word): nat {
    if frames == [] then 0
    else
      var last := sees(frames[|frames| - 1]);
      Count(frames[..|frames| - 1], sees, source) + if last.Some? && last.value.source == source then 1 else 0
  }

  function Records(frames: seq<Bytes>, sees: Sight): seq<PacketRecord> {
    if frames == [] then []
    else
      var last := sees(frames[|frames| - 1]);
      Records(frames[..|frames| - 1], sees) + if last.Some? then [PacketRecord(|frames|, last.value)] else []
  }

  function FirstOf(records: seq<PacketRecord>): seq<PacketRecord> {
    if |records| <= EXAMPLES then records else records[..EXAMPLES]
  }

  /** A counter holds the sources that were seen, each with the number of its frames. */
  ghost predicate Tallies(counter: map<Word, nat>, frames: seq<Bytes>, sees: Sight) {
    forall s :: (s in counter <==> Count(frames, sees, s) > 0) && (s in counter ==> counter[s] == Count(frames, sees, s))
  }

  predicate Concludes(c: Conclusion, proven: set<Word>, prefixSources: map<Word, nat>) {
    && (c == SingleSource <==> |proven| == 1)
    && (c == MultipleSources <==> |proven| > 1)
    && (c == PrefixOnly <==> |proven| == 0 && prefixSources != map[])
  }

  function Bump(counter: map<Word, nat>, source: Word): map<Word, nat> {
    counter[source := (if source in counter then counter[source] else 0) + 1]
  }

  /** One sink of the correlation: a counter and the first records. */
  method Note(frames: seq<Bytes>, k: nat, sees: Sight, counter: map<Word, nat>, examples: seq<PacketRecord>)
    returns (counter': map<Word, nat>, examples': seq<PacketRecord>)
    requires k < |frames|
    requires Tallies(counter, frames[..k], sees) && examples == FirstOf(Records(frames[..k], sees))
    ensures Tallies(counter', frames[..k + 1], sees) && examples' == FirstOf(Records(frames[..k + 1], sees))
  {
    assert frames[..k + 1][..k] == frames[..k];
    var seen := sees(frames[k]);
    counter', examples' := counter, examples;
    if seen.Some? {
      counter' := Bump(counter, seen.value.source);
      if |examples| < EXAMPLES {
        examples' := examples + [PacketRecord(k + 1, seen.value)];
      }
    }
  }

  /** One pass over the frames fills the counters and the examples. */
  method TallyAll(frames: seq<Bytes>, decodes: Sight, prefixed: Sight, written: Sight) returns (r: Report)
    ensures r.total == |frames| && r.decoded == |Records(frames, decodes)|
    ensures Tallies(r.prefixSources, frames, prefixed) && Tallies(r.writerSources, frames, written)
    ensures r.prefixExamples == FirstOf(Records(frames, prefixed))
    ensures r.writerExamples == FirstOf(Records(frames, written))
  {
    var prefixSources: map<Word, nat>, writerSources: map<Word, nat> := map[], map[];
    var prefixExamples, writerExamples, decoded := [], [], 0;
    for k := 0 to |frames|
      invariant Tallies(prefixSources, frames[..k], prefixed) && Tallies(writerSources, frames[..k], written)
      invariant prefixExamples == FirstOf(Records(frames[..k], prefixed))
      invariant writerExamples == FirstOf(Records(frames[..k], written))
      invariant decoded == |Records(frames[..k], decodes)|
    {
      assert frames[..k + 1][..k] == frames[..k];
      if decodes(frames[k]).Some? { decoded := decoded + 1; }
      prefixSources, prefixExamples := Note(frames, k, prefixed, prefixSources, prefixExamples);
      writerSources, writerExamples := Note(frames, k, written, writerSources, writerExamples);
    }
    assert frames[..|frames|] == frames;
    r := Report(|frames|, decoded, prefixSources, writerSources, prefixExamples, writerExamples, {}, NotSeen);
  }

  method Correlate(capture: Bytes, writerGid: string) returns (r: Result<Report>)
    ensures match ParseWriterGid(writerGid)
      case Err(e) => r == Err(e)
      case Ok(gid) =>
        match ReadCapture(capture)
        case Err(e) => r == Err(e)
        case Ok(p) =>
          var prefixed, written := SeesPrefix(p.link, gid.prefix), SeesWriter(p.link, gid.prefix, gid.entity);
          && r.Ok?
          && r.value.total == |p.frames|
          && r.value.decoded == |Records(p.frames, Decodes(p.link))|
          && Tallies(r.value.prefixSources, p.frames, prefixed)
          && Tallies(r.value.writerSources, p.frames, written)
          && r.value.prefixExamples == FirstOf(Records(p.frames, prefixed))
          && r.value.writerExamples == FirstOf(Records(p.frames, written))
          && r.value.proven == r.value.writerSources.Keys
          && Concludes(r.value.conclusion, r.value.proven, r.value.prefixSources)
  {
    var parsed := ParseWriterGid(writerGid);
    if parsed.Err? { return Err(parsed.error); }
    var packets := IterPcapPackets(capture);
    if packets.Err? { return Err(packets.error); }
    var gid, link, frames := parsed.value, packets.value.link, packets.value.frames;
    var prefixed, written := SeesPrefix(link, gid.prefix), SeesWriter(link, gid.prefix, gid.entity);
    var sums := TallyAll(frames, Decodes(link), prefixed, written);
    var proven := sums.writerSources.Keys;
    var conclusion :=
      if |proven| == 1 then SingleSource
      else if |proven| > 1 then MultipleSources
      else if sums.prefixSources != map[] then PrefixOnly
      else NotSeen;
    r := Ok(sums.(proven := proven, conclusion := conclusion));
  }

  // ----- What a report says about the traffic -----

  lemma {:induction false} CountIsSeen(frames: seq<Bytes>, sees: Sight, source: Word)
    ensures Count(frames, sees, source) > 0 <==>
      exists k :: 0 <= k < |frames| && sees(frames[k]).Some? && sees(frames[k]).value.source == source
  {
    if frames != [] {
      var init := frames[..|frames| - 1];
      CountIsSeen(init, sees, source);
      if k :| 0 <= k < |frames| && sees(frames[k]).Some? && sees(frames[k]).value.source == source {
        if k < |init| {
          assert init[k] == frames[k];
        }
      }
      if k :| 0 <= k < |init| && sees(init[k]).Some? && sees(init[k]).value.source == source {
        assert frames[k] == init[k];
      }
    }
  }

  /** Whoever sees less, frame by frame, counts less. */
  lemma {:induction false} CountGrows(fewer: seq<Bytes>, narrow: Sight, more: seq<Bytes>, wide: Sight, source: Word)
    requires |fewer| == |more|
    requires forall k :: 0 <= k < |more| && narrow(fewer[k]).Some? ==> wide(more[k]) == narrow(fewer[k])
    ensures Count(fewer, narrow, source) <= Count(more, wide, source)
  {
    if more != [] {
      var last := |more| - 1;
      CountGrows(fewer[..last], narrow, more[..last], wide, source);
    }
  }

  /** Per source, writer packets are among the participant's packets. */
  lemma {:induction false} WriterCountsAreBounded(frames: seq<Bytes>, link: nat, prefix: Bytes, entity: Word, source: Word)
    ensures Count(frames, SeesWriter(link, prefix, entity), source) <= Count(frames, SeesPrefix(link, prefix), source)
  {
    CountGrows(frames, SeesWriter(link, prefix, entity), frames, SeesPrefix(link, prefix), source);
  }

  lemma CutSight(link: nat, p: Bytes, q: Bytes, prefix: Bytes, entity: Word)
    requires q <= p
    ensures PrefixSight(link, q, prefix).Some? ==> PrefixSight(link, p, prefix) == PrefixSight(link, q, prefix)
    ensures WriterSight(link, q, prefix, entity).Some? ==> WriterSight(link, p, prefix, entity) == WriterSight(link, q, prefix, entity)
  {
    CutLink(link, p, q);
    if LinkPayload(link, q).Some? {
      CutDatagram(LinkPayload(link, p).value, LinkPayload(link, q).value);
      if Decode(link, q).Some? && IsRtps(Decode(link, q).value.payload) {
        var a, b := Decode(link, q).value.payload, Decode(link, p).value.payload;
        TruncationKeepsPrefix(b, a);
        assert a[..4] == b[..4] && a[8..20] == b[8..20];
      }
    }
  }

  /** A capture whose frames were cut short never reports a source, or a packet, that the whole one does not. */
  lemma CutCaptureReportsLess(
    whole: seq<Bytes>, cut: seq<Bytes>, link: nat, prefix: Bytes, entity: Word, source: Word)
    requires |cut| == |whole| && forall k :: 0 <= k < |whole| ==> cut[k] <= whole[k]
    ensures Count(cut, SeesWriter(link, prefix, entity), source) <= Count(whole, SeesWriter(link, prefix, entity), source)
    ensures Count(cut, SeesPrefix(link, prefix), source) <= Count(whole, SeesPrefix(link, prefix), source)
  {
    forall k | 0 <= k < |whole|
      ensures SeesWriter(link, prefix, entity)(cut[k]).Some? ==>
        SeesWriter(link, prefix, entity)(whole[k]) == SeesWriter(link, prefix, entity)(cut[k])
      ensures SeesPrefix(link, prefix)(cut[k]).Some? ==> SeesPrefix(link, prefix)(whole[k]) == SeesPrefix(link, prefix)(cut[k])
    {
      CutSight(link, whole[k], cut[k], prefix, entity);
    }
    CountGrows(cut, SeesWriter(link, prefix, entity), whole, SeesWriter(link, prefix, entity), source);
    CountGrows(cut, SeesPrefix(link, prefix), whole, SeesPrefix(link, prefix), source);
  }

  /** An RTPS message in one UDP datagram on some link. */
  datatype Frame = Frame(header: LinkHeader, packet: Packet, message: Message, padding: Bytes)

  predicate ValidFrame(f: Frame, link: nat) {
    && ValidHeader(f.header) && LinkType(f.header) == link
    && ValidPacket(f.packet) && ValidMessage(f.message)
    && f.packet.datagram.payload == EncodeMessage(f.message)
  }

  function EncodeFrame(f: Frame): Bytes
    requires ValidFrame(f, LinkType(f.header))
  {
    EncodeLink(f.header, EncodePacket(f.packet) + f.padding)
  }

  /** Some submessage of the frame is data of the writer. */
  ghost predicate SentBy(f: Frame, prefix: Bytes, entity: Word) {
    && f.message.prefix == prefix
    && exists i :: 0 <= i < |f.message.submessages| && CarriesWriter(f.message.submessages[i])
         && WordAt(f.message.submessages[i].body, 8) == entity
  }

  lemma {:induction false} WritersAreCarried(ms: seq<Submessage>, entity: Word)
    ensures entity in Writers(ms) <==>
      exists i :: 0 <= i < |ms| && CarriesWriter(ms[i]) && WordAt(ms[i].body, 8) == entity
    decreases |ms|
  {
    if ms != [] {
      WritersAreCarried(ms[1..], entity);
      if i :| 0 <= i < |ms| && CarriesWriter(ms[i]) && WordAt(ms[i].body, 8) == entity {
        if i > 0 {
          assert ms[1..][i - 1] == ms[i];
        }
      }
      if i :| 0 <= i < |ms[1..]| && CarriesWriter(ms[1..][i]) && WordAt(ms[1..][i].body, 8) == entity {
        assert ms[i + 1] == ms[1..][i];
      }
    }
  }

  lemma FrameSight(f: Frame, link: nat, prefix: Bytes, entity: Word)
    requires ValidFrame(f, link)
    ensures var seen := WriterSight(link, EncodeFrame(f), prefix, entity);
      (seen.Some? <==> SentBy(f, prefix, entity)) && (seen.Some? ==> seen.value.source == f.packet.datagram.source)
    ensures var seen := PrefixSight(link, EncodeFrame(f), prefix);
      (seen.Some? <==> f.message.prefix == prefix) && (seen.Some? ==> seen.value.source == f.packet.datagram.source)
  {
    LinkRoundTrip(f.header, EncodePacket(f.packet) + f.padding);
    PacketRoundTrip(f.packet, f.padding);
    MessageRoundTrip(f.message);
    WritersAreCarried(f.message.submessages, entity);
  }

  // ----- Traffic of other kinds -----

  /** Frames on a supported link that carry no RTPS message in an unfragmented UDP datagram. */
  datatype Foreign =
    | OtherEtherType(addresses: Bytes, tags: seq<Tag>, etherType: nat, body: Bytes)
    | OtherCooked(packetType: Bytes, protocol: nat, body: Bytes)
    | OtherCooked2(protocol: nat, body: Bytes)
    | OtherFamily(family: Word, body: Bytes)
    | OtherIp(header: LinkHeader, ip: Bytes)
    | OtherUdp(header: LinkHeader, packet: Packet, padding: Bytes)

  /** Another version, another protocol, or a fragment that is not the first. */
  predicate NotPlainUdp(ip: Bytes) {
    |ip| >= 20 && (ip[0] / 16 != 4 || ip[9] != 17 || U16(ip[6], ip[7], false) % 0x2000 != 0)
  }

  predicate ValidForeign(f: Foreign, link: nat) {
    match f
    case OtherEtherType(addresses, tags, etherType, _) =>
      link == 1 && |addresses| == 12 && ValidTags(tags) && etherType < 0x1_0000 && !IsTag(etherType) && etherType != IPV4_TYPE
    case OtherCooked(packetType, protocol, _) => link == 113 && |packetType| == 14 && protocol < 0x1_0000 && protocol != IPV4_TYPE
    case OtherCooked2(protocol, _) => link == 276 && protocol < 0x1_0000 && protocol != IPV4_TYPE
    case OtherFamily(family, _) => link == 0 && family != Word(2, 0, 0, 0) && family != Word(0, 0, 0, 2)
    case OtherIp(header, ip) => ValidHeader(header) && LinkType(header) == link && NotPlainUdp(ip)
    case OtherUdp(header, packet, _) =>
      && ValidHeader(header) && LinkType(header) == link && ValidPacket(packet)
      && (|packet.datagram.payload| < 20 || packet.datagram.payload[..4] != RTPS_MAGIC)
  }

  /** Tags, then a type of its own. */
  function EncodeTyped(tags: seq<Tag>, etherType: nat, body: Bytes): Bytes
    requires ValidTags(tags) && etherType < 0x1_0000
  {
    if tags == [] then PutU16(etherType, false) + body
    else PutU16(tags[0].protocol, false) + ([tags[0].control0, tags[0].control1] + EncodeTyped(tags[1..], etherType, body))
  }

  function EncodeForeign(f: Foreign, link: nat): Bytes
    requires ValidForeign(f, link)
  {
    match f
    case OtherEtherType(addresses, tags, etherType, body) => addresses + EncodeTyped(tags, etherType, body)
    case OtherCooked(packetType, protocol, body) => packetType + (PutU16(protocol, false) + body)
    case OtherCooked2(protocol, body) => PutU16(protocol, false) + body
    case OtherFamily(family, body) => BytesOf(family) + body
    case OtherIp(header, ip) => EncodeLink(header, ip)
    case OtherUdp(header, packet, padding) => EncodeLink(header, EncodePacket(packet) + padding)
  }

  lemma {:induction false} OtherTypeIsSkipped(p: Bytes, offset: nat, tags: seq<Tag>, etherType: nat, body: Bytes)
    requires ValidTags(tags) && etherType < 0x1_0000 && !IsTag(etherType) && etherType != IPV4_TYPE
    requires 2 <= offset <= |p| && p[offset - 2..] == EncodeTyped(tags, etherType, body)
    ensures BehindTags(p, offset) == None
    decreases |tags|
  {
    var rest := p[offset - 2..];
    assert p[offset - 2] == rest[0] && p[offset - 1] == rest[1];
    if tags != [] {
      assert p[offset + 2..] == rest[4..];
      OtherTypeIsSkipped(p, offset + 4, tags[1..], etherType, body);
    }
  }

  lemma ForeignLinkIsSkipped(f: Foreign, link: nat)
    requires ValidForeign(f, link) && !f.OtherIp? && !f.OtherUdp?
    ensures LinkPayload(link, EncodeForeign(f, link)) == None
  {
    var p := EncodeForeign(f, link);
    match f
    case OtherEtherType(addresses, tags, etherType, body) =>
      assert p[12..] == EncodeTyped(tags, etherType, body);
      OtherTypeIsSkipped(p, 14, tags, etherType, body);
    case OtherCooked(packetType, protocol, body) =>
      var field := PutU16(protocol, false);
      assert |p| >= 16 && p[14] == field[0] && p[15] == field[1];
    case OtherCooked2(protocol, body) =>
      var field := PutU16(protocol, false);
      assert p[0] == field[0] && p[1] == field[1];
    case OtherFamily(family, body) =>
      assert |p| >= 4 && WordAt(p, 0) == family;
  }

  /** None of these frames is seen as the participant's, whoever that is. */
  lemma ForeignIsUnseen(f: Foreign, link: nat, prefix: Bytes, entity: Word)
    requires ValidForeign(f, link)
    ensures PrefixSight(link, EncodeForeign(f, link), prefix) == None && WriterSight(link, EncodeForeign(f, link), prefix, entity) == None
  {
    match f
    case OtherIp(header, ip) => LinkRoundTrip(header, ip);
    case OtherUdp(header, packet, padding) =>
      LinkRoundTrip(header, EncodePacket(packet) + padding);
      PacketRoundTrip(packet, padding);
    case _ => ForeignLinkIsSkipped(f, link);
  }

  // ----- Captures of mixed traffic -----

  datatype Traffic = Rtps(frame: Frame) | Else(foreign: Foreign)

  predicate ValidTraffic(t: Traffic, link: nat) {
    match t
    case Rtps(frame) => ValidFrame(frame, link)
    case Else(foreign) => ValidForeign(foreign, link)
  }

  function EncodeTraffic(t: Traffic, link: nat): Bytes
    requires ValidTraffic(t, link)
  {
    match t
    case Rtps(frame) => EncodeFrame(frame)
    case Else(foreign) => EncodeForeign(foreign, link)
  }

  /** The item is data of the writer, sent from this source. */
  ghost predicate SendsFrom(t: Traffic, prefix: Bytes, entity: Word, source: Word) {
    t.Rtps? && SentBy(t.frame, prefix, entity) && t.frame.packet.datagram.source == source
  }

  /** The item is a message of the participant, sent from this source. */
  predicate ParticipatesFrom(t: Traffic, prefix: Bytes, source: Word) {
    t.Rtps? && t.frame.message.prefix == prefix && t.frame.packet.datagram.source == source
  }

  /** The frames of a capture are the given traffic. */
  ghost predicate Carries(c: Capture, traffic: seq<Traffic>) {
    && ValidCapture(c) && |traffic| == |c.records|
    && forall k :: 0 <= k < |traffic| ==> ValidTraffic(traffic[k], c.link) && c.records[k].frame == EncodeTraffic(traffic[k], c.link)
  }

  lemma TrafficSight(t: Traffic, link: nat, prefix: Bytes, entity: Word, source: Word)
    requires ValidTraffic(t, link)
    ensures var seen := WriterSight(link, EncodeTraffic(t, link), prefix, entity);
      seen.Some? && seen.value.source == source <==> SendsFrom(t, prefix, entity, source)
    ensures var seen := PrefixSight(link, EncodeTraffic(t, link), prefix);
      seen.Some? && seen.value.source == source <==> ParticipatesFrom(t, prefix, source)
  {
    match t
    case Rtps(frame) => FrameSight(frame, link, prefix, entity);
    case Else(foreign) => ForeignIsUnseen(foreign, link, prefix, entity);
  }

  /** Among mixed traffic a source is counted for the writer, or the participant, exactly when it sent for it. */
  lemma SeenExactly(c: Capture, traffic: seq<Traffic>, prefix: Bytes, entity: Word, source: Word)
    requires Carries(c, traffic)
    ensures Count(Frames(c.records), SeesWriter(c.link, prefix, entity), source) > 0 <==>
      exists k :: 0 <= k < |traffic| && SendsFrom(traffic[k], prefix, entity, source)
    ensures Count(Frames(c.records), SeesPrefix(c.link, prefix), source) > 0 <==>
      exists k :: 0 <= k < |traffic| && ParticipatesFrom(traffic[k], prefix, source)
  {
    var frames, writer, participant := Frames(c.records), SeesWriter(c.link, prefix, entity), SeesPrefix(c.link, prefix);
    forall k | 0 <= k < |traffic|
      ensures writer(frames[k]).Some? && writer(frames[k]).value.source == source <==> SendsFrom(traffic[k], prefix, entity, source)
      ensures participant(frames[k]).Some? && participant(frames[k]).value.source == source
        <==> ParticipatesFrom(traffic[k], prefix, source)
    {
      TrafficSight(traffic[k], c.link, prefix, entity, source);
    }
    SeenIsSent(frames, writer, traffic, t => SendsFrom(t, prefix, entity, source), source);
    SeenIsSent(frames, participant, traffic, t => ParticipatesFrom(t, prefix, source), source);
  }

  lemma SeenIsSent(frames: seq<Bytes>, sees: Sight, traffic: seq<Traffic>, sends: Traffic -> bool, source: Word)
    requires |frames| == |traffic|
    requires forall k :: 0 <= k < |traffic| ==>
      (sees(frames[k]).Some? && sees(frames[k]).value.source == source <==> sends(traffic[k]))
    ensures Count(frames, sees, source) > 0 <==> exists k :: 0 <= k < |traffic| && sends(traffic[k])
  {
    CountIsSeen(frames, sees, source);
  }

  lemma ProvenExactly(
    c: Capture, traffic: seq<Traffic>, prefix: Bytes, entity: Word, writers: map<Word, nat>, participants: map<Word, nat>)
    requires Carries(c, traffic)
    requires Tallies(writers, Frames(c.records), SeesWriter(c.link, prefix, entity))
    requires Tallies(participants, Frames(c.records), SeesPrefix(c.link, prefix))
    ensures forall s :: s in writers <==> exists k :: 0 <= k < |traffic| && SendsFrom(traffic[k], prefix, entity, s)
    ensures forall s :: s in participants <==> exists k :: 0 <= k < |traffic| && ParticipatesFrom(traffic[k], prefix, s)
  {
    forall s
      ensures s in writers <==> exists k :: 0 <= k < |traffic| && SendsFrom(traffic[k], prefix, entity, s)
      ensures s in participants <==> exists k :: 0 <= k < |traffic| && ParticipatesFrom(traffic[k], prefix, s)
    {
      SeenExactly(c, traffic, prefix, entity, s);
    }
  }

  /**
   The report on a written capture of any mixed traffic, for a GID in any spelling: proven are
   exactly the sources that sent data of that writer, and the conclusion follows their number.
   */
  method CorrelateWritten(c: Capture, traffic: seq<Traffic>, gid: seq<Spelled>) returns (r: Result<Report>)
    requires Carries(c, traffic) && ValidSpelling(gid) && |gid| >= 16
    ensures r.Ok? && |Values(gid)| == |gid|
    ensures var prefix, entity := Values(gid)[..12], WordAt(Values(gid), 12);
      && (forall s :: s in r.value.proven <==> exists k :: 0 <= k < |traffic| && SendsFrom(traffic[k], prefix, entity, s))
      && (forall s :: s in r.value.prefixSources <==> exists k :: 0 <= k < |traffic| && ParticipatesFrom(traffic[k], prefix, s))
    ensures Concludes(r.value.conclusion, r.value.proven, r.value.prefixSources)
  {
    GidRoundTrip(gid);
    CaptureRoundTrip(c);
    r := Correlate(EncodeCapture(c), Spell(gid));
    ProvenExactly(c, traffic, Values(gid)[..12], WordAt(Values(gid), 12), r.value.writerSources, r.value.prefixSources);
  }
}
