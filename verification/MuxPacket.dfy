/** The packets exchanged with a device: the mux header, whose size depends on the negotiated version,
    followed by a protocol header and data (src/device.c:55-90, 186-241, 785-826). */
module MuxPacket {
  import opened Basics

  const USB_MTU := 49152
  const DEV_MRU := 65536
  const USB_MRU := 16384

  const SYN := 2
  const RST := 4
  const ACK := 16
  const SYN_ACK := 18

  /** The RST bit of a TCP flags byte. */
  predicate HasRst(flags: byte) { flags / 4 % 2 == 1 }

  datatype Proto = Version | Control | Setup | Tcp

  function ProtoNumber(p: Proto): nat
  {
    match p
    case Version => 0
    case Control => 1
    case Setup => 2
    case Tcp => 6
  }

  /** The fields of a TCP header that the daemon reads or writes; the rest of the 20 bytes is constant. */
  datatype TcpHeader = TcpHeader(sport: u16, dport: u16, seqno: u32, ackno: u32, flags: byte, win: u16)

  function TcpBytes(th: TcpHeader): (s: seq<byte>)
    ensures |s| == 20
  {
    BE16(th.sport) + BE16(th.dport) + BE32(th.seqno) + BE32(th.ackno)
    + [0x50, th.flags] + BE16(th.win) + [0, 0, 0, 0]
  }

  function TcpFields(s: seq<byte>): TcpHeader
    requires |s| == 20
  {
    TcpHeader(UnBE16(s[0..2]), UnBE16(s[2..4]), UnBE32(s[4..8]), UnBE32(s[8..12]), s[13], UnBE16(s[14..16]))
  }

  lemma TcpHeaderRoundTrip(th: TcpHeader)
    ensures TcpFields(TcpBytes(th)) == th
    ensures TcpBytes(th)[12] == 0x50 && TcpBytes(th)[16..20] == [0, 0, 0, 0]
  {
    var s := TcpBytes(th);
    assert s[0..2] == BE16(th.sport) && s[2..4] == BE16(th.dport);
    assert s[4..8] == BE32(th.seqno) && s[8..12] == BE32(th.ackno);
    assert s[14..16] == BE16(th.win);
    BE16RoundTrip(th.sport);
    BE16RoundTrip(th.dport);
    BE32RoundTrip(th.seqno);
    BE32RoundTrip(th.ackno);
    BE16RoundTrip(th.win);
  }

  function HeaderSize(version: nat): nat { if version < 2 then 8 else 16 }

  /** struct mux_header, of which versions below 2 use the first two words only. */
  function MuxHeader(version: nat, p: Proto, total: nat, number: u16, seen: u16): (s: seq<byte>)
    ensures |s| == HeaderSize(version)
  {
    BE32(ProtoNumber(p)) + BE32(total)
    + if version < 2 then [] else BE32(0xfeedface) + BE16(number) + BE16(seen)
  }

  /** The bytes send_packet hands to usb_send; `number` and `seen` are the device's tx_seq and rx_seq. */
  function Build(version: nat, p: Proto, header: seq<byte>, data: seq<byte>, number: u16, seen: u16): (s: seq<byte>)
    ensures |s| == HeaderSize(version) + |header| + |data|
  {
    MuxHeader(version, p, HeaderSize(version) + |header| + |data|, number, seen) + header + data
  }

  /** The length field of a mux header. */
  function LengthField(s: seq<byte>): u32
    requires |s| >= 8
  {
    UnBE32(s[4..8])
  }

  /** The tx_seq field of a version-2 mux header. */
  function NumberField(s: seq<byte>): u16
    requires |s| >= 16
  {
    UnBE16(s[12..14])
  }

  function SeenField(s: seq<byte>): u16
    requires |s| >= 16
  {
    UnBE16(s[14..16])
  }

  /** What device_data_input makes of a whole packet. */
  datatype Parsed =
    | BadLength
    | TooSmall
    | VersionIn(major: u32)
    | ControlIn
    | TcpIn(th: TcpHeader, payload: seq<byte>)
    | UnknownProto

  function Parse(version: nat, pkt: seq<byte>): Parsed
    requires |pkt| >= 8
  {
    var hs := HeaderSize(version);
    var proto := UnBE32(pkt[0..4]);
    if LengthField(pkt) != |pkt| then BadLength
    else if proto == 0 then
      if |pkt| < hs + 12 then TooSmall else VersionIn(UnBE32(pkt[hs..hs + 4]))
    else if proto == 1 then ControlIn
    else if proto == 6 then
      if |pkt| < hs + 20 then TooSmall else TcpIn(TcpFields(pkt[hs..hs + 20]), pkt[hs + 20..])
    else UnknownProto
  }

  /** Both ends agree on every header field whatever the version. */
  lemma BuildFields(version: nat, p: Proto, header: seq<byte>, data: seq<byte>, number: u16, seen: u16)
    requires HeaderSize(version) + |header| + |data| < WORD32
    ensures
      var s := Build(version, p, header, data, number, seen);
      var hs := HeaderSize(version);
      && LengthField(s) == |s|
      && UnBE32(s[0..4]) == (if p.Version? then 0 else if p.Control? then 1 else if p.Setup? then 2 else 6)
      && s[hs..hs + |header|] == header
      && s[hs + |header|..] == data
      && (version >= 2 ==> UnBE32(s[8..12]) == 0xfeedface && NumberField(s) == number && SeenField(s) == seen)
  {
    var total := HeaderSize(version) + |header| + |data|;
    var s := Build(version, p, header, data, number, seen);
    assert s[0..4] == BE32(ProtoNumber(p));
    assert s[4..8] == BE32(total);
    BE32RoundTrip(total);
    BE32RoundTrip(ProtoNumber(p));
    BE16RoundTrip(number);
    BE16RoundTrip(seen);
    if version >= 2 {
      assert s[8..12] == BE32(0xfeedface);
      BE32RoundTrip(0xfeedface);
      assert s[12..14] == BE16(number);
      assert s[14..16] == BE16(seen);
    }
  }

  /** Reading back a TCP packet gives the header and payload it was built from, under either header size. */
  lemma TcpRoundTrip(version: nat, th: TcpHeader, data: seq<byte>, number: u16, seen: u16)
    requires HeaderSize(version) + 20 + |data| <= USB_MTU
    ensures Parse(version, Build(version, Tcp, TcpBytes(th), data, number, seen)) == TcpIn(th, data)
  {
    BuildFields(version, Tcp, TcpBytes(th), data, number, seen);
    TcpHeaderRoundTrip(th);
  }

  /** The version packet, which is always sent and read with the short header. */
  function VersionBytes(major: u32, minor: u32): (s: seq<byte>)
    ensures |s| == 12
  {
    BE32(major) + BE32(minor) + BE32(0)
  }

  lemma VersionRoundTrip(version: nat, major: u32, minor: u32, number: u16, seen: u16)
    ensures Parse(version, Build(version, Version, VersionBytes(major, minor), [], number, seen)) == VersionIn(major)
    ensures UnBE32(VersionBytes(major, minor)[4..8]) == minor && VersionBytes(major, minor)[8..12] == [0, 0, 0, 0]
  {
    BE32RoundTrip(minor);
    assert VersionBytes(major, minor)[4..8] == BE32(minor) && VersionBytes(major, minor)[8..12] == BE32(0);
    var vb := VersionBytes(major, minor);
    BuildFields(version, Version, vb, [], number, seen);
    var s := Build(version, Version, vb, [], number, seen);
    var hs := HeaderSize(version);
    assert s[hs..hs + 4] == s[hs..hs + 12][..4] == BE32(major);
    BE32RoundTrip(major);
  }
}
