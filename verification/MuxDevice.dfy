/** struct mux_device and the functions of src/device.c that update it in place. */
module MuxDevices {
  import opened Basics
  import opened MuxPacket
  import opened Memory
  import opened Assembler
  import D = Device

  class MuxDevice {
    var state: D.DevState
    var visible: bool
    var nextSport: u16
    const pktBuf: array<byte>
    var pktLen: nat
    var version: nat
    var txSeq: u16
    var rxSeq: u16
    const info: seq<byte>
    var sends: nat                 // how often usb_send was called
    ghost var numbered: bool       // tx_seq and rx_seq have been set
    ghost var h: D.DevHistory

    ghost predicate Valid()
      reads this
    {
      Sound() && (version >= 2 ==> numbered)
    }

    /** Valid, except that a device that has just learnt its version has not sent SETUP. */
    ghost predicate Sound()
      reads this
    {
      pktBuf.Length == DEV_MRU && pktLen <= DEV_MRU && pktLen % USB_MRU == 0 && sends == |h.wire|
    }

    /** The structure and its buffer. */
    ghost function Parts(): set<object> { {this, pktBuf} }

    ghost function View(): D.Device
      reads this, pktBuf
      requires Sound()
    {
      D.Device(state, visible, nextSport, pktBuf[..pktLen], version,
               if numbered then Some(txSeq) else None, if numbered then Some(rxSeq) else None, info, h)
    }

    /** device_add; tx_seq and rx_seq are left uninitialised. */
    constructor (i: seq<byte>)
      ensures Valid() && fresh(pktBuf) && View() == D.NewDevice(i)
    {
      state, visible, nextSport, version, info := D.Starting, false, 1, 0, i;
      pktBuf, pktLen := new byte[DEV_MRU], 0;
      txSeq, rxSeq := *, *;
      sends, numbered, h := 0, false, D.DevHistory([], 0);
    }

    /** send_packet up to the call of usb_send, for any packet but SETUP; None when it is larger than the MTU. */
    method SendPacket(p: Proto, header: seq<byte>, data: seq<byte>) returns (packet: Option<seq<byte>>)
      requires Valid() && p != Setup
      modifies this`txSeq, this`sends, this`h
      ensures Valid() && View() == D.SendPacket(old(View()), p, header, data)
      ensures packet.None? <==> D.TooLarge(old(View()), |header|, |data|)
      ensures packet.Some? ==> h.wire == old(h.wire) + [packet.value]
    {
      hide Build;
      var total := HeaderSize(version) + |header| + |data|;
      if total > USB_MTU {
        return None;
      }
      var number, seen := 0, 0;
      if version >= 2 {
        number, seen := txSeq, rxSeq;
        txSeq := (txSeq + 1) % WORD16;
      }
      var buffer := Assemble(version, p, header, data, number, seen);
      sends := sends + 1;
      h := h.(wire := h.wire + [buffer]);
      packet := Some(buffer);
    }

    /** send_packet for the SETUP packet, which starts the numbering. */
    method SendSetup() returns (packet: Option<seq<byte>>)
      requires Sound() && version >= 2
      modifies this`txSeq, this`rxSeq, this`numbered, this`sends, this`h
      ensures Valid() && View() == D.SendPacket(old(View()), Setup, [], [7])
      ensures packet.Some? && h.wire == old(h.wire) + [packet.value]
    {
      hide Build;
      txSeq, rxSeq := 0, 0xFFFF;
      var buffer := Assemble(version, Setup, [], [7], txSeq, rxSeq);
      txSeq := txSeq + 1;
      sends := sends + 1;
      numbered, h := true, h.(wire := h.wire + [buffer], base := |h.wire|);
      packet := Some(buffer);
    }

    /** Fill the packet buffer piece by piece. */
    static method Assemble(version: nat, p: Proto, header: seq<byte>, data: seq<byte>, number: u16, seen: u16)
      returns (packet: seq<byte>)
      ensures packet == Build(version, p, header, data, number, seen)
    {
      hide MuxHeader;
      var size := HeaderSize(version);
      var total := size + |header| + |data|;
      var buffer := new byte[total];
      MemCopy(buffer, 0, MuxHeader(version, p, total, number, seen));
      MemCopy(buffer, size, header);
      MemCopy(buffer, size + |header|, data);
      assert buffer[..total] == buffer[..];
      packet := buffer[..];
    }

    /** device_data_input up to the dispatch of a packet. */
    method DataInput(chunk: seq<byte>) returns (packet: Option<seq<byte>>)
      requires Valid() && (pktLen == 0 ==> chunk == [] || |chunk| >= 8)
      modifies this`pktLen, pktBuf
      ensures Valid()
      ensures View() == old(View()).(buf := Gather(old(View()).buf, chunk).buf)
      ensures packet == Gather(old(View()).buf, chunk).packet
    {
      if |chunk| == 0 || |chunk| > USB_MRU {
        return None;
      }
      var buffer := chunk;
      if pktLen > 0 {
        if |chunk| + pktLen > DEV_MRU {
          pktLen := 0;
          return None;
        }
        MemCopy(pktBuf, pktLen, chunk);
        buffer := pktBuf[..pktLen + |chunk|];
        if |chunk| < USB_MRU || LengthField(buffer) == |buffer| {
          pktLen := 0;
        } else {
          pktLen := pktLen + |chunk|;
          return None;
        }
      } else if |chunk| == USB_MRU && |chunk| < LengthField(chunk) {
        MemCopy(pktBuf, 0, chunk);
        pktLen := |chunk|;
        return None;
      }
      packet := if LengthField(buffer) == |buffer| then Some(buffer) else None;
    }

    /** device_data_input notes the number of the last packet received. */
    method NoteSeen(seen: u16)
      requires Valid() && version >= 2
      modifies this`rxSeq
      ensures Valid() && View() == old(View()).(rxSeq := Some(seen))
    {
      rxSeq := seen;
    }

    /** device_version_input for a version that is understood; the SETUP packet is sent whatever usb_send returns. */
    method Negotiate(major: nat) returns (packet: Option<seq<byte>>)
      requires Valid() && state.Starting?
      modifies this`version, this`state, this`txSeq, this`rxSeq, this`numbered, this`sends, this`h
      ensures Valid() && View() == D.Negotiated(old(View()), major)
    {
      hide Build;
      version := major;
      packet := None;
      if version >= 2 {
        packet := SendSetup();
      }
      state := D.Active;
    }
  }
}
