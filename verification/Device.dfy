/** One attached device (struct mux_device), as a value. The field `h` is a history. */
module Device {
  import opened Basics
  import opened MuxPacket
  import opened Assembler
  import opened Environment

  datatype DevState = Starting | Active | Removed

  datatype DevHistory = DevHistory(
    wire: seq<seq<byte>>,     // every packet handed to usb_send
    base: nat)                // how many of them came before SETUP

  datatype Device = Device(
    state: DevState, visible: bool, nextSport: u16, buf: PacketBuffer, version: nat,
    txSeq: Option<u16>, rxSeq: Option<u16>,     // None: not yet initialised
    info: seq<byte>, h: DevHistory)

  /** device_add */
  function NewDevice(info: seq<byte>): Device
  {
    Device(Starting, false, 1, [], 0, None, None, info, DevHistory([], 0))
  }

  predicate TooLarge(dev: Device, headerLength: nat, n: nat)
  {
    HeaderSize(dev.version) + headerLength + n > USB_MTU
  }

  function Word(o: Option<u16>): u16 { if o.Some? then o.value else 0 }

  predicate SendOk(env: Env, d: nat, dev: Device, headerLength: nat, n: nat)
  {
    !TooLarge(dev, headerLength, n) && env.usbOk(d, |dev.h.wire|)
  }

  /** The device after send_packet, which numbers version-2 packets from the SETUP packet on. */
  function SendPacket(dev: Device, p: Proto, header: seq<byte>, data: seq<byte>): Device
  {
    if TooLarge(dev, |header|, |data|) then dev
    else if dev.version < 2 then
      dev.(h := dev.h.(wire := dev.h.wire + [Build(dev.version, p, header, data, 0, 0)]))
    else
      var ready := if p == Setup then dev.(txSeq := Some(0), rxSeq := Some(0xFFFF), h := dev.h.(base := |dev.h.wire|))
                   else dev;
      var pkt := Build(dev.version, p, header, data, Word(ready.txSeq), Word(ready.rxSeq));
      ready.(txSeq := Some((Word(ready.txSeq) + 1) % WORD16), h := ready.h.(wire := ready.h.wire + [pkt]))
  }

  /** What every device keeps: it is announced only after the version is negotiated; once it speaks version 2,
      packets carry consecutive numbers from 0 and tx_seq and rx_seq have been set before they are read. */
  predicate Consistent(dev: Device)
  {
    && dev.version <= 2
    && (dev.state.Starting? ==> dev.version == 0 && !dev.visible)
    && (dev.version == 2 ==>
          && dev.rxSeq.Some?
          && dev.h.base < |dev.h.wire|
          && dev.txSeq == Some((|dev.h.wire| - dev.h.base) % WORD16)
          && forall i :: dev.h.base <= i < |dev.h.wire| ==>
               |dev.h.wire[i]| >= 16 && NumberField(dev.h.wire[i]) == (i - dev.h.base) % WORD16)
  }

  lemma SendKeepsNumbers(dev: Device, p: Proto, header: seq<byte>, data: seq<byte>)
    requires Consistent(dev) && p != Setup
    ensures Consistent(SendPacket(dev, p, header, data))
  {
    hide Build, NumberField;
    if dev.version == 2 && !TooLarge(dev, |header|, |data|) {
      BuildFields(2, p, header, data, dev.txSeq.value, dev.rxSeq.value);
    }
  }

  /** device_version_input for a version that is understood. */
  function Negotiated(dev: Device, major: nat): Device
  {
    var spoken := dev.(version := major);
    (if major >= 2 then SendPacket(spoken, Setup, [], [7]) else spoken).(state := Active)
  }

  lemma NegotiationStartsNumbers(dev: Device, major: nat)
    requires dev.state.Starting? && 1 <= major <= 2
    ensures Consistent(Negotiated(dev, major))
  {
    hide Build, NumberField;
    if major == 2 {
      BuildFields(2, Setup, [], [7], 0, 0xFFFF);
    }
  }
}
