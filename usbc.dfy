/** The USB Type-C function of the EC (drivers/mfd/wgw_ec_usbc.c): the mode
    registers, the cached data and power modes, the partner, and the
    interrupt handler that keeps them in step and tells listeners. */
module Usbc {
  import opened Transport

  // enum usb_power_mode
  const USB_POWER_MODE_DETACHED := 0
  const USB_POWER_MODE_SOURCE := 1
  const USB_POWER_MODE_SINK := 2
  const USB_POWER_MODE_ERROR := 3

  // enum usb_data_mode
  const USB_DATA_MODE_DEVICE := 0
  const USB_DATA_MODE_HOST := 1
  const USB_DATA_MODE_ERROR := 2

  // Events published to the USB-C listeners (include/linux/mfd/wgw-ec/usbc.h)
  const USBC_DEVICE_PROBE := 0x0001
  const USBC_NOTIFIER_UPDATE := 0x0002
  const USBC_DATA_MODE_CHANGE := 0x0003
  const USBC_POWER_MODE_CHANGE := 0x0004

  // Notifier-chain return codes
  const NOTIFY_DONE := 0
  const NOTIFY_OK := 1

  // enum typec_role
  const TYPEC_SINK := 0
  const TYPEC_SOURCE := 1

  const PowerModeStrs := ["detached", "source", "sink", "error"]
  const DataModeStrs := ["device", "host", "error"]

  /** struct wgw_ec_usbc_notification */
  datatype Notification = Notification(dev: int, powerMode: int, dataMode: int)

  /** One call of the listeners' chain: the event code and its payload
      (None for NULL). */
  datatype Event = Event(kind: int, payload: Option<Notification>)

  /** The `partner` field: NULL, a registered partner, or an ERR_PTR value
      (which is not NULL). */
  datatype Partner = Absent | Present | Failed(err: int)

  /** Calls into the Type-C class, recorded in order. */
  datatype TypecOp =
    | SetPwrRole(role: int)
    | SetDataRole(role: int)
    | RegisterPartner
    | UnregisterPartner

  /** The mutable part of struct wgw_ec_usbc_dev, with what it has told the
      outside world. */
  datatype UsbcState = UsbcState(
    dataMode: int, powerMode: int, partner: Partner, published: seq<Event>, typec: seq<TypecOp>)

  predicate ValidPowerMode(mode: int)
  {
    mode == USB_POWER_MODE_DETACHED || mode == USB_POWER_MODE_SOURCE || mode == USB_POWER_MODE_SINK
  }

  predicate ValidDataMode(mode: int)
  {
    mode == USB_DATA_MODE_DEVICE || mode == USB_DATA_MODE_HOST
  }

  function PowerModeToStr(mode: int): (s: string)
    ensures ValidPowerMode(mode) ==> s == PowerModeStrs[mode]
    ensures !ValidPowerMode(mode) ==> s == "error"
  {
    if 0 <= mode < USB_POWER_MODE_ERROR then PowerModeStrs[mode] else PowerModeStrs[USB_POWER_MODE_ERROR]
  }

  function DataModeToStr(mode: int): (s: string)
    ensures ValidDataMode(mode) ==> s == DataModeStrs[mode]
    ensures !ValidDataMode(mode) ==> s == "error"
  {
    if 0 <= mode < USB_DATA_MODE_ERROR then DataModeStrs[mode] else DataModeStrs[USB_DATA_MODE_ERROR]
  }

  /** Each valid mode has its own name, never "error". */
  lemma ModeStrsDistinct(a: int, b: int)
    ensures ValidPowerMode(a) ==> PowerModeToStr(a) != "error"
    ensures ValidPowerMode(a) && ValidPowerMode(b) && PowerModeToStr(a) == PowerModeToStr(b) ==> a == b
    ensures ValidDataMode(a) ==> DataModeToStr(a) != "error"
    ensures ValidDataMode(a) && ValidDataMode(b) && DataModeToStr(a) == DataModeToStr(b) ==> a == b
  {
  }

  /** power_mode_get: the mode register; a transport error is passed on. */
  function PowerModeGetSpec(b: Bus): Res<int>
  {
    var r := Peek(b);
    var b1 := Issue(b, Read(ByteData, REG_USB_MODE_POWER));
    if r.Nak? then Res(ReadRet(r), 0, b1)
    else if ValidPowerMode(ByteOf(r)) then Res(ReadRet(r), ByteOf(r), b1)
    else Res(-EIO, ByteOf(r), b1)
  }

  /** data_mode_get: the mode register; a transport error becomes -EIO. */
  function DataModeGetSpec(b: Bus): Res<int>
  {
    var r := Peek(b);
    var b1 := Issue(b, Read(ByteData, REG_USB_MODE_DATA));
    if r.Nak? then Res(-EIO, 0, b1)
    else if ValidDataMode(ByteOf(r)) then Res(ReadRet(r), ByteOf(r), b1)
    else Res(-EIO, ByteOf(r), b1)
  }

  /** data_mode_set: the mode, narrowed to a byte, written when it is Device
      or Host. */
  function DataModeSetSpec(b: Bus, mode: int): Res<()>
  {
    var reg := mode % 0x100;
    if ValidDataMode(reg) then
      Res(WriteRet(ByteData, 1, Peek(b)), (), Issue(b, Write(ByteData, REG_USB_MODE_DATA, [reg])))
    else Res(-EINVAL, (), b)
  }

  /** wgw_ec_usbc_connect: the return code and the new state; `registered`
      is what typec_register_partner returns. */
  function ConnectSpec(s: UsbcState, mode: int, registered: Partner): (int, UsbcState)
  {
    if s.partner != Absent || mode == USB_POWER_MODE_DETACHED then (0, s)
    else
      var s1 := s.(powerMode := mode, partner := registered,
                   typec := s.typec + [SetPwrRole(mode), RegisterPartner]);
      (if registered.Failed? then registered.err else 0, s1)
  }

  /** wgw_ec_usbc_disconnect */
  function DisconnectSpec(s: UsbcState, mode: int): UsbcState
  {
    if mode != USB_POWER_MODE_DETACHED then s
    else
      var unregister := if s.partner.Failed? then [] else [UnregisterPartner];
      s.(partner := Absent, powerMode := mode, typec := s.typec + unregister + [SetPwrRole(TYPEC_SINK)])
  }

  /** wgw_ec_usbc_dr_set: the data role goes to the Type-C class only once
      the EC has taken it. */
  function DrSetSpec(b: Bus, s: UsbcState, role: int): Res<UsbcState>
  {
    var w := DataModeSetSpec(b, role);
    if w.ret < 0 then Res(w.ret, s, w.bus)
    else Res(0, s.(typec := s.typec + [SetDataRole(role)]), w.bus)
  }

  /** `reg & WGW_USBC_DATA_MODE_CHANGE`: bit 0 or bit 1. */
  predicate DataBit(isr: u8)
  {
    isr % 4 != 0
  }

  /** `reg & WGW_USBC_POWER_MODE_CHANGE`: bit 2. */
  predicate PowerBit(isr: u8)
  {
    (isr / 4) % 2 == 1
  }

  /** The data-mode half of the interrupt handler; a negative result sends
      the handler to its failure exit. */
  function DataBranch(b: Bus, s: UsbcState, isr: u8): Res<UsbcState>
  {
    if !DataBit(isr) then Res(0, s, b)
    else
      var g := DataModeGetSpec(b);
      if g.ret < 0 then Res(g.ret, s, g.bus)
      else if s.dataMode == g.val then Res(g.ret, s, g.bus)
      else
        Res(g.ret, s.(dataMode := g.val, typec := s.typec + [SetDataRole(g.val)],
                      published := s.published + [Event(USBC_DATA_MODE_CHANGE, None)]), g.bus)
  }

  /** The power-mode half of the interrupt handler. */
  function PowerBranch(b: Bus, s: UsbcState, isr: u8, registered: Partner): Res<UsbcState>
  {
    if !PowerBit(isr) then Res(0, s, b)
    else
      var g := PowerModeGetSpec(b);
      if g.ret < 0 then Res(g.ret, s, g.bus)
      else if s.powerMode == g.val then Res(g.ret, s, g.bus)
      else
        var s1 := if s.powerMode == USB_POWER_MODE_DETACHED then ConnectSpec(s, g.val, registered).1 else s;
        var s2 := if g.val == USB_POWER_MODE_DETACHED then DisconnectSpec(s1, g.val) else s1;
        Res(g.ret, s2.(published := s2.published + [Event(USBC_POWER_MODE_CHANGE, None)]), g.bus)
  }

  /** The status byte the failure exit writes: both event codes or-ed, 0x07. */
  const ISR_CLEAR_ALL: u8 := 0x07

  /** wgw_ec_usbc_trig_notify */
  function TrigNotifySpec(b: Bus, s: UsbcState, registered: Partner): Res<UsbcState>
  {
    var r := Peek(b);
    var b1 := Issue(b, Read(ByteData, REG_INTERRUPT));
    if r.Nak? then Res(NOTIFY_DONE, s, b1)
    else
      var isr := ByteOf(r);
      var d := DataBranch(b1, s, isr);
      if d.ret < 0 then Res(NOTIFY_OK, d.val, Issue(d.bus, Write(ByteData, REG_INTERRUPT, [ISR_CLEAR_ALL])))
      else
        var p := PowerBranch(d.bus, d.val, isr, registered);
        if p.ret < 0 then Res(NOTIFY_OK, p.val, Issue(p.bus, Write(ByteData, REG_INTERRUPT, [ISR_CLEAR_ALL])))
        else Res(NOTIFY_OK, p.val, Issue(p.bus, Write(ByteData, REG_INTERRUPT, [isr])))
  }

  method PowerModeGet(ec: Ec) returns (ret: int, mode: int)
    modifies ec`pos, ec`log
    ensures Res(ret, mode, ec.State()) == PowerModeGetSpec(old(ec.State()))
  {
    var reg: u8;
    ret, reg := ec.ReadByte(REG_USB_MODE_POWER);
    if ret < 0 {
      return ret, 0;
    }
    mode := reg;
    if !ValidPowerMode(mode) {
      ret := -EIO;
    }
  }

  method DataModeGet(ec: Ec) returns (ret: int, mode: int)
    modifies ec`pos, ec`log
    ensures Res(ret, mode, ec.State()) == DataModeGetSpec(old(ec.State()))
  {
    var reg: u8;
    ret, reg := ec.ReadByte(REG_USB_MODE_DATA);
    if ret < 0 {
      return -EIO, 0;
    }
    mode := reg;
    if !ValidDataMode(mode) {
      ret := -EIO;
    }
  }

  method DataModeSet(ec: Ec, mode: int) returns (ret: int)
    modifies ec`pos, ec`log
    ensures Res(ret, (), ec.State()) == DataModeSetSpec(old(ec.State()), mode)
  {
    var reg: u8 := mode % 0x100;
    if reg == USB_DATA_MODE_DEVICE || reg == USB_DATA_MODE_HOST {
      ret := ec.WriteByte(REG_USB_MODE_DATA, reg);
    } else {
      ret := -EINVAL;
    }
  }

  /** struct wgw_ec_usbc_dev: the cached modes and partner; `published` and
      `typec` record what was sent to the listeners and the Type-C class. */
  class UsbcDev {
    const ec: Ec
    var dataMode: int
    var powerMode: int
    var partner: Partner
    var published: seq<Event>
    var typec: seq<TypecOp>

    function State(): UsbcState
      reads this
    {
      UsbcState(dataMode, powerMode, partner, published, typec)
    }

    constructor (ec: Ec, dataMode: int, powerMode: int)
      ensures this.ec == ec && State() == UsbcState(dataMode, powerMode, Absent, [], [])
    {
      this.ec := ec;
      this.dataMode, this.powerMode := dataMode, powerMode;
      partner, published, typec := Absent, [], [];
    }

    method Connect(mode: int, registered: Partner) returns (ret: int)
      modifies this`powerMode, this`partner, this`typec
      ensures (ret, State()) == ConnectSpec(old(State()), mode, registered)
    {
      if partner != Absent || mode == USB_POWER_MODE_DETACHED {
        return 0;
      }
      powerMode := mode;
      typec := typec + [SetPwrRole(mode)];
      partner := registered;
      typec := typec + [RegisterPartner];
      assert typec == old(typec) + [SetPwrRole(mode), RegisterPartner];
      if partner.Failed? {
        return partner.err;
      }
      return 0;
    }

    method Disconnect(mode: int)
      modifies this`powerMode, this`partner, this`typec
      ensures State() == DisconnectSpec(old(State()), mode)
    {
      if mode != USB_POWER_MODE_DETACHED {
        return;
      }
      if !partner.Failed? {
        typec := typec + [UnregisterPartner];
      }
      partner := Absent;
      powerMode := mode;
      typec := typec + [SetPwrRole(TYPEC_SINK)];
    }

    method DrSet(role: int) returns (ret: int)
      modifies this`typec, ec`pos, ec`log
      ensures Res(ret, State(), ec.State()) == DrSetSpec(old(ec.State()), old(State()), role)
    {
      var status := DataModeSet(ec, role);
      if status < 0 {
        return status;
      }
      typec := typec + [SetDataRole(role)];
      return 0;
    }

    method TrigNotify(registered: Partner) returns (ret: int)
      modifies this, ec`pos, ec`log
      ensures Res(ret, State(), ec.State()) == TrigNotifySpec(old(ec.State()), old(State()), registered)
    {
      var isr: u8;
      ret, isr := ec.ReadByte(REG_INTERRUPT);
      if ret < 0 {
        return NOTIFY_DONE;
      }
      var failed := false;
      if DataBit(isr) {
        var mode;
        ret, mode := DataModeGet(ec);
        if ret < 0 {
          failed := true;
        } else if dataMode != mode {
          dataMode := mode;
          typec := typec + [SetDataRole(mode)];
          published := published + [Event(USBC_DATA_MODE_CHANGE, None)];
        }
      }
      if !failed && PowerBit(isr) {
        var mode;
        ret, mode := PowerModeGet(ec);
        if ret < 0 {
          failed := true;
        } else if powerMode != mode {
          if powerMode == USB_POWER_MODE_DETACHED {
            ret := Connect(mode, registered);
          }
          if mode == USB_POWER_MODE_DETACHED {
            Disconnect(mode);
          }
          published := published + [Event(USBC_POWER_MODE_CHANGE, None)];
        }
      }
      if failed {
        ret := ec.WriteByte(REG_INTERRUPT, ISR_CLEAR_ALL);
      } else {
        ret := ec.WriteByte(REG_INTERRUPT, isr);
      }
      return NOTIFY_OK;
    }

    method GetDataMode() returns (mode: int)
      ensures mode == dataMode
    {
      return dataMode;
    }

    method GetPowerMode() returns (mode: int)
      ensures mode == powerMode
    {
      return powerMode;
    }
  }

  /** Only Detached, Source and Sink are accepted; a transport error is
      passed on unchanged, any other value is -EIO. */
  lemma PowerModeGetSound(b: Bus)
    ensures var g := PowerModeGetSpec(b);
      && (g.ret >= 0 <==> Peek(b).Ack? && ValidPowerMode(At(Peek(b).data, 0)))
      && (g.ret >= 0 ==> g.val == At(Peek(b).data, 0))
      && (Peek(b).Nak? ==> g.ret == -(Peek(b).errno as int))
      && (Peek(b).Ack? && !ValidPowerMode(At(Peek(b).data, 0)) ==> g.ret == -EIO)
      && g.bus == Issue(b, Read(ByteData, REG_USB_MODE_POWER))
  {
  }

  /** Only Device and Host are accepted; a transport error too becomes
      -EIO. */
  lemma DataModeGetSound(b: Bus)
    ensures var g := DataModeGetSpec(b);
      && (g.ret >= 0 <==> Peek(b).Ack? && ValidDataMode(At(Peek(b).data, 0)))
      && (g.ret >= 0 ==> g.val == At(Peek(b).data, 0))
      && (g.ret < 0 ==> g.ret == -EIO)
      && g.bus == Issue(b, Read(ByteData, REG_USB_MODE_DATA))
  {
  }

  /** Device and Host are written to the data-mode register and nothing
      else is; any other mode is refused with -EINVAL before the bus. */
  lemma DataModeSetSound(b: Bus, mode: int)
    ensures var w := DataModeSetSpec(b, mode);
      && (ValidDataMode(mode % 0x100) ==>
            w.bus.log == b.log + [Write(ByteData, REG_USB_MODE_DATA, [mode % 0x100])]
            && (w.ret >= 0 <==> Peek(b).Ack?))
      && (!ValidDataMode(mode % 0x100) ==> w.ret == -EINVAL && w.bus == b)
  {
  }

  /** The Type-C data role follows only a write the EC acknowledged; the
      cached modes are not touched. */
  lemma DrSetSound(b: Bus, s: UsbcState, role: int)
    ensures var r := DrSetSpec(b, s, role);
      && (r.ret == 0 <==> ValidDataMode(role % 0x100) && Peek(b).Ack?)
      && (r.ret == 0 ==> r.val.typec == s.typec + [SetDataRole(role)])
      && (r.ret != 0 ==> r.val == s && r.ret < 0)
      && r.val.dataMode == s.dataMode && r.val.powerMode == s.powerMode
  {
    DataModeSetSound(b, role);
  }

  /** connect does nothing when a partner exists (even an ERR_PTR value) or
      the mode is Detached; otherwise it caches the mode and records the
      partner; disconnect does nothing unless the mode is Detached, and then
      always leaves no partner and the Detached mode. */
  lemma ConnectDisconnectSound(s: UsbcState, mode: int, registered: Partner)
    ensures var c := ConnectSpec(s, mode, registered);
      && ((s.partner != Absent || mode == USB_POWER_MODE_DETACHED) ==> c == (0, s))
      && ((s.partner == Absent && mode != USB_POWER_MODE_DETACHED) ==>
            c.1.powerMode == mode && c.1.partner == registered
            && c.1.dataMode == s.dataMode && c.1.published == s.published
            && (c.0 != 0 <==> registered.Failed? && registered.err != 0))
    ensures var d := DisconnectSpec(s, mode);
      && (mode != USB_POWER_MODE_DETACHED ==> d == s)
      && (mode == USB_POWER_MODE_DETACHED ==>
            d.partner == Absent && d.powerMode == USB_POWER_MODE_DETACHED
            && d.typec[|d.typec| - 1] == SetPwrRole(TYPEC_SINK)
            && d.dataMode == s.dataMode && d.published == s.published)
  {
  }

  /** A failed status read ends the handler with NOTIFY_DONE: nothing
      changes and the status is not written back. */
  lemma TrigNotifyReadFails(b: Bus, s: UsbcState, registered: Partner)
    requires Peek(b).Nak?
    ensures TrigNotifySpec(b, s, registered) == Res(NOTIFY_DONE, s, Issue(b, Read(ByteData, REG_INTERRUPT)))
  {
  }

  /** The data branch updates the cache, and publishes exactly one data-mode
      event, exactly when the mode read differs from the cached one. */
  lemma DataBranchDedup(b: Bus, s: UsbcState, isr: u8)
    requires DataBit(isr)
    ensures var d := DataBranch(b, s, isr);
      var g := DataModeGetSpec(b);
      && (g.ret < 0 ==> d.ret < 0 && d.val == s)
      && (g.ret >= 0 ==>
            && d.val.dataMode == g.val
            && d.val.powerMode == s.powerMode && d.val.partner == s.partner
            && (g.val != s.dataMode ==>
                  d.val.published == s.published + [Event(USBC_DATA_MODE_CHANGE, None)])
            && (g.val == s.dataMode ==> d.val == s))
  {
  }

  /** The power branch publishes one power-mode event exactly when the mode
      read differs from the cached one.  The cache follows only an attach
      from Detached with no partner yet, or a detach; Source to Sink and
      back is published but not cached. */
  lemma PowerBranchTransitions(b: Bus, s: UsbcState, isr: u8, registered: Partner)
    requires PowerBit(isr)
    ensures var p := PowerBranch(b, s, isr, registered);
      var g := PowerModeGetSpec(b);
      && (g.ret < 0 ==> p.ret < 0 && p.val == s)
      && (g.ret >= 0 && g.val == s.powerMode ==> p.val == s)
      && (g.ret >= 0 && g.val != s.powerMode ==>
            && p.val.published == s.published + [Event(USBC_POWER_MODE_CHANGE, None)]
            && p.val.dataMode == s.dataMode
            && (g.val == USB_POWER_MODE_DETACHED ==>
                  p.val.powerMode == USB_POWER_MODE_DETACHED && p.val.partner == Absent)
            && (s.powerMode == USB_POWER_MODE_DETACHED && s.partner == Absent ==>
                  p.val.powerMode == g.val && p.val.partner == registered)
            && (s.powerMode == USB_POWER_MODE_DETACHED && s.partner != Absent ==>
                  p.val.powerMode == s.powerMode && p.val.partner == s.partner)
            && (s.powerMode != USB_POWER_MODE_DETACHED && g.val != USB_POWER_MODE_DETACHED ==>
                  p.val.powerMode == s.powerMode && p.val.partner == s.partner))
  {
  }

  /** Source to Sink: one power-mode event, but the cached mode stays
      Source. */
  lemma SourceToSinkNotCached(s: UsbcState, registered: Partner)
    requires s.powerMode == USB_POWER_MODE_SOURCE
    ensures var b := Bus([Ack([USB_POWER_MODE_SINK])], 0, []);
      var p := PowerBranch(b, s, 4, registered);
      p.val.powerMode == USB_POWER_MODE_SOURCE
      && p.val.published == s.published + [Event(USBC_POWER_MODE_CHANGE, None)]
  {
    PowerBranchTransitions(Bus([Ack([USB_POWER_MODE_SINK])], 0, []), s, 4, registered);
  }

  /** Once the status byte is read the handler returns NOTIFY_OK and its last
      transaction writes the status register: the byte it read when both
      branches succeeded, 0x07 when a mode read failed, in which case the
      state is what the branches before it left. */
  lemma TrigNotifyWritesBack(b: Bus, s: UsbcState, registered: Partner)
    requires Peek(b).Ack?
    ensures var r := TrigNotifySpec(b, s, registered);
      var isr := At(Peek(b).data, 0);
      var d := DataBranch(Issue(b, Read(ByteData, REG_INTERRUPT)), s, isr);
      var p := PowerBranch(d.bus, d.val, isr, registered);
      && r.ret == NOTIFY_OK
      && |r.bus.log| > 0
      && (d.ret < 0 ==> r.val == s && r.bus.log[|r.bus.log| - 1] == Write(ByteData, REG_INTERRUPT, [ISR_CLEAR_ALL]))
      && (d.ret >= 0 && p.ret < 0 ==>
            r.val == d.val && r.bus.log[|r.bus.log| - 1] == Write(ByteData, REG_INTERRUPT, [ISR_CLEAR_ALL]))
      && (d.ret >= 0 && p.ret >= 0 ==>
            r.val == p.val && r.bus.log[|r.bus.log| - 1] == Write(ByteData, REG_INTERRUPT, [isr]))
  {
    var b1 := Issue(b, Read(ByteData, REG_INTERRUPT));
    if DataBit(At(Peek(b).data, 0)) {
      DataBranchDedup(b1, s, At(Peek(b).data, 0));
    }
  }

  /** Every event the handler publishes carries a NULL payload: a state
      whose events all lack one keeps that property. */
  predicate NoPayloads(events: seq<Event>)
  {
    forall i :: 0 <= i < |events| ==> events[i].payload.None?
  }

  lemma TrigNotifyNullPayloads(b: Bus, s: UsbcState, registered: Partner)
    requires NoPayloads(s.published)
    ensures NoPayloads(TrigNotifySpec(b, s, registered).val.published)
  {
    var r := Peek(b);
    if r.Ack? {
      var isr := ByteOf(r);
      var b1 := Issue(b, Read(ByteData, REG_INTERRUPT));
      var d := DataBranch(b1, s, isr);
      assert NoPayloads(d.val.published);
      var p := PowerBranch(d.bus, d.val, isr, registered);
      assert NoPayloads(p.val.published);
    }
  }

  /** The data branch also answers bit 1, which is not the data-change
      bit: a status of 0x02 makes the handler read the data-mode
      register. */
  lemma StatusBit1ReadsDataMode(b: Bus, s: UsbcState, registered: Partner)
    requires b.log == [] && Peek(b) == Ack([0x02])
    ensures var r := TrigNotifySpec(b, s, registered);
      |r.bus.log| >= 2 && r.bus.log[1] == Read(ByteData, REG_USB_MODE_DATA)
  {
  }

  /** Attach as a source, then detach: the partner is registered then
      dropped, the cache ends Detached, and two power-mode events went out. */
  lemma AttachThenDetach(s: UsbcState, registered: Partner)
    requires s.powerMode == USB_POWER_MODE_DETACHED && s.partner == Absent
    requires registered == Present
    ensures var b := Bus([Ack([4]), Ack([USB_POWER_MODE_SOURCE]), Ack([]),
                          Ack([4]), Ack([USB_POWER_MODE_DETACHED]), Ack([])], 0, []);
      var r1 := TrigNotifySpec(b, s, registered);
      var r2 := TrigNotifySpec(r1.bus, r1.val, registered);
      && r1.val.powerMode == USB_POWER_MODE_SOURCE && r1.val.partner == Present
      && r2.val.powerMode == USB_POWER_MODE_DETACHED && r2.val.partner == Absent
      && r2.val.published == s.published + [Event(USBC_POWER_MODE_CHANGE, None),
                                            Event(USBC_POWER_MODE_CHANGE, None)]
  {
  }
}
