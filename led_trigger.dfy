/** The "wgw-usbc-data-mode" LED trigger
    (drivers/leds/trigger/ledtrig-wgw-usbc.c): the LED is lit when the USB-C
    port is in Device data mode and the user has enabled the trigger. */
module LedTrigger {
  import opened Transport
  import opened Decimal
  import Usbc

  const LED_OFF := 0
  const LED_FULL := 255

  const INT_MIN := -0x8000_0000
  const INT_MAX := 0x7FFF_FFFF

  /** isspace() of the kernel's ctype table: space, \t \n \v \f \r, and
      the Latin-1 no-break space. */
  predicate IsSpace(c: char)
  {
    c == ' ' || 9 <= c as int <= 13 || c as int == 0xA0
  }

  /** Number of white-space characters at the start of `s`. */
  function SkipSpaces(s: string): (k: nat)
    ensures k <= |s|
    ensures forall i :: 0 <= i < k ==> IsSpace(s[i])
    ensures k < |s| ==> !IsSpace(s[k])
  {
    if s == [] || !IsSpace(s[0]) then 0 else 1 + SkipSpaces(s[1..])
  }

  /** The value a C `int` holds after a wider integer is stored in it. */
  function Int32(x: int): (v: int)
    ensures INT_MIN <= v <= INT_MAX
    ensures INT_MIN <= x <= INT_MAX ==> v == x
  {
    (x - INT_MIN) % 0x1_0000_0000 + INT_MIN
  }

  /** What `sscanf(buf, "%d%c", &enable, &newline)` reports: the number of
      conversions made, the integer and the character after it.  As in the
      kernel's vsscanf, white space is skipped before the number, only '-'
      is accepted as a sign, and a NUL ends the input. */
  datatype Scan = Scan(count: int, value: int, next: char)

  function ScanIntChar(s: string): Scan
  {
    var t := s[SkipSpaces(s)..];
    var neg := |t| > 0 && t[0] == '-';
    var u := if neg then t[1..] else t;
    var k := DigitRun(u);
    if k == 0 then Scan(0, 0, '\0')
    else
      var magnitude: int := Value(u[..k]);
      var v := Int32(if neg then -magnitude else magnitude);
      if k == |u| || u[k] == '\0' then Scan(1, v, '\0') else Scan(2, v, u[k])
  }

  /** The part of struct wgw_usbc_trig_data this trigger uses: the source
      device, `led_on`, `enabled`, whether the update work is pending, and
      every brightness the work has set. */
  datatype TrigState = TrigState(source: int, ledOn: u8, enabled: u8, pending: bool, brightness: seq<int>)

  /** enable_store: "<int>\n" with the int at most 1; the int is stored in
      the byte `enabled` and an update is scheduled. */
  function EnableStoreSpec(t: TrigState, buf: string, size: nat): (int, TrigState)
  {
    var sc := ScanIntChar(buf);
    if sc.count != 2 || sc.next != '\n' || sc.value > 1 then (-EINVAL, t)
    else (size, t.(enabled := sc.value % 0x100, pending := true))
  }

  /** enable_show, the attribute's read side: `enabled` in decimal and a
      newline. */
  function EnableShow(enabled: u8): (s: string)
    ensures 2 <= |s| <= 4 && s[|s| - 1] == '\n'
    ensures AllDigits(s[..|s| - 1]) && Value(s[..|s| - 1]) == enabled
  {
    FormatLength(enabled, 3);
    ValueOfFormat(enabled);
    assert (Format(enabled) + "\n")[..|Format(enabled)|] == Format(enabled);
    Format(enabled) + "\n"
  }

  /** The events that carry a data mode. */
  predicate DataModeEvent(evt: int)
  {
    evt == Usbc.USBC_DATA_MODE_CHANGE || evt == Usbc.USBC_DEVICE_PROBE || evt == Usbc.USBC_NOTIFIER_UPDATE
  }

  /** wgw_usbc_trig_notify, for a non-NULL payload. */
  function NotifySpec(t: TrigState, evt: int, notif: Usbc.Notification): (int, TrigState)
  {
    if notif.dev != t.source then (Usbc.NOTIFY_DONE, t)
    else if DataModeEvent(evt) then
      (Usbc.NOTIFY_OK, t.(ledOn := if notif.dataMode == Usbc.USB_DATA_MODE_DEVICE then 1 else 0, pending := true))
    else (Usbc.NOTIFY_DONE, t)
  }

  /** wgw_usbc_trig_work */
  function WorkSpec(t: TrigState): TrigState
  {
    var level := if t.ledOn != 0 && t.enabled != 0 then LED_FULL else LED_OFF;
    t.(pending := false, brightness := t.brightness + [level])
  }

  /** The device-tree and driver-core answers activation depends on:
      whether the LED has a device, whether the allocation succeeded,
      whether the device has a firmware node, the number of
      "trigger-sources" phandles, the phandle parse's result, whether the
      source is "wifx,wgw-ec-usbc", whether a device was found for it (and
      which), and the notifier registration's result. */
  datatype ActivateEnv = ActivateEnv(
    hasDev: bool, allocOk: bool, hasFwnode: bool, count: int, parseRet: int,
    compatible: bool, sourceFound: bool, sourceDev: int, registerRet: int)

  /** wgw_usbc_trig_activate as written: the return code and the trigger
      data attached to the LED.  An incompatible source, or one without a
      device, returns the 0 left by the successful phandle parse. */
  function ActivateAsWritten(env: ActivateEnv): (int, Option<TrigState>)
  {
    if !env.hasDev then (-ENODEV, None)
    else if !env.allocOk then (-ENOMEM, None)
    else if !env.hasFwnode then (-ENODEV, None)
    else if env.count != 1 then (-ENODEV, None)
    else if env.parseRet != 0 then (env.parseRet, None)
    else if !env.compatible || !env.sourceFound then (env.parseRet, None)
    else
      var data := TrigState(env.sourceDev, 0, 0, false, []);
      if env.registerRet < 0 then (env.registerRet, Some(data)) else (0, Some(data))
  }

  /** Activation refusing an unusable source with -ENODEV. */
  function ActivateSpec(env: ActivateEnv): (int, Option<TrigState>)
  {
    if env.hasDev && env.allocOk && env.hasFwnode && env.count == 1 && env.parseRet == 0
       && (!env.compatible || !env.sourceFound)
    then (-ENODEV, None)
    else ActivateAsWritten(env)
  }

  /** struct wgw_usbc_trig_data */
  class TrigData {
    const source: int
    var ledOn: u8
    var enabled: u8
    var pending: bool
    var brightness: seq<int>

    function State(): TrigState
      reads this
    {
      TrigState(source, ledOn, enabled, pending, brightness)
    }

    /** The initialisation in activate: both flags clear. */
    constructor (source: int)
      ensures State() == TrigState(source, 0, 0, false, [])
    {
      this.source := source;
      ledOn, enabled := 0, 0;
      pending, brightness := false, [];
    }

    method EnableStore(buf: string, size: nat) returns (ret: int)
      modifies this`enabled, this`pending
      ensures (ret, State()) == EnableStoreSpec(old(State()), buf, size)
    {
      var sc := ScanIntChar(buf);
      if sc.count == 2 {
        if sc.next != '\n' {
          return -EINVAL;
        }
        if sc.value > 1 {
          return -EINVAL;
        }
      } else {
        return -EINVAL;
      }
      pending := false;
      enabled := sc.value % 0x100;
      pending := true;
      return size;
    }

    /** The payload is dereferenced unchecked: a NULL one is outside what
        this handler accepts. */
    method Notify(evt: int, payload: Option<Usbc.Notification>) returns (ret: int)
      requires payload.Some?
      modifies this`ledOn, this`pending
      ensures (ret, State()) == NotifySpec(old(State()), evt, payload.value)
    {
      var notif := payload.value;
      if notif.dev != source {
        return Usbc.NOTIFY_DONE;
      }
      if DataModeEvent(evt) {
        pending := false;
        ledOn := if notif.dataMode == Usbc.USB_DATA_MODE_DEVICE then 1 else 0;
        pending := true;
        return Usbc.NOTIFY_OK;
      }
      return Usbc.NOTIFY_DONE;
    }

    method Work()
      modifies this`pending, this`brightness
      ensures State() == WorkSpec(old(State()))
    {
      pending := false;
      if ledOn != 0 && enabled != 0 {
        brightness := brightness + [LED_FULL];
      } else {
        brightness := brightness + [LED_OFF];
      }
    }
  }

  method Activate(env: ActivateEnv) returns (ret: int, data: TrigData?)
    ensures ret == ActivateSpec(env).0
    ensures data == null <==> ActivateSpec(env).1.None?
    ensures data != null ==> fresh(data) && ActivateSpec(env).1 == Some(data.State())
  {
    data := null;
    if !env.hasDev {
      return -ENODEV, null;
    }
    if !env.allocOk {
      return -ENOMEM, null;
    }
    if !env.hasFwnode {
      return -ENODEV, null;
    }
    if env.count == -ENOENT {
      return -ENODEV, null;
    } else if env.count < 0 {
      return -ENODEV, null;
    } else if env.count != 1 {
      return -ENODEV, null;
    }
    ret := env.parseRet;
    if ret != 0 {
      return;
    }
    if !env.compatible || !env.sourceFound {
      return -ENODEV, null;
    }
    data := new TrigData(env.sourceDev);
    ret := env.registerRet;
    if ret < 0 {
      return;
    }
    return 0, data;
  }

  /** An int in decimal, with a leading '-' when negative. */
  function FormatInt(v: int): string
  {
    if v < 0 then "-" + Format(-v) else Format(v)
  }

  /** Any int at most 1, written in decimal with a newline, is accepted and
      lands in `enabled` as its low byte: "1\n" and "0\n" as themselves,
      "-1\n" as 0xFF, which enables the LED as much as 1 does. */
  lemma {:induction false} EnableStoreAcceptsDecimal(t: TrigState, v: int, size: nat)
    requires INT_MIN <= v <= 1
    ensures EnableStoreSpec(t, FormatInt(v) + "\n", size) == (size, t.(enabled := v % 0x100, pending := true))
  {
    var buf := FormatInt(v) + "\n";
    var n := if v < 0 then -v else v;
    var f := Format(n);
    assert SkipSpaces(buf) == 0 by {
      assert buf[0] == '-' || IsDigit(buf[0]);
    }
    assert buf[0..] == buf;
    var u := if v < 0 then buf[1..] else buf;
    assert u == f + "\n";
    DigitRunOfDigits(f, "\n");
    assert u[..|f|] == f;
    ValueOfFormat(n);
  }

  /** Reading `enabled` back through the attribute and storing it again
      changes nothing, for the values the attribute accepts. */
  lemma EnableShowStoreRoundTrip(t: TrigState, size: nat)
    requires t.enabled <= 1
    ensures EnableStoreSpec(t, EnableShow(t.enabled), size) == (size, t.(pending := true))
  {
    EnableStoreAcceptsDecimal(t, t.enabled, size);
  }

  /** Anything but one int followed directly by a newline is refused, and
      so is a value above 1, leaving the state alone. */
  lemma EnableStoreRejects(t: TrigState, buf: string, size: nat)
    ensures var sc := ScanIntChar(buf);
      var r := EnableStoreSpec(t, buf, size);
      && (r.0 == -EINVAL <==> sc.count != 2 || sc.next != '\n' || sc.value > 1)
      && (r.0 == -EINVAL ==> r.1 == t)
      && (r.0 != -EINVAL ==> r.0 == size && r.1.enabled == sc.value % 0x100 && r.1.ledOn == t.ledOn)
  {
  }

  /** Concrete refusals: a value of 2, a missing newline, a space before the
      newline. */
  lemma EnableStoreRejectsExamples(t: TrigState)
    ensures EnableStoreSpec(t, "2\n", 2).0 == -EINVAL
    ensures EnableStoreSpec(t, "1", 1).0 == -EINVAL
    ensures EnableStoreSpec(t, "1 \n", 3).0 == -EINVAL
  {
    ScanOneDigit('2', "\n");
    assert "2\n" == ['2'] + "\n";
    ScanOneDigit('1', "");
    assert "1" == ['1'] + "";
    ScanOneDigit('1', " \n");
    assert "1 \n" == ['1'] + " \n";
  }

  /** One digit, then a non-digit or the end of the input. */
  lemma ScanOneDigit(c: char, rest: string)
    requires IsDigit(c) && (rest == [] || !IsDigit(rest[0]))
    ensures var sc := ScanIntChar([c] + rest);
      && sc.value == c as int - '0' as int
      && (rest == [] || rest[0] == '\0' ==> sc.count == 1)
      && (rest != [] && rest[0] != '\0' ==> sc.count == 2 && sc.next == rest[0])
  {
    var s := [c] + rest;
    assert SkipSpaces(s) == 0;
    assert s[0..] == s;
    DigitRunOfDigits([c], rest);
    assert s[..1] == [c];
    assert Value([c]) == c as int - '0' as int by {
      assert [c][..0] == [];
    }
  }

  /** An event about another device is ignored; a data-mode event sets
      `led_on` exactly when the mode is Device; other events change
      nothing.  `enabled` is never touched. */
  lemma NotifySound(t: TrigState, evt: int, notif: Usbc.Notification)
    ensures var r := NotifySpec(t, evt, notif);
      && r.1.enabled == t.enabled && r.1.source == t.source && r.1.brightness == t.brightness
      && (notif.dev != t.source ==> r == (Usbc.NOTIFY_DONE, t))
      && (notif.dev == t.source && DataModeEvent(evt) ==>
            r.0 == Usbc.NOTIFY_OK && r.1.pending
            && (r.1.ledOn == 1 <==> notif.dataMode == Usbc.USB_DATA_MODE_DEVICE)
            && (r.1.ledOn == 0 <==> notif.dataMode != Usbc.USB_DATA_MODE_DEVICE))
      && (!DataModeEvent(evt) ==> r == (Usbc.NOTIFY_DONE, t))
  {
  }

  /** The work sets full brightness exactly when `led_on` and `enabled` are
      both set, and off otherwise. */
  lemma WorkSound(t: TrigState)
    ensures var w := WorkSpec(t);
      && |w.brightness| == |t.brightness| + 1 && w.brightness[..|t.brightness|] == t.brightness
      && (w.brightness[|t.brightness|] == LED_FULL <==> t.ledOn != 0 && t.enabled != 0)
      && (w.brightness[|t.brightness|] == LED_OFF <==> t.ledOn == 0 || t.enabled == 0)
  {
  }

  /** The events the USB-C interrupt handler publishes all carry a NULL
      payload, so none of them meets `TrigData.Notify`'s precondition
      `payload.Some?`: the notifier would dereference NULL.  An attach is
      one such event. */
  lemma PublishedEventsLackPayload(b: Bus, s: Usbc.UsbcState, registered: Usbc.Partner)
    requires Usbc.NoPayloads(s.published)
    ensures var r := Usbc.TrigNotifySpec(b, s, registered);
      forall i :: 0 <= i < |r.val.published| ==> !r.val.published[i].payload.Some?
    ensures var attach := Bus([Ack([4]), Ack([Usbc.USB_POWER_MODE_SOURCE]), Ack([])], 0, []);
      var s0 := Usbc.UsbcState(Usbc.USB_DATA_MODE_DEVICE, Usbc.USB_POWER_MODE_DETACHED, Usbc.Absent, [], []);
      var r := Usbc.TrigNotifySpec(attach, s0, Usbc.Present);
      |r.val.published| == 1 && !r.val.published[0].payload.Some?
  {
    Usbc.TrigNotifyNullPayloads(b, s, registered);
  }

  /** As written, activating on an incompatible source reports success
      without attaching any trigger data. */
  lemma ActivateAsWrittenSilentSuccess()
    ensures ActivateAsWritten(ActivateEnv(true, true, true, 1, 0, false, true, 7, 0)) == (0, None)
  {
  }

  /** Corrected, activation succeeds exactly when the source was found and
      the notifier registered, and the attached data then starts dark with
      both flags clear; as written the two agree except on an unusable
      source. */
  lemma ActivateSucceedsOnlyAttached(env: ActivateEnv)
    ensures var r := ActivateSpec(env);
      && (r.0 == 0 <==> r.1.Some? && env.registerRet >= 0)
      && (r.1.Some? ==> r.1.value == TrigState(env.sourceDev, 0, 0, false, []))
      && (r.0 != 0 ==> r.0 < 0 || env.parseRet > 0)
      && (r != ActivateAsWritten(env) ==> ActivateAsWritten(env) == (0, None))
  {
  }

  /** Freshly activated, the LED stays off after a Device notification
      until "1\n" is stored, and is then lit. */
  lemma LitOnlyWhenBothSet(source: int)
    ensures var t0 := TrigState(source, 0, 0, false, []);
      var t1 := NotifySpec(t0, Usbc.USBC_DATA_MODE_CHANGE, Usbc.Notification(source, 0, Usbc.USB_DATA_MODE_DEVICE)).1;
      var t2 := WorkSpec(t1);
      var t3 := EnableStoreSpec(t2, "1\n", 2).1;
      var t4 := WorkSpec(t3);
      t4.brightness == [LED_OFF, LED_FULL]
  {
    EnableStoreAcceptsDecimal(WorkSpec(NotifySpec(TrigState(source, 0, 0, false, []), Usbc.USBC_DATA_MODE_CHANGE,
      Usbc.Notification(source, 0, Usbc.USB_DATA_MODE_DEVICE)).1), 1, 2);
    assert FormatInt(1) + "\n" == "1\n";
  }
}
