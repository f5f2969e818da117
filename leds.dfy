/** The EC-driven LEDs (drivers/leds/leds-wgw-ec.c): one word register per
    LED at 0x60 + id holding its level, LEDs wired active-low driven with the
    inverted level, an array of per-LED records filled slot by slot from the
    device tree, and every registered LED switched off on removal. */
module Leds {
  import opened Transport

  const LED_OFF := 0
  const LED_FULL := 255

  /** The per-LED record (`struct led_wgw_ec_data`): its register id, its
      polarity, the class-device fields the driver sets, and the brightness
      the LED core last asked for. */
  datatype LedData = LedData(
    id: u8, activeLow: bool, name: string, defaultTrigger: string,
    maxBrightness: u32, brightness: u32)

  /** A record as the zeroing allocation leaves it. */
  const ZERO_LED := LedData(0, false, "", "", 0, 0)

  /** What the device tree says about one LED (`struct led_wgw_ec`). */
  datatype LedConfig = LedConfig(
    name: string, defaultTrigger: string, reg: int, activeLow: bool, maxBrightness: u32)

  /** The driver-private block (`struct led_wgw_ec_priv`) seen as a value. */
  datatype LedsView = LedsView(numLeds: nat, leds: seq<LedData>)

  /** The word register of the LED with id `id`; the command is 8 bits wide. */
  function LedReg(id: u8): u8
  {
    (REG_LED_START as int + id) % 0x100
  }

  /** The level led_wgw_ec_set_work writes: the brightness cut to 16 bits,
      subtracted from the maximum when the LED is active-low (unsigned
      arithmetic, stored back into 16 bits). */
  function Level(d: LedData): u16
  {
    var brightness := d.brightness % 0x1_0000;
    if d.activeLow then ((d.maxBrightness - brightness) % 0x1_0000_0000) % 0x1_0000 else brightness
  }

  function WordWrite(reg: u8, value: u16): Op
  {
    Write(WordData, reg, [value % 0x100, value / 0x100])
  }

  /** led_wgw_ec_set_work: one word write; its result is ignored. */
  function SetWorkSpec(b: Bus, d: LedData): Bus
  {
    Issue(b, WordWrite(LedReg(d.id), Level(d)))
  }

  /** The record led_wgw_ec_add fills in for `cfg` when `numLeds` LEDs are
      registered: a negative reg means "take the next free id". */
  function NewLed(cfg: LedConfig, numLeds: nat): (d: LedData)
    ensures d.id == (if cfg.reg < 0 then numLeds else cfg.reg) % 0x100
    ensures d.brightness == (if cfg.activeLow then cfg.maxBrightness else LED_OFF)
  {
    LedData(
      id := (if cfg.reg < 0 then numLeds else cfg.reg) % 0x100,
      activeLow := cfg.activeLow,
      name := cfg.name,
      defaultTrigger := cfg.defaultTrigger,
      maxBrightness := cfg.maxBrightness,
      brightness := if cfg.activeLow then cfg.maxBrightness else LED_OFF)
  }

  /** led_wgw_ec_add: the slot `numLeds` is (re)filled, and the counter moves
      on only when the LED core accepted the registration (`registerRet`). */
  function AddSpec(v: LedsView, cfg: LedConfig, registerRet: int): (int, LedsView)
    requires v.numLeds < |v.leds|
  {
    var leds := v.leds[v.numLeds := NewLed(cfg, v.numLeds)];
    (registerRet, LedsView(if registerRet == 0 then v.numLeds + 1 else v.numLeds, leds))
  }

  /** A device-tree property lookup: the value, or the lookup's errno. */
  datatype Property<T> = Found(value: T) | Missing(errno: Errno)

  /** One child node of the LED node, with the outcome the LED core gives to
      its registration. */
  datatype Child = Child(
    ledLabel: Property<string>, reg: Property<u32>, defaultTrigger: Property<string>,
    maxBrightness: Property<u32>, activeLow: bool, registerRet: int)

  /** The s32 field `reg` as it holds a u32 read from the tree. */
  function S32(x: u32): int
  {
    if x < 0x8000_0000 then x else x - 0x1_0000_0000
  }

  predicate HasRequired(c: Child)
  {
    c.ledLabel.Found? && c.reg.Found? && c.defaultTrigger.Found?
  }

  /** The configuration led_wgw_ec_probe_dt builds from a child with all its
      required properties; a missing max-brightness means LED_FULL. */
  function ConfigOf(c: Child): (cfg: LedConfig)
    requires HasRequired(c)
    ensures cfg.maxBrightness == (if c.maxBrightness.Found? then c.maxBrightness.value else LED_FULL)
  {
    LedConfig(c.ledLabel.value, c.defaultTrigger.value, S32(c.reg.value), c.activeLow,
              if c.maxBrightness.Found? then c.maxBrightness.value else LED_FULL)
  }

  /** What handling one child returns: the errno of the first missing
      required property, else the registration result. */
  function ChildRet(c: Child): int
  {
    if c.ledLabel.Missing? then -(c.ledLabel.errno as int)
    else if c.reg.Missing? then -(c.reg.errno as int)
    else if c.defaultTrigger.Missing? then -(c.defaultTrigger.errno as int)
    else c.registerRet
  }

  /** led_wgw_ec_probe_dt over the children not yet handled. */
  function ProbeDtSpec(v: LedsView, children: seq<Child>): (int, LedsView)
    requires v.numLeds + |children| <= |v.leds|
    decreases |children|
  {
    if children == [] then (0, v)
    else
      var c := children[0];
      if c.ledLabel.Missing? then (-(c.ledLabel.errno as int), v)
      else if c.reg.Missing? then (-(c.reg.errno as int), v)
      else if c.defaultTrigger.Missing? then (-(c.defaultTrigger.errno as int), v)
      else
        var (ret, v1) := AddSpec(v, ConfigOf(c), c.registerRet);
        if ret != 0 then (ret, v1) else ProbeDtSpec(v1, children[1..])
  }

  /** The level led_wgw_ec_remove writes to switch an LED off. */
  function OffLevel(d: LedData): u16
  {
    if d.activeLow then d.maxBrightness % 0x1_0000 else 0
  }

  /** The writes led_wgw_ec_remove issues for the records `leds`, in order. */
  function RemoveWrites(leds: seq<LedData>): (ops: seq<Op>)
    ensures |ops| == |leds|
    ensures forall i :: 0 <= i < |leds| ==> ops[i] == WordWrite(LedReg(leds[i].id), OffLevel(leds[i]))
  {
    if leds == [] then [] else RemoveWrites(leds[..|leds| - 1]) + [WordWrite(LedReg(leds[|leds| - 1].id), OffLevel(leds[|leds| - 1]))]
  }

  /** The bus after led_wgw_ec_remove: one write per registered LED. */
  function RemoveSpec(b: Bus, v: LedsView): Bus
    requires v.numLeds <= |v.leds|
  {
    Bus(b.script, b.pos + v.numLeds, b.log + RemoveWrites(v.leds[..v.numLeds]))
  }

  /** The driver-private block: the EC, the LED records (sized by the number
      of child nodes) and the count of registered LEDs. */
  class LedPriv {
    const ec: Ec
    const leds: array<LedData>
    var numLeds: nat
    /** The LEDs whose work item was scheduled, in order. */
    var scheduled: seq<nat>

    function View(): LedsView
      reads this, leds
    {
      LedsView(numLeds, leds[..])
    }

    /** The zeroed allocation made by probe for `count` child nodes. */
    constructor (ec: Ec, count: nat)
      ensures this.ec == ec && View() == LedsView(0, seq(count, _ => ZERO_LED))
      ensures fresh(leds) && scheduled == []
    {
      this.ec := ec;
      leds := new LedData[count](_ => ZERO_LED);
      numLeds := 0;
      scheduled := [];
    }

    method SetWork(i: nat)
      requires i < leds.Length
      modifies ec`pos, ec`log
      ensures ec.State() == SetWorkSpec(old(ec.State()), leds[i])
    {
      var d := leds[i];
      var brightness: u16 := d.brightness % 0x1_0000;
      if d.activeLow {
        brightness := ((d.maxBrightness - brightness) % 0x1_0000_0000) % 0x1_0000;
      }
      var _ := ec.WriteWord(LedReg(d.id), brightness);
    }

    /** led_wgw_ec_set: records the requested brightness and schedules that
        LED's work item, which is run as a separate `SetWork`. */
    method Set(i: nat, value: u32)
      requires i < leds.Length
      modifies leds, this`scheduled
      ensures leds[..] == old(leds[..])[i := old(leds[i]).(brightness := value)]
      ensures scheduled == old(scheduled) + [i]
    {
      leds[i] := leds[i].(brightness := value);
      scheduled := scheduled + [i];
    }

    method Add(cfg: LedConfig, registerRet: int) returns (ret: int)
      requires numLeds < leds.Length
      modifies this`numLeds, leds
      ensures (ret, View()) == AddSpec(old(View()), cfg, registerRet)
    {
      leds[numLeds] := NewLed(cfg, numLeds);
      ret := registerRet;
      if ret == 0 {
        numLeds := numLeds + 1;
      }
    }

    method ProbeDt(children: seq<Child>) returns (ret: int)
      requires numLeds + |children| <= leds.Length
      modifies this`numLeds, leds
      ensures (ret, View()) == ProbeDtSpec(old(View()), children)
    {
      var i := 0;
      while i < |children|
        invariant 0 <= i <= |children|
        invariant numLeds + |children| - i <= leds.Length
        invariant ProbeDtSpec(View(), children[i..]) == ProbeDtSpec(old(View()), children)
      {
        var c := children[i];
        assert children[i..][0] == c && children[i..][1..] == children[i + 1..];
        if c.ledLabel.Missing? {
          return -(c.ledLabel.errno as int);
        }
        if c.reg.Missing? {
          return -(c.reg.errno as int);
        }
        if c.defaultTrigger.Missing? {
          return -(c.defaultTrigger.errno as int);
        }
        var maxBrightness := if c.maxBrightness.Found? then c.maxBrightness.value else LED_FULL;
        var cfg := LedConfig(c.ledLabel.value, c.defaultTrigger.value, S32(c.reg.value), c.activeLow, maxBrightness);
        ret := Add(cfg, c.registerRet);
        if ret != 0 {
          return;
        }
        i := i + 1;
      }
      return 0;
    }

    method Remove() returns (ret: int)
      requires numLeds <= leds.Length
      modifies ec`pos, ec`log
      ensures ret == 0 && ec.State() == RemoveSpec(old(ec.State()), View())
    {
      var i := 0;
      while i < numLeds
        invariant 0 <= i <= numLeds
        invariant ec.State() == RemoveSpec(old(ec.State()), LedsView(i, leds[..]))
      {
        var d := leds[i];
        var brightness: u16 := 0;
        var maxBrightness: u16 := d.maxBrightness % 0x1_0000;
        if d.activeLow {
          brightness := maxBrightness - brightness;
        }
        assert brightness == OffLevel(d);
        var _ := ec.WriteWord(LedReg(d.id), brightness);
        RemoveStep(old(ec.State()), leds[..], i);
        i := i + 1;
      }
      return 0;
    }
  }

  /** One more iteration of the remove loop: the write for LED `i`. */
  lemma RemoveStep(b: Bus, leds: seq<LedData>, i: nat)
    requires i < |leds|
    ensures Issue(RemoveSpec(b, LedsView(i, leds)), WordWrite(LedReg(leds[i].id), OffLevel(leds[i])))
            == RemoveSpec(b, LedsView(i + 1, leds))
  {
    assert leds[..i + 1] == leds[..i] + [leds[i]];
    assert leds[..i + 1][..i] == leds[..i];
  }

  // ---------------------------------------------------------------------
  // Properties

  /** LED `id` is driven through register 0x60 + id. */
  lemma LedRegOffset(id: u8)
    requires id < 0xA0
    ensures LedReg(id) == REG_LED_START + id
  {
  }

  /** An active-high LED is written its brightness; an active-low one the
      complement to its maximum, so the two polarities add up to the maximum
      at every brightness up to it. */
  lemma LevelInverts(d: LedData)
    requires d.brightness <= d.maxBrightness < 0x1_0000
    ensures Level(d.(activeLow := false)) == d.brightness
    ensures Level(d.(activeLow := true)) == d.maxBrightness - d.brightness
    ensures Level(d.(activeLow := false)) + Level(d.(activeLow := true)) == d.maxBrightness
  {
  }

  /** The level of an active-low LED wraps modulo 2^16 when the brightness
      exceeds the maximum, as the unsigned subtraction does. */
  lemma LevelWrapsAboveMax(d: LedData)
    requires d.activeLow && d.maxBrightness < d.brightness < 0x1_0000
    ensures Level(d) == 0x1_0000 - (d.brightness - d.maxBrightness)
  {
  }

  /** set then the work item: the register of that LED receives the level of
      the new brightness, low byte first. */
  lemma SetThenWork(b: Bus, d: LedData, value: u32)
    requires value <= d.maxBrightness < 0x1_0000
    ensures var lvl := if d.activeLow then d.maxBrightness - value else value;
      SetWorkSpec(b, d.(brightness := value)) == Issue(b, Write(WordData, LedReg(d.id), [lvl % 0x100, lvl / 0x100]))
  {
    var d1 := d.(brightness := value);
    var lvl := if d.activeLow then d.maxBrightness - value else value;
    assert d1.brightness % 0x1_0000 == value;
    if d.activeLow {
      assert (d.maxBrightness - value) % 0x1_0000_0000 == lvl;
    }
    assert Level(d1) == lvl;
  }

  /** A fresh LED starts dark whatever its polarity: active-high at LED_OFF,
      active-low at its maximum, which both write level 0. */
  lemma NewLedIsDark(cfg: LedConfig, numLeds: nat)
    ensures Level(NewLed(cfg, numLeds)) == 0
  {
  }

  /** The counter moves on exactly when registration succeeds; registered
      records are never touched, and a failed registration leaves its slot
      to be overwritten by the next add. */
  lemma AddKeepsRegistered(v: LedsView, cfg: LedConfig, registerRet: int, cfg2: LedConfig, registerRet2: int)
    requires v.numLeds < |v.leds|
    ensures var (ret, v1) := AddSpec(v, cfg, registerRet);
      ret == registerRet
      && v1.numLeds == (if registerRet == 0 then v.numLeds + 1 else v.numLeds)
      && v1.leds[..v.numLeds] == v.leds[..v.numLeds]
      && |v1.leds| == |v.leds|
      && v1.leds[v.numLeds] == NewLed(cfg, v.numLeds)
    ensures var (_, v1) := AddSpec(v, cfg, registerRet);
      registerRet != 0 ==> AddSpec(v1, cfg2, registerRet2).1.leds == v.leds[v.numLeds := NewLed(cfg2, v.numLeds)]
  {
    var (_, v1) := AddSpec(v, cfg, registerRet);
    assert v1.leds[..v.numLeds] == v.leds[..v.numLeds];
  }

  /** A child without a reg (a negative s32, i.e. a value of 2^31 or more in
      the tree) takes the count of registered LEDs as its id. */
  lemma HighRegTakesNextId(c: Child, numLeds: nat)
    requires HasRequired(c) && c.reg.value >= 0x8000_0000
    ensures NewLed(ConfigOf(c), numLeds).id == numLeds % 0x100
  {
  }

  /** How many children, from the first, are handled without error. */
  function LeadingOk(children: seq<Child>): (k: nat)
    ensures k <= |children|
    ensures forall i :: 0 <= i < k ==> ChildRet(children[i]) == 0
    ensures k < |children| ==> ChildRet(children[k]) != 0
  {
    if children == [] || ChildRet(children[0]) != 0 then 0
    else 1 + LeadingOk(children[1..])
  }

  /** probe_dt registers the children in order up to the first failing one
      and returns that child's error, or 0 when every child was registered;
      the records already registered stay as they were. */
  lemma {:induction false} ProbeDtStopsAtFirstError(v: LedsView, children: seq<Child>)
    requires v.numLeds + |children| <= |v.leds|
    ensures var (ret, v1) := ProbeDtSpec(v, children);
      var k := LeadingOk(children);
      v1.numLeds == v.numLeds + k
      && |v1.leds| == |v.leds|
      && v1.leds[..v.numLeds] == v.leds[..v.numLeds]
      && ret == (if k == |children| then 0 else ChildRet(children[k]))
    decreases |children|
  {
    if children != [] {
      var c := children[0];
      if HasRequired(c) {
        var (ret, v1) := AddSpec(v, ConfigOf(c), c.registerRet);
        if ret == 0 {
          ProbeDtStopsAtFirstError(v1, children[1..]);
          var (_, v2) := ProbeDtSpec(v1, children[1..]);
          assert v2.leds[..v.numLeds] == v2.leds[..v1.numLeds][..v.numLeds];
          assert v1.leds[..v.numLeds] == v.leds[..v.numLeds];
        }
      }
    }
  }

  /** When every child is complete and accepted, each one fills the next
      slot with its own configuration (max-brightness defaulting to
      LED_FULL, the id from reg or the slot index). */
  lemma {:induction false} ProbeDtFillsSlots(v: LedsView, children: seq<Child>)
    requires v.numLeds + |children| <= |v.leds|
    requires forall i :: 0 <= i < |children| ==> HasRequired(children[i]) && children[i].registerRet == 0
    ensures var (ret, v1) := ProbeDtSpec(v, children);
      ret == 0 && v1.numLeds == v.numLeds + |children|
      && |v1.leds| == |v.leds|
      && forall i :: 0 <= i < |children| ==>
           v1.leds[v.numLeds + i] == NewLed(ConfigOf(children[i]), v.numLeds + i)
    decreases |children|
  {
    if children != [] {
      var c := children[0];
      var (_, v1) := AddSpec(v, ConfigOf(c), c.registerRet);
      ProbeDtFillsSlots(v1, children[1..]);
      var (_, v2) := ProbeDtSpec(v1, children[1..]);
      ProbeDtStopsAtFirstError(v1, children[1..]);
      forall i | 0 <= i < |children|
        ensures v2.leds[v.numLeds + i] == NewLed(ConfigOf(children[i]), v.numLeds + i)
      {
        if i == 0 {
          assert v2.leds[..v1.numLeds][v.numLeds] == v1.leds[..v1.numLeds][v.numLeds];
        } else {
          assert children[1..][i - 1] == children[i];
        }
      }
    }
  }

  /** remove issues one write per registered LED and nothing more; each is
      what the work item would write for that LED at brightness LED_OFF. */
  lemma RemoveSwitchesOff(b: Bus, v: LedsView)
    requires v.numLeds <= |v.leds|
    ensures var b1 := RemoveSpec(b, v);
      b1.pos == b.pos + v.numLeds && |b1.log| == |b.log| + v.numLeds && b1.log[..|b.log|] == b.log
      && forall i :: 0 <= i < v.numLeds ==>
           && b1.log[|b.log| + i] == SetWorkSpec(b, v.leds[i].(brightness := LED_OFF)).log[|b.log|]
           && b1.log[|b.log| + i] == WordWrite(LedReg(v.leds[i].id), OffLevel(v.leds[i]))
  {
    var b1 := RemoveSpec(b, v);
    var ops := RemoveWrites(v.leds[..v.numLeds]);
    assert b1.log == b.log + ops;
    assert b1.log[..|b.log|] == b.log;
    forall i | 0 <= i < v.numLeds
      ensures b1.log[|b.log| + i] == SetWorkSpec(b, v.leds[i].(brightness := LED_OFF)).log[|b.log|]
      ensures b1.log[|b.log| + i] == WordWrite(LedReg(v.leds[i].id), OffLevel(v.leds[i]))
    {
      assert b1.log[|b.log| + i] == ops[i];
      OffIsLedOff(b, v.leds[i]);
    }
  }

  /** The write remove issues for one LED is the one set_work issues for
      LED_OFF. */
  lemma OffIsLedOff(b: Bus, d: LedData)
    ensures SetWorkSpec(b, d.(brightness := LED_OFF)).log[|b.log|] == WordWrite(LedReg(d.id), OffLevel(d))
  {
  }
}
