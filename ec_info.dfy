/** Firmware, mainboard and product information, the boot state, and the
    device-information cache the EC device fills at probe time
    (drivers/mfd/wgw_ec_dev.c, fw_info_get to display_cache_info). */
module EcInfo {
  import opened Transport
  import opened EcTables
  import opened MemSlot

  const APP_COMMIT_HASH_SIZE := 16
  const APP_COMMIT_DATE_SIZE := 32

  /** sizeof(struct hw_info): a 6-byte version, three bytes, one byte of
      padding. */
  const HW_INFO_SIZE := 10

  /** The only protocol version this driver speaks. */
  const PROTOC_VERSION := 2

  /** Boot state substituted when the register cannot be read, and written to
      clear it. */
  const BOOT_STATE_CLEAR: u8 := 0xFF

  datatype FwInfo = FwInfo(version: Version, versionStr: string, commitHash: string, commitDate: string)

  /** An enum value with its name; the id is signed (-1 when unknown). */
  datatype Tuple = Tuple(id: int, str: string)

  datatype MainboardInfo = MainboardInfo(
    versionStr: string, model: Tuple, baseModel: Tuple, variant: Tuple, fw: FwInfo)

  datatype ProductInfo = ProductInfo(model: Tuple, variant: Tuple, versionStr: string, serial: SlotStr)

  /** struct wgw_ec_info: what fetch_cache_info fills. */
  datatype CacheInfo = CacheInfo(protoc: u8, mainboard: MainboardInfo, product: ProductInfo, bootState: u8)

  /** The zero-filled cache of a freshly allocated device. */
  const ZERO_FW := FwInfo(Version(0, 0, 0), "", "", "")
  const ZERO_CACHE := CacheInfo(
    0,
    MainboardInfo("", Tuple(0, ""), Tuple(0, ""), Tuple(0, ""), ZERO_FW),
    ProductInfo(Tuple(0, ""), Tuple(0, ""), "", SlotStr(0, "")),
    0)

  /** fw_info_get: version block, commit hash, commit date, each checked for
      size; the fields filled before a failure stay filled. */
  function FwInfoGetSpec(b: Bus, fw: FwInfo): Res<FwInfo>
  {
    var r1 := Peek(b);
    var b1 := Issue(b, Read(BlockData, REG_FW_INFO1));
    if r1.Nak? then Res(BlockReadRet(r1), fw, b1)
    else if |r1.data| != VERSION_SIZE then Res(-EIO, fw, b1)
    else
      var v := DecodeVersion(r1.data);
      var fw1 := fw.(version := v, versionStr := FwVersionStr(v));
      var r2 := Peek(b1);
      var b2 := Issue(b1, Read(BlockData, REG_FW_INFO2));
      if r2.Nak? then Res(BlockReadRet(r2), fw1, b2)
      else if |r2.data| >= APP_COMMIT_HASH_SIZE then Res(-EIO, fw1, b2)
      else
        var fw2 := fw1.(commitHash := CString(r2.data));
        var r3 := Peek(b2);
        var b3 := Issue(b2, Read(BlockData, REG_FW_INFO3));
        if r3.Nak? then Res(BlockReadRet(r3), fw2, b3)
        else if |r3.data| >= APP_COMMIT_DATE_SIZE then Res(-EIO, fw2, b3)
        else Res(0, fw2.(commitDate := CString(r3.data)), b3)
  }

  /** The mainboard models this driver supports. */
  predicate SupportedMainboard(id: int)
  {
    id == MB_WGW_L02_BASE_L1 || id == MB_WGW_L02_BASE_L1_4G
  }

  /** mainboard_info_get: the hardware block (version, model, variant,
      frequency), then the firmware information. */
  function MainboardInfoGetSpec(b: Bus, mb: MainboardInfo): Res<MainboardInfo>
  {
    var r := Peek(b);
    var b1 := Issue(b, Read(BlockData, REG_HW_INFO));
    if r.Nak? then Res(BlockReadRet(r), mb, b1)
    else if |r.data| != HW_INFO_SIZE then Res(-EIO, mb, b1)
    else
      var modelRef := At(r.data, 6);
      var mb1 := mb.(versionStr := HwVersionStr(DecodeVersion(r.data)),
                     model := Tuple(MainboardRefIndex(modelRef), MainboardRefStr(modelRef)));
      if !SupportedMainboard(mb1.model.id) then Res(-EIO, mb1, b1)
      else
        var frequency := At(r.data, 8);
        var mb2 := mb1.(baseModel := Tuple(MB_WGW_L02_BASE_L1, MainboardRefStr(MB_WGW_L02_BASE_L1)),
                        variant := Tuple(MainboardVariantIndex(frequency), MainboardVariantStr(frequency)));
        var f := FwInfoGetSpec(b1, mb2.fw);
        Res(f.ret, mb2.(fw := f.val), f.bus)
  }

  /** wgw_ec_boot_state_get: the register, or 0xFF when it cannot be read. */
  function BootStateGetSpec(b: Bus, prior: u8): Res<u8>
  {
    var r := Peek(b);
    Res(0, if r.Nak? then BOOT_STATE_CLEAR else ByteOf(r), Issue(b, Read(ByteData, REG_LAST_RESET_STATE)))
  }

  /** wgw_ec_boot_state_clr_update: write 0xFF, then read the register back. */
  function BootStateClrUpdateSpec(b: Bus, prior: u8): Res<u8>
  {
    var r := Peek(b);
    var b1 := Issue(b, Write(ByteData, REG_LAST_RESET_STATE, [BOOT_STATE_CLEAR]));
    if r.Nak? then Res(WriteRet(ByteData, 1, r), prior, b1)
    else BootStateGetSpec(b1, prior)
  }

  /** The product-model slot (slot 1) read fails or is unset. */
  predicate SlotMissing(r: Res<SlotU8>)
  {
    r.ret < 0 || r.val.state < MEM_SLOT_STATE_SET
  }

  /** fetch_cache_info: protocol version, mainboard, then the product. */
  function FetchCacheInfoSpec(b: Bus, c: CacheInfo, strSize: nat): Res<CacheInfo>
  {
    var r := Peek(b);
    var b1 := Issue(b, Read(ByteData, REG_PROTOC_VER));
    if r.Nak? then Res(ReadRet(r), c, b1)
    else
      var c1 := c.(protoc := ByteOf(r));
      if c1.protoc != PROTOC_VERSION then Res(-EPROTO, c1, b1)
      else
        var m := MainboardInfoGetSpec(b1, c1.mainboard);
        var c2 := c1.(mainboard := m.val);
        if m.ret < 0 then Res(m.ret, c2, m.bus)
        else FetchProductSpec(m.bus, c2, strSize)
  }

  /** Product model (slot 1) and variant (slot 3), with the Wifx L1
      fallbacks for boards that predate the slots. */
  function FetchProductSpec(b: Bus, c: CacheInfo, strSize: nat): Res<CacheInfo>
  {
    var mr := SlotGetU8(b, 1, SlotU8(0, 0));
    if SlotMissing(mr) && c.mainboard.model.id != MB_WGW_L01_BASE then Res(-EIO, c, mr.bus)
    else
      var modelId := if SlotMissing(mr) then M_WIFX_L1 else mr.val.value;
      var c1 := c.(product := c.product.(model := Tuple(modelId, ModelStr(modelId))));
      var vr := SlotGetU8(mr.bus, 3, mr.val);
      if SlotMissing(vr) && modelId != M_WIFX_L1 then Res(-EIO, c1, vr.bus)
      else
        var variantId := if SlotMissing(vr) then c.mainboard.variant.id else vr.val.value;
        var c2 := c1.(product := c1.product.(variant := c1.product.variant.(id := variantId)));
        var index := ModelVariantIndex(modelId, variantId % 0x100);
        if index < 0 then Res(index, c2, vr.bus)
        else
          var vstr := ModelVariantStr(modelId, variantId % 0x100);
          var c3 := c2.(product := c2.product.(variant := c2.product.variant.(str := vstr)));
          FetchVersionSerialSpec(vr.bus, c3, strSize)
  }

  /** Product version (slot 2, falling back to the mainboard's for a Wifx
      L1), serial (slot 0) and the boot state. */
  function FetchVersionSerialSpec(b: Bus, c: CacheInfo, strSize: nat): Res<CacheInfo>
  {
    var vr := SlotGetStr(b, 2, strSize);
    if vr.ret < 0 && c.product.model.id != M_WIFX_L1 then Res(vr.ret, c, vr.bus)
    else
      var version := if vr.ret < 0 then c.mainboard.versionStr else vr.val.data;
      var c1 := c.(product := c.product.(versionStr := version));
      var sr := SlotGetStr(vr.bus, 0, strSize);
      var c2 := c1.(product := c1.product.(serial := sr.val));
      if sr.ret < 0 then Res(sr.ret, c2, sr.bus)
      else
        var br := BootStateGetSpec(sr.bus, c2.bootState);
        Res(if br.ret < 0 then br.ret else 0, c2.(bootState := br.val), br.bus)
  }

  /** What display_cache_info leaves behind: the boot state and whether
      `cache_lock` is still held. */
  datatype DisplayOutcome = DisplayOutcome(bootState: u8, locked: bool)

  /** display_cache_info as written: a failed boot-state clear returns with
      the cache lock still held. */
  function DisplayCacheInfoAsWritten(b: Bus, c: CacheInfo): Res<DisplayOutcome>
  {
    if c.product.model.id != M_WIFX_L1 && c.product.model.id != M_WIFX_L1_4G then
      Res(-ENODEV, DisplayOutcome(c.bootState, false), b)
    else if c.mainboard.variant.id < 0 then
      Res(-ENODEV, DisplayOutcome(c.bootState, false), b)
    else if c.bootState == 0x00 || c.bootState == 0x01 then
      Res(0, DisplayOutcome(c.bootState, false), b)
    else
      var r := BootStateClrUpdateSpec(b, c.bootState);
      if r.ret < 0 then Res(r.ret, DisplayOutcome(r.val, true), r.bus)
      else Res(0, DisplayOutcome(r.val, false), r.bus)
  }

  /** display_cache_info releasing the lock on every exit. */
  function DisplayCacheInfoSpec(b: Bus, c: CacheInfo): Res<DisplayOutcome>
  {
    var r := DisplayCacheInfoAsWritten(b, c);
    Res(r.ret, r.val.(locked := false), r.bus)
  }

  method FwInfoGet(ec: Ec, fw: FwInfo) returns (ret: int, out: FwInfo)
    modifies ec`pos, ec`log
    ensures Res(ret, out, ec.State()) == FwInfoGetSpec(old(ec.State()), fw)
  {
    out := fw;
    var data: Block;
    ret, data := ec.ReadBlock(REG_FW_INFO1);
    if ret < 0 {
      return;
    }
    if ret != VERSION_SIZE {
      return -EIO, out;
    }
    var v := DecodeVersion(data);
    out := out.(version := v, versionStr := FwVersionStr(v));
    ret, data := ec.ReadBlock(REG_FW_INFO2);
    if ret < 0 {
      return;
    }
    if ret >= APP_COMMIT_HASH_SIZE {
      return -EIO, out;
    }
    out := out.(commitHash := CString(data));
    ret, data := ec.ReadBlock(REG_FW_INFO3);
    if ret < 0 {
      return;
    }
    if ret >= APP_COMMIT_DATE_SIZE {
      return -EIO, out;
    }
    out := out.(commitDate := CString(data));
    return 0, out;
  }

  method MainboardInfoGet(ec: Ec, mb: MainboardInfo) returns (ret: int, out: MainboardInfo)
    modifies ec`pos, ec`log
    ensures Res(ret, out, ec.State()) == MainboardInfoGetSpec(old(ec.State()), mb)
  {
    out := mb;
    var data: Block;
    ret, data := ec.ReadBlock(REG_HW_INFO);
    if ret < 0 {
      return;
    }
    if ret != HW_INFO_SIZE {
      return -EIO, out;
    }
    out := out.(versionStr := HwVersionStr(DecodeVersion(data)));
    var modelRef := data[6];
    out := out.(model := Tuple(MainboardRefIndex(modelRef), MainboardRefStr(modelRef)));
    if !SupportedMainboard(out.model.id) {
      return -EIO, out;
    }
    out := out.(baseModel := Tuple(MB_WGW_L02_BASE_L1, MainboardRefStr(MB_WGW_L02_BASE_L1)));
    var frequency := data[8];
    out := out.(variant := Tuple(MainboardVariantIndex(frequency), MainboardVariantStr(frequency)));
    var fw;
    ret, fw := FwInfoGet(ec, out.fw);
    out := out.(fw := fw);
  }

  method BootStateGet(ec: Ec, prior: u8) returns (ret: int, bootState: u8)
    modifies ec`pos, ec`log
    ensures Res(ret, bootState, ec.State()) == BootStateGetSpec(old(ec.State()), prior)
  {
    ret, bootState := ec.ReadByte(REG_LAST_RESET_STATE);
    if ret < 0 {
      bootState := BOOT_STATE_CLEAR;
    }
    return 0, bootState;
  }

  method BootStateClrUpdate(ec: Ec, prior: u8) returns (ret: int, bootState: u8)
    modifies ec`pos, ec`log
    ensures Res(ret, bootState, ec.State()) == BootStateClrUpdateSpec(old(ec.State()), prior)
  {
    ret := ec.WriteByte(REG_LAST_RESET_STATE, BOOT_STATE_CLEAR);
    if ret < 0 {
      return ret, prior;
    }
    ret, bootState := BootStateGet(ec, prior);
  }

  /** struct wgw_ec_dev: the EC, the information cache and its mutex (only
      whether it is held is modelled). */
  class EcDev {
    const ec: Ec
    const strSize: nat
    var protoc: u8
    var mainboard: MainboardInfo
    var product: ProductInfo
    var bootState: u8
    ghost var cacheLocked: bool

    function Cache(): CacheInfo
      reads this
    {
      CacheInfo(protoc, mainboard, product, bootState)
    }

    constructor (ec: Ec, strSize: nat)
      ensures this.ec == ec && this.strSize == strSize
      ensures Cache() == ZERO_CACHE && !cacheLocked
    {
      this.ec := ec;
      this.strSize := strSize;
      protoc, mainboard, product, bootState := ZERO_CACHE.protoc, ZERO_CACHE.mainboard,
        ZERO_CACHE.product, ZERO_CACHE.bootState;
      cacheLocked := false;
    }

    method FetchCacheInfo() returns (ret: int)
      requires !cacheLocked
      modifies this, ec`pos, ec`log
      ensures !cacheLocked
      ensures Res(ret, Cache(), ec.State()) == FetchCacheInfoSpec(old(ec.State()), old(Cache()), strSize)
    {
      cacheLocked := true;
      var value: u8;
      ret, value := ec.ReadByte(REG_PROTOC_VER);
      if ret < 0 {
        cacheLocked := false;
        return;
      }
      protoc := value;
      if protoc != PROTOC_VERSION {
        cacheLocked := false;
        return -EPROTO;
      }
      ret, mainboard := MainboardInfoGet(ec, mainboard);
      if ret < 0 {
        cacheLocked := false;
        return;
      }
      ret := FetchProduct();
      cacheLocked := false;
    }

    method FetchProduct() returns (ret: int)
      modifies this`product, this`bootState, ec`pos, ec`log
      ensures Res(ret, Cache(), ec.State()) == FetchProductSpec(old(ec.State()), old(Cache()), strSize)
    {
      var slotU8;
      ret, slotU8 := MemSlotGetU8(ec, 1, SlotU8(0, 0));
      var modelId: int;
      if ret < 0 || slotU8.state < MEM_SLOT_STATE_SET {
        if mainboard.model.id == MB_WGW_L01_BASE {
          modelId := M_WIFX_L1;
        } else {
          return -EIO;
        }
      } else {
        modelId := slotU8.value;
      }
      product := product.(model := Tuple(modelId, ModelStr(modelId)));
      ret, slotU8 := MemSlotGetU8(ec, 3, slotU8);
      var variantId: int;
      if ret < 0 || slotU8.state < MEM_SLOT_STATE_SET {
        if modelId == M_WIFX_L1 {
          variantId := mainboard.variant.id;
        } else {
          return -EIO;
        }
      } else {
        variantId := slotU8.value;
      }
      product := product.(variant := product.variant.(id := variantId));
      ret := ModelVariantIndex(modelId, variantId % 0x100);
      if ret < 0 {
        return;
      }
      product := product.(variant := product.variant.(str := ModelVariantStr(modelId, variantId % 0x100)));
      ret := FetchVersionSerial();
    }

    method FetchVersionSerial() returns (ret: int)
      modifies this`product, this`bootState, ec`pos, ec`log
      ensures Res(ret, Cache(), ec.State()) == FetchVersionSerialSpec(old(ec.State()), old(Cache()), strSize)
    {
      var slotStr;
      ret, slotStr := MemSlotGetStr(ec, 2, strSize);
      if ret < 0 {
        if product.model.id == M_WIFX_L1 {
          product := product.(versionStr := mainboard.versionStr);
        } else {
          return;
        }
      } else {
        product := product.(versionStr := slotStr.data);
      }
      var serial;
      ret, serial := MemSlotGetStr(ec, 0, strSize);
      product := product.(serial := serial);
      if ret < 0 {
        return;
      }
      ret, bootState := BootStateGet(ec, bootState);
      if ret < 0 {
        return;
      }
      return 0;
    }

    method DisplayCacheInfo() returns (ret: int)
      requires !cacheLocked
      modifies this`bootState, this`cacheLocked, ec`pos, ec`log
      ensures Res(ret, DisplayOutcome(bootState, cacheLocked), ec.State())
           == DisplayCacheInfoSpec(old(ec.State()), old(Cache()))
    {
      ret := -ENODEV;
      cacheLocked := true;
      if product.model.id != M_WIFX_L1 && product.model.id != M_WIFX_L1_4G {
        cacheLocked := false;
        return;
      }
      if mainboard.variant.id < 0 {
        cacheLocked := false;
        return;
      }
      if bootState != 0x00 && bootState != 0x01 {
        ret, bootState := BootStateClrUpdate(ec, bootState);
        if ret < 0 {
          cacheLocked := false;
          return;
        }
      }
      cacheLocked := false;
      return 0;
    }
  }

  /** Firmware information succeeds exactly when the version block has six
      bytes, the hash fewer than 16 and the date fewer than 32; it then holds
      the decoded version and both strings. */
  lemma FwInfoGetSound(b: Bus, fw: FwInfo)
    ensures var r := FwInfoGetSpec(b, fw);
      && r.ret <= 0
      && (r.ret == 0 <==>
            && Peek(b).Ack? && |Peek(b).data| == VERSION_SIZE
            && ReplyAt(b, 1).Ack? && |ReplyAt(b, 1).data| < APP_COMMIT_HASH_SIZE
            && ReplyAt(b, 2).Ack? && |ReplyAt(b, 2).data| < APP_COMMIT_DATE_SIZE)
      && (r.ret == 0 ==>
            && r.val.version == DecodeVersion(Peek(b).data)
            && r.val.versionStr == FwVersionStr(r.val.version)
            && r.val.commitHash == CString(ReplyAt(b, 1).data)
            && r.val.commitDate == CString(ReplyAt(b, 2).data)
            && r.bus.pos == b.pos + 3)
      && (Peek(b).Ack? && |Peek(b).data| != VERSION_SIZE ==> r.ret == -EIO && r.val == fw)
  {
    var b1 := Issue(b, Read(BlockData, REG_FW_INFO1));
    var b2 := Issue(b1, Read(BlockData, REG_FW_INFO2));
    assert ReplyAt(b, 1) == Peek(b1);
    assert ReplyAt(b, 2) == Peek(b2);
  }

  /** The mainboard information is only ever accepted for the two supported
      boards, whose base model is then always the L1 base; its hardware
      version string is the decoded block's. */
  lemma MainboardInfoGetSound(b: Bus, mb: MainboardInfo)
    ensures var r := MainboardInfoGetSpec(b, mb);
      && r.ret <= 0
      && (r.ret == 0 ==>
            && Peek(b).Ack? && |Peek(b).data| == HW_INFO_SIZE
            && SupportedMainboard(r.val.model.id)
            && r.val.model.id == Peek(b).data[6]
            && r.val.baseModel == Tuple(MB_WGW_L02_BASE_L1, "wgw-l02-base")
            && r.val.versionStr == HwVersionStr(DecodeVersion(Peek(b).data))
            && r.val.variant.id == MainboardVariantIndex(Peek(b).data[8])
            && r.val.fw == FwInfoGetSpec(Issue(b, Read(BlockData, REG_HW_INFO)), mb.fw).val)
      && (Peek(b).Ack? && |Peek(b).data| != HW_INFO_SIZE ==> r.ret == -EIO)
      && ((Peek(b).Ack? && |Peek(b).data| == HW_INFO_SIZE && !SupportedMainboard(Peek(b).data[6]))
            ==> r.ret == -EIO && r.bus.pos == b.pos + 1)
      && ((Peek(b).Ack? && |Peek(b).data| == HW_INFO_SIZE && SupportedMainboard(Peek(b).data[6]))
            ==> var f := FwInfoGetSpec(Issue(b, Read(BlockData, REG_HW_INFO)), mb.fw);
                r.ret == f.ret && r.bus == f.bus)
  {
    var b1 := Issue(b, Read(BlockData, REG_HW_INFO));
    FwInfoGetSound(b1, MainboardInfoGetSpec(b, mb).val.fw);
    if Peek(b).Ack? && |Peek(b).data| == HW_INFO_SIZE {
      FwInfoGetSound(b1, mb.fw);
    }
  }

  /** Reading the boot state never fails; an unreadable register reads 0xFF. */
  lemma BootStateGetNeverFails(b: Bus, prior: u8)
    ensures var r := BootStateGetSpec(b, prior);
      r.ret == 0 && r.bus.log == b.log + [Read(ByteData, REG_LAST_RESET_STATE)]
      && (Peek(b).Nak? ==> r.val == BOOT_STATE_CLEAR)
      && (Peek(b).Ack? ==> r.val == At(Peek(b).data, 0))
  {
  }

  /** Clearing the boot state writes 0xFF first; a failed write is returned
      and keeps the old value, otherwise the fresh value is read back. */
  lemma BootStateClrUpdateWritesFirst(b: Bus, prior: u8)
    ensures var r := BootStateClrUpdateSpec(b, prior);
      && |r.bus.log| > |b.log|
      && r.bus.log[|b.log|] == Write(ByteData, REG_LAST_RESET_STATE, [BOOT_STATE_CLEAR])
      && (Peek(b).Nak? ==> r.ret < 0 && r.val == prior && r.bus.pos == b.pos + 1)
      && (Peek(b).Ack? ==>
            r.ret == 0 && r.bus.pos == b.pos + 2
            && r.val == (if ReplyAt(b, 1).Nak? then BOOT_STATE_CLEAR else At(ReplyAt(b, 1).data, 0)))
  {
    var b1 := Issue(b, Write(ByteData, REG_LAST_RESET_STATE, [BOOT_STATE_CLEAR]));
    assert ReplyAt(b, 1) == Peek(b1);
  }

  /** A protocol version other than 2 is refused with -EPROTO, but only after
      it has been stored in the cache; nothing else is touched or read. */
  lemma FetchRejectsProtocol(b: Bus, c: CacheInfo, strSize: nat)
    requires Peek(b).Ack? && At(Peek(b).data, 0) != PROTOC_VERSION
    ensures var r := FetchCacheInfoSpec(b, c, strSize);
      r.ret == -EPROTO && r.val == c.(protoc := At(Peek(b).data, 0)) && r.bus.pos == b.pos + 1
  {
  }

  /** The legacy Wifx L1 fallback for the product model only applies to an
      L01 mainboard, which mainboard_info_get has already refused: whenever
      the product step runs, an unreadable or unset model slot is fatal. */
  lemma FetchModelFallbackUnreachable(b: Bus, c: CacheInfo, strSize: nat)
    requires Peek(b).Ack? && At(Peek(b).data, 0) == PROTOC_VERSION
    ensures var b1 := Issue(b, Read(ByteData, REG_PROTOC_VER));
      var m := MainboardInfoGetSpec(b1, c.mainboard);
      m.ret >= 0 ==>
        m.val.model.id != MB_WGW_L01_BASE
        && (SlotMissing(SlotGetU8(m.bus, 1, SlotU8(0, 0))) ==>
              FetchCacheInfoSpec(b, c, strSize).ret == -EIO)
  {
    var b1 := Issue(b, Read(ByteData, REG_PROTOC_VER));
    MainboardInfoGetSound(b1, c.mainboard);
  }

  /** A successful fetch leaves a consistent cache: protocol 2, a supported
      mainboard, a product model with variants whose variant is in its table
      and named by it, and a serial that was read. */
  lemma FetchSuccessConsistent(b: Bus, c: CacheInfo, strSize: nat)
    ensures var r := FetchCacheInfoSpec(b, c, strSize);
      && r.ret <= 0
      && (r.ret == 0 ==>
            && r.val.protoc == PROTOC_VERSION
            && SupportedMainboard(r.val.mainboard.model.id)
            && (r.val.product.model.id == M_WIFX_L1 || r.val.product.model.id == M_WIFX_L1_4G)
            && r.val.product.model.str == ModelStr(r.val.product.model.id)
            && 0 <= r.val.product.variant.id % 0x100
                  < |ModelVariantTable(r.val.product.model.id)|
            && r.val.product.variant.str
               == ModelVariantTable(r.val.product.model.id)[r.val.product.variant.id % 0x100]
            && r.val.product.serial.state >= 0)
  {
    var r0 := Peek(b);
    if r0.Ack? && ByteOf(r0) == PROTOC_VERSION {
      var b1 := Issue(b, Read(ByteData, REG_PROTOC_VER));
      var c1 := c.(protoc := ByteOf(r0));
      var m := MainboardInfoGetSpec(b1, c1.mainboard);
      MainboardInfoGetSound(b1, c1.mainboard);
      if m.ret >= 0 {
        FetchProductConsistent(m.bus, c1.(mainboard := m.val), strSize);
      }
    }
  }

  lemma FetchProductConsistent(b: Bus, c: CacheInfo, strSize: nat)
    ensures var r := FetchProductSpec(b, c, strSize);
      && r.ret <= 0
      && r.val.protoc == c.protoc && r.val.mainboard == c.mainboard
      && (r.ret == 0 ==>
            && (r.val.product.model.id == M_WIFX_L1 || r.val.product.model.id == M_WIFX_L1_4G)
            && r.val.product.model.str == ModelStr(r.val.product.model.id)
            && 0 <= r.val.product.variant.id % 0x100
                  < |ModelVariantTable(r.val.product.model.id)|
            && r.val.product.variant.str
               == ModelVariantTable(r.val.product.model.id)[r.val.product.variant.id % 0x100]
            && r.val.product.serial.state >= 0)
  {
    var mr := SlotGetU8(b, 1, SlotU8(0, 0));
    var modelId := if SlotMissing(mr) then M_WIFX_L1 else mr.val.value;
    var vr := SlotGetU8(mr.bus, 3, mr.val);
    var variantId := if SlotMissing(vr) then c.mainboard.variant.id else vr.val.value;
    if ModelVariantIndex(modelId, variantId % 0x100) >= 0 {
      SlotGetStrStates(SlotGetStr(vr.bus, 2, strSize).bus, 0, strSize);
    }
  }

  /** The converse of FetchProductConsistent: set model and variant slots
      naming a variant of that model's table, followed by readable version
      and serial slots, make the product step succeed. */
  lemma FetchProductSucceeds(b: Bus, c: CacheInfo, strSize: nat)
    requires var mr := SlotGetU8(b, 1, SlotU8(0, 0));
      var vr := SlotGetU8(mr.bus, 3, mr.val);
      var sv := SlotGetStr(vr.bus, 2, strSize);
      && !SlotMissing(mr) && !SlotMissing(vr)
      && ModelVariantIndex(mr.val.value, vr.val.value % 0x100) >= 0
      && sv.ret >= 0 && SlotGetStr(sv.bus, 0, strSize).ret >= 0
    ensures FetchProductSpec(b, c, strSize).ret == 0
  {
  }

  /** The converse of FetchSuccessConsistent: protocol 2, a mainboard read
      that succeeds and a product step that succeeds make the whole fetch
      return 0. */
  lemma FetchSucceeds(b: Bus, c: CacheInfo, strSize: nat)
    requires Peek(b).Ack? && At(Peek(b).data, 0) == PROTOC_VERSION
    requires var m := MainboardInfoGetSpec(Issue(b, Read(ByteData, REG_PROTOC_VER)), c.mainboard);
      && m.ret == 0
      && FetchProductSpec(m.bus, c.(protoc := PROTOC_VERSION, mainboard := m.val), strSize).ret == 0
    ensures FetchCacheInfoSpec(b, c, strSize).ret == 0
  {
  }

  /** A product model slot that reads fine is taken as it is, with no
      fallback, and a variant slot likewise. */
  lemma FetchProductUsesSlots(b: Bus, c: CacheInfo, strSize: nat)
    ensures var mr := SlotGetU8(b, 1, SlotU8(0, 0));
      var r := FetchProductSpec(b, c, strSize);
      !SlotMissing(mr) ==> r.val.product.model == Tuple(mr.val.value, ModelStr(mr.val.value))
  {
  }

  /** Boot states 0 (normal) and 1 (factory reset) are kept without any bus
      transaction; any other value of a supported product is cleared, and
      after a successful clear holds what the EC reports back. */
  lemma DisplayCacheInfoBootState(b: Bus, c: CacheInfo)
    requires c.product.model.id == M_WIFX_L1 || c.product.model.id == M_WIFX_L1_4G
    requires c.mainboard.variant.id >= 0
    ensures var r := DisplayCacheInfoSpec(b, c);
      && ((c.bootState == 0 || c.bootState == 1) ==> r == Res(0, DisplayOutcome(c.bootState, false), b))
      && ((c.bootState != 0 && c.bootState != 1) ==>
            r.bus.log[|b.log|] == Write(ByteData, REG_LAST_RESET_STATE, [BOOT_STATE_CLEAR])
            && (r.ret == 0 <==> Peek(b).Ack?)
            && (r.ret == 0 ==> r.val.bootState == BootStateGetSpec(Issue(b, r.bus.log[|b.log|]), c.bootState).val))
  {
    if c.bootState != 0 && c.bootState != 1 {
      BootStateClrUpdateWritesFirst(b, c.bootState);
    }
  }

  /** An unsupported product, or a mainboard without a known variant, is
      refused with -ENODEV before any bus transaction. */
  lemma DisplayCacheInfoRefuses(b: Bus, c: CacheInfo)
    requires (c.product.model.id != M_WIFX_L1 && c.product.model.id != M_WIFX_L1_4G)
             || c.mainboard.variant.id < 0
    ensures DisplayCacheInfoSpec(b, c) == Res(-ENODEV, DisplayOutcome(c.bootState, false), b)
  {
  }

  /** As written, a boot state of 0x05 whose clear fails returns -EIO with
      the cache lock still held. */
  lemma DisplayCacheInfoAsWrittenKeepsLock()
    ensures var c := ZERO_CACHE.(product := ZERO_CACHE.product.(model := Tuple(M_WIFX_L1, "wifx-l1")),
                                 bootState := 5);
      var r := DisplayCacheInfoAsWritten(Bus([Nak(EIO)], 0, []), c);
      r.ret == -EIO && r.val.locked
  {
  }

  /** Corrected, every exit releases the lock; the outcome is otherwise the
      same as written. */
  lemma DisplayCacheInfoReleasesLock(b: Bus, c: CacheInfo)
    ensures var r := DisplayCacheInfoSpec(b, c);
      var w := DisplayCacheInfoAsWritten(b, c);
      !r.val.locked && r.ret == w.ret && r.val.bootState == w.val.bootState && r.bus == w.bus
      && (w.val.locked <==> w.ret < 0 && c.bootState != 0 && c.bootState != 1 && Peek(b).Nak?
                            && (c.product.model.id == M_WIFX_L1 || c.product.model.id == M_WIFX_L1_4G)
                            && c.mainboard.variant.id >= 0)
  {
  }
}
