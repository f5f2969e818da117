/** The EC's four memory slots (drivers/mfd/wgw_ec_dev.c, mem_slot_get and
    its string and byte accessors).  Each slot has a control register holding
    (flags, length) and a data register holding up to 32 bytes. */
module MemSlot {
  import opened Transport

  const MEM_SLOT_SIZE := 32
  const MEM_SLOT_LAST_INDEX := 3

  // Flags in the control register
  const MEM_SLOT_SET := 0x01
  const MEM_SLOT_OTP := 0x02
  const MEM_SLOT_STATE_MSK := 0x03

  // States reported by the string and byte accessors
  const MEM_SLOT_STATE_ERROR := -1
  const MEM_SLOT_STATE_SET := 0x01
  const MEM_SLOT_STATE_OTP := 0x02

  const ERROR_STR := "error"
  const UNDEFINED_STR := "undefined"

  /** `flags & MEM_SLOT_SET` */
  predicate IsSet(flags: int)
  {
    flags % 2 == 1
  }

  /** `flags & MEM_SLOT_OTP` */
  predicate IsOtp(flags: int)
  {
    (flags / 2) % 2 == 1
  }

  /** struct wgw_ec_memory_slot, as a value. */
  datatype Slot = Slot(data: seq<u8>, length: u8, flags: u8)

  /** A local slot before anything is read into it (taken as zero-filled). */
  const FRESH_SLOT := Slot(Zeros(MEM_SLOT_SIZE), 0, 0)


  /** The slot with its control register decoded: flags masked, length kept
      only when the slot is set. */
  function WithCtrl(slot: Slot, ctrl: seq<u8>): (s: Slot)
  {
    var flags := At(ctrl, 0) % 4;
    slot.(flags := flags, length := if IsSet(flags) then At(ctrl, 1) else 0)
  }

  /** `memcpy(slot->data, buffer, len)` */
  function CopyIn(slot: Slot, bytes: seq<u8>): Slot
    requires |bytes| <= |slot.data|
  {
    slot.(data := bytes + slot.data[|bytes|..])
  }

  /** mem_slot_get exactly as written: a data block whose length differs from
      the control register's returns the (non-negative) received count. */
  function SlotGetAsWritten(b: Bus, index: u8, slot: Slot): Res<Slot>
    requires |slot.data| == MEM_SLOT_SIZE
  {
    if index > MEM_SLOT_LAST_INDEX then Res(-EINVAL, slot, b)
    else
      var ctrl := Peek(b);
      var b1 := Issue(b, Read(BlockData, REG_MEM_SLOT0_CTRL + index));
      if ctrl.Nak? then Res(BlockReadRet(ctrl), slot, b1)
      else
        var s := WithCtrl(slot, ctrl.data);
        if !IsSet(s.flags) then Res(0, s, b1)
        else
          var data := Peek(b1);
          var b2 := Issue(b1, Read(BlockData, REG_MEM_SLOT0 + index));
          var ret := BlockReadRet(data);
          if ret < 0 || ret != s.length then Res(ret, s, b2)
          else Res(s.length as int, CopyIn(s, data.data), b2)
  }

  /** mem_slot_get with the length check failing as its message says it
      does: a length mismatch is -EIO.  The rest of the model uses this one. */
  function SlotGet(b: Bus, index: u8, slot: Slot): Res<Slot>
    requires |slot.data| == MEM_SLOT_SIZE
  {
    var r := SlotGetAsWritten(b, index, slot);
    if r.ret >= 0 && r.ret != r.val.length then Res(-EIO, r.val, r.bus) else r
  }

  /** The in-place slot struct: a 32-byte buffer, a length and flags. */
  class MemorySlot {
    var data: array<u8>
    var length: u8
    var flags: u8

    function View(): Slot
      reads this, data
    {
      Slot(data[..], length, flags)
    }

    constructor ()
      ensures View() == FRESH_SLOT && fresh(data)
    {
      data := new u8[MEM_SLOT_SIZE](_ => 0);
      length, flags := 0, 0;
    }
  }

  method MemSlotGet(ec: Ec, index: u8, slot: MemorySlot) returns (ret: int)
    requires slot.data.Length == MEM_SLOT_SIZE
    modifies ec`pos, ec`log, slot, slot.data
    ensures slot.data == old(slot.data)
    ensures Res(ret, slot.View(), ec.State()) == SlotGet(old(ec.State()), index, old(slot.View()))
  {
    if index > MEM_SLOT_LAST_INDEX {
      return -EINVAL;
    }
    var ctrl: Block;
    ret, ctrl := ec.ReadBlock(REG_MEM_SLOT0_CTRL + index);
    if ret < 0 {
      return ret;
    }
    slot.flags := At(ctrl, 0) % 4;
    slot.length := At(ctrl, 1);
    if !IsSet(slot.flags) {
      slot.length := 0;
    } else {
      var buffer: Block;
      ret, buffer := ec.ReadBlock(REG_MEM_SLOT0 + index);
      if ret < 0 {
        return ret;
      }
      if ret != slot.length {
        return -EIO;
      }
      ghost var before := slot.data[..];
      forall i | 0 <= i < |buffer| {
        slot.data[i] := buffer[i];
      }
      assert slot.data[..] == buffer + before[|buffer|..];
    }
    return slot.length;
  }

  /** Whatever the EC answers: an index above 3 is refused before any bus
      transaction; an unset slot reads as empty after the control read only;
      a set slot returns exactly the bytes of its data register, and only
      when there are as many as the control register declares; a failure
      copies nothing. */
  lemma SlotGetSound(b: Bus, index: u8, slot: Slot)
    requires |slot.data| == MEM_SLOT_SIZE
    ensures var r := SlotGet(b, index, slot);
      && |r.val.data| == MEM_SLOT_SIZE
      && (index > MEM_SLOT_LAST_INDEX ==> r.ret == -EINVAL && r.bus == b)
      && (r.ret < 0 ==> r.val.data == slot.data)
      && (r.ret >= 0 ==>
            && index <= MEM_SLOT_LAST_INDEX
            && r.ret == r.val.length <= MEM_SLOT_SIZE
            && r.val.flags == At(Peek(b).data, 0) % 4
            && r.val.data[r.ret..] == slot.data[r.ret..]
            && (!IsSet(r.val.flags) ==> r.ret == 0 && r.bus.pos == b.pos + 1)
            && (IsSet(r.val.flags) ==>
                  r.bus.pos == b.pos + 2 && r.val.length == At(Peek(b).data, 1)
                  && r.val.data[..r.ret] == BlockOf(ReplyAt(b, 1))))
    ensures var r := SlotGet(b, index, slot);
      var ctrl := Peek(b);
      var data := ReplyAt(b, 1);
      index <= MEM_SLOT_LAST_INDEX ==>
        && (ctrl.Nak? ==> r.ret == -(ctrl.errno as int) && r.bus.pos == b.pos + 1)
        && (ctrl.Ack? && !IsSet(At(ctrl.data, 0) % 4) ==>
              r.ret == 0 && r.val.length == 0 && r.bus.pos == b.pos + 1)
        && (ctrl.Ack? && IsSet(At(ctrl.data, 0) % 4) ==>
              && (data.Nak? ==> r.ret == -(data.errno as int))
              && (data.Ack? && |data.data| != At(ctrl.data, 1) ==> r.ret == -EIO)
              && (data.Ack? && |data.data| == At(ctrl.data, 1) ==>
                    r.ret == At(ctrl.data, 1) && r.val.data[..r.ret] == data.data))
  {
    var r := SlotGet(b, index, slot);
    if index <= MEM_SLOT_LAST_INDEX && Peek(b).Ack? {
      var b1 := Issue(b, Read(BlockData, REG_MEM_SLOT0_CTRL + index));
      assert ReplyAt(b, 1) == Peek(b1);
    }
  }

  /** As written, a set slot whose data register returns fewer (or more)
      bytes than declared is reported with the non-negative received count,
      and nothing is copied into the slot. */
  lemma SlotGetAsWrittenMismatch(b: Bus, index: u8, slot: Slot)
    requires |slot.data| == MEM_SLOT_SIZE
    requires index <= MEM_SLOT_LAST_INDEX && Peek(b).Ack?
    requires IsSet(At(Peek(b).data, 0) % 4)
    requires ReplyAt(b, 1).Ack? && |ReplyAt(b, 1).data| != At(Peek(b).data, 1)
    ensures var r := SlotGetAsWritten(b, index, slot);
      r.ret == |ReplyAt(b, 1).data| >= 0 && r.val.length == At(Peek(b).data, 1)
      && r.val.data == slot.data
    ensures SlotGet(b, index, slot).ret == -EIO
  {
    var b1 := Issue(b, Read(BlockData, REG_MEM_SLOT0_CTRL + index));
    assert ReplyAt(b, 1) == Peek(b1);
  }

  /** The concrete case: the control register declares 40 bytes, the data
      register returns 4.  As written the call succeeds with 4 while the slot
      claims 40 bytes, more than its 32-byte buffer, which
      mem_slot_get_str then copies out. */
  lemma SlotGetAsWrittenOverrun()
    ensures var b := Bus([Ack([1, 40]), Ack([0x41, 0x42, 0x43, 0x44])], 0, []);
      var r := SlotGetAsWritten(b, 0, FRESH_SLOT);
      r.ret == 4 && r.val.length as int > MEM_SLOT_SIZE
  {
  }

  /** struct wgw_ec_slot_str: a state and a NUL-terminated string. */
  datatype SlotStr = SlotStr(state: int, data: string)

  /** struct wgw_ec_slot_u8: a state and a byte. */
  datatype SlotU8 = SlotU8(state: int, value: u8)

  /** mem_slot_get_str, for a string buffer of `strSize` characters. */
  function SlotGetStr(b: Bus, index: u8, strSize: nat): Res<SlotStr>
  {
    var r := SlotGet(b, index, FRESH_SLOT);
    if r.ret < 0 then Res(r.ret, SlotStr(MEM_SLOT_STATE_ERROR, ERROR_STR), r.bus)
    else if r.ret > strSize then Res(-EIO, SlotStr(MEM_SLOT_STATE_ERROR, ERROR_STR), r.bus)
    else
      var otp := if IsOtp(r.val.flags) then MEM_SLOT_STATE_OTP else 0;
      if !IsSet(r.val.flags) then Res(0, SlotStr(otp, UNDEFINED_STR), r.bus)
      else Res(0, SlotStr(otp + MEM_SLOT_STATE_SET, CString(r.val.data[..r.val.length])), r.bus)
  }

  /** mem_slot_get_u8; `prior` is the caller's struct, left as it was when
      the data is too long for a byte. */
  function SlotGetU8(b: Bus, index: u8, prior: SlotU8): Res<SlotU8>
  {
    var r := SlotGet(b, index, FRESH_SLOT);
    if r.ret < 0 then Res(r.ret, prior.(state := MEM_SLOT_STATE_ERROR), r.bus)
    else if r.ret > 1 then Res(-EIO, prior, r.bus)
    else Res(0, SlotU8(r.val.flags, r.val.data[0]), r.bus)
  }

  method MemSlotGetStr(ec: Ec, index: u8, strSize: nat) returns (ret: int, slotStr: SlotStr)
    modifies ec`pos, ec`log
    ensures Res(ret, slotStr, ec.State()) == SlotGetStr(old(ec.State()), index, strSize)
  {
    var slot := new MemorySlot();
    ret := MemSlotGet(ec, index, slot);
    if ret < 0 {
      return ret, SlotStr(MEM_SLOT_STATE_ERROR, ERROR_STR);
    }
    if ret > strSize {
      return -EIO, SlotStr(MEM_SLOT_STATE_ERROR, ERROR_STR);
    }
    var state := 0;
    if IsOtp(slot.flags) {
      state := state + MEM_SLOT_STATE_OTP;
    }
    if !IsSet(slot.flags) {
      slotStr := SlotStr(state, UNDEFINED_STR);
    } else {
      slotStr := SlotStr(state + MEM_SLOT_STATE_SET, CString(slot.data[..slot.length]));
    }
    return 0, slotStr;
  }

  method MemSlotGetU8(ec: Ec, index: u8, prior: SlotU8) returns (ret: int, slotU8: SlotU8)
    modifies ec`pos, ec`log
    ensures Res(ret, slotU8, ec.State()) == SlotGetU8(old(ec.State()), index, prior)
  {
    var slot := new MemorySlot();
    ret := MemSlotGet(ec, index, slot);
    if ret < 0 {
      return ret, prior.(state := MEM_SLOT_STATE_ERROR);
    }
    if ret > 1 {
      return -EIO, prior;
    }
    return 0, SlotU8(slot.flags, slot.data[0]);
  }

  /** What the string accessor reports: a failed read gives state ERROR and
      "error"; more than `strSize` bytes gives -EIO; an unset slot gives
      "undefined" with SET clear; a set slot gives its bytes as a string with
      SET; the OTP state bit mirrors the OTP flag. */
  lemma SlotGetStrStates(b: Bus, index: u8, strSize: nat)
    ensures var r := SlotGetStr(b, index, strSize);
      var g := SlotGet(b, index, FRESH_SLOT);
      && (g.ret < 0 ==> r.ret == g.ret && r.val == SlotStr(MEM_SLOT_STATE_ERROR, ERROR_STR))
      && (g.ret > strSize ==> r.ret == -EIO && r.val.state == MEM_SLOT_STATE_ERROR)
      && (0 <= g.ret <= strSize ==>
            && r.ret == 0 && r.val.state >= 0
            && ((r.val.state / 2) % 2 == 1 <==> IsOtp(g.val.flags))
            && (r.val.state % 2 == 1 <==> IsSet(g.val.flags))
            && (!IsSet(g.val.flags) ==> r.val.data == UNDEFINED_STR)
            && (IsSet(g.val.flags) ==>
                  r.val.data == CString(BlockOf(ReplyAt(b, 1))) && |r.val.data| <= strSize))
      && r.bus == g.bus
  {
    SlotGetSound(b, index, FRESH_SLOT);
  }

  /** The byte accessor refuses more than one byte with -EIO and otherwise
      reports the slot's flags as its state. */
  lemma SlotGetU8States(b: Bus, index: u8, prior: SlotU8)
    ensures var r := SlotGetU8(b, index, prior);
      var g := SlotGet(b, index, FRESH_SLOT);
      && (g.ret < 0 ==> r.ret == g.ret && r.val.state == MEM_SLOT_STATE_ERROR)
      && (g.ret > 1 ==> r.ret == -EIO && r.val == prior)
      && (0 <= g.ret <= 1 ==> r.ret == 0 && r.val.state == At(Peek(b).data, 0) % 4)
      && (g.ret == 1 ==> r.val.value == At(ReplyAt(b, 1).data, 0))
  {
    SlotGetSound(b, index, FRESH_SLOT);
  }

  /** A slot whose control byte has OTP set but SET clear is reported by the
      byte accessor with state OTP (2), which is not below SET: a caller that
      only tests `state < SET` takes the byte, never read from the EC, as the
      slot's value. */
  lemma OtpOnlySlotReadsAsSet(b: Bus, index: u8, prior: SlotU8)
    requires index <= MEM_SLOT_LAST_INDEX && Peek(b).Ack? && At(Peek(b).data, 0) % 4 == MEM_SLOT_OTP
    ensures var r := SlotGetU8(b, index, prior);
      r.ret == 0 && r.val.state == MEM_SLOT_STATE_OTP && r.val.state >= MEM_SLOT_STATE_SET
      && r.val.value == FRESH_SLOT.data[0] && r.bus.pos == b.pos + 1
  {
    SlotGetSound(b, index, FRESH_SLOT);
  }
}
