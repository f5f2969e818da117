/** The abstract embedded controller as the core sees it: the six register
    primitives of `struct wgw_ec_device` (include/linux/mfd/wgw-ec/core.h),
    each returning a non-negative count or a negative error code.

    The EC is a script of replies, consumed one per bus transaction, plus a log
    of every transaction issued.  A pure view (`Bus`) lets the operations of the
    core be specified as functions; the class `Ec` is the object the drivers
    hold a reference to. */
module Transport {

  type u8 = x: int | 0 <= x < 0x100
  type u16 = x: int | 0 <= x < 0x1_0000
  type u32 = x: int | 0 <= x < 0x1_0000_0000

  /** A positive errno; the drivers return its negation. */
  type Errno = e: int | 0 < e witness 5

  const EPERM := 1
  const ENOENT := 2
  const EIO := 5
  const ENOMEM := 12
  const EFAULT := 14
  const EBUSY := 16
  const ENODEV := 19
  const EINVAL := 22
  const ENOTTY := 25
  const EPROTO := 71

  /** SMBus block transfers carry at most 32 bytes (SMBus 2.0, section 5.5.7). */
  const SMBUS_BLOCK_MAX := 32
  type Block = s: seq<u8> | |s| <= 32

  // Register map (include/linux/mfd/wgw-ec/reg.h)
  const REG_PROTOC_VER: u8 := 0x00
  const REG_HW_INFO: u8 := 0x10
  const REG_FW_INFO1: u8 := 0x20
  const REG_FW_INFO2: u8 := 0x21
  const REG_FW_INFO3: u8 := 0x22
  const REG_FW_INFO4: u8 := 0x23
  const REG_CMD_LTR_STATUS: u8 := 0x30
  const REG_MEM_SLOT0: u8 := 0x31
  const REG_MEM_SLOT0_CTRL: u8 := 0x35
  const REG_LED_START: u8 := 0x60
  const REG_LAST_RESET_STATE: u8 := 0x70
  const REG_USB_MODE_POWER: u8 := 0x80
  const REG_USB_MODE_DATA: u8 := 0x81
  const REG_INTERRUPT: u8 := 0xA0

  /** What the EC answers to one transaction: the bytes it returned (for a
      write, only that it succeeded), or a transport error. */
  datatype Reply = Ack(data: Block) | Nak(errno: Errno)

  datatype Width = ByteData | WordData | BlockData

  /** One transaction as issued on the bus. */
  datatype Op =
    | Read(width: Width, reg: u8)
    | Write(width: Width, reg: u8, data: seq<u8>)

  /** The EC seen as a value: its scripted replies, how many are consumed, and
      every transaction issued so far. */
  datatype Bus = Bus(script: seq<Reply>, pos: nat, log: seq<Op>)

  datatype Option<T> = None | Some(value: T)

  /** A return code together with the value produced and the bus afterwards. */
  datatype Res<T> = Res(ret: int, val: T, bus: Bus)

  /** The reply to the next transaction; a device that stopped answering
      (an exhausted script) fails with -EIO. */
  function Peek(b: Bus): Reply
  {
    if b.pos < |b.script| then b.script[b.pos] else Nak(EIO)
  }

  /** Issues one transaction: one reply is consumed and `op` is logged. */
  function Issue(b: Bus, op: Op): Bus
  {
    Bus(b.script, b.pos + 1, b.log + [op])
  }

  /** The reply to the `k`-th transaction from now. */
  function ReplyAt(b: Bus, k: nat): Reply
  {
    Peek(b.(pos := b.pos + k))
  }

  /** `n` zero bytes, as a zero-initialised buffer holds. */
  function Zeros(n: nat): (z: seq<u8>)
    ensures |z| == n && forall i :: 0 <= i < n ==> z[i] == 0
  {
    seq(n, _ => 0)
  }

  /** Byte `i` of a reply; bytes the EC did not deliver read as 0. */
  function At(data: seq<u8>, i: nat): u8
  {
    if i < |data| then data[i] else 0
  }

  /** The text a NUL-terminated byte buffer holds: its bytes up to the
      first zero. */
  function CString(bytes: seq<u8>): (s: string)
    ensures |s| <= |bytes|
    ensures forall i :: 0 <= i < |s| ==> s[i] as int == bytes[i] != 0
    ensures |s| < |bytes| ==> bytes[|s|] == 0
  {
    if bytes == [] || bytes[0] == 0 then [] else [bytes[0] as char] + CString(bytes[1..])
  }

  function Le16(lo: u8, hi: u8): u16
  {
    lo + 0x100 * hi
  }

  /** read_byte and read_word return 1 on success (drivers/mfd/wgw_ec_i2c.c). */
  function ReadRet(r: Reply): (ret: int)
    ensures ret < 0 <==> r.Nak?
  {
    match r
    case Ack(_) => 1
    case Nak(e) => -(e as int)
  }

  /** read_block returns the number of bytes received. */
  function BlockReadRet(r: Reply): (ret: int)
    ensures r.Ack? ==> 0 <= ret <= SMBUS_BLOCK_MAX
    ensures ret < 0 <==> r.Nak?
  {
    match r
    case Ack(data) => |data|
    case Nak(e) => -(e as int)
  }

  /** write_byte returns 1, write_word 2, write_block the count sent. */
  function WriteRet(w: Width, count: nat, r: Reply): (ret: int)
    ensures ret < 0 <==> r.Nak?
  {
    match r
    case Nak(e) => -(e as int)
    case Ack(_) =>
      match w
      case ByteData => 1
      case WordData => 2
      case BlockData => count
  }

  function ByteOf(r: Reply): u8
  {
    if r.Ack? then At(r.data, 0) else 0
  }

  function WordOf(r: Reply): u16
  {
    if r.Ack? then Le16(At(r.data, 0), At(r.data, 1)) else 0
  }

  function BlockOf(r: Reply): Block
  {
    if r.Ack? then r.data else []
  }

  /** The EC device object (`struct wgw_ec_device`).  `ltrLocked` stands for
      the `lock_ltr` mutex; only its balance is modelled. */
  class Ec {
    const script: seq<Reply>
    var pos: nat
    var log: seq<Op>
    ghost var ltrLocked: bool

    function State(): Bus
      reads this
    {
      Bus(script, pos, log)
    }

    constructor (script: seq<Reply>)
      ensures State() == Bus(script, 0, []) && !ltrLocked
    {
      this.script := script;
      pos, log := 0, [];
      ltrLocked := false;
    }

    method ReadByte(command: u8) returns (ret: int, data: u8)
      modifies this`pos, this`log
      ensures State() == Issue(old(State()), Read(ByteData, command))
      ensures ret == ReadRet(Peek(old(State()))) && data == ByteOf(Peek(old(State())))
    {
      var r := Peek(State());
      pos, log := pos + 1, log + [Read(ByteData, command)];
      ret, data := ReadRet(r), ByteOf(r);
    }

    method ReadWord(command: u8) returns (ret: int, data: u16)
      modifies this`pos, this`log
      ensures State() == Issue(old(State()), Read(WordData, command))
      ensures ret == ReadRet(Peek(old(State()))) && data == WordOf(Peek(old(State())))
    {
      var r := Peek(State());
      pos, log := pos + 1, log + [Read(WordData, command)];
      ret, data := ReadRet(r), WordOf(r);
    }

    method ReadBlock(command: u8) returns (ret: int, data: Block)
      modifies this`pos, this`log
      ensures State() == Issue(old(State()), Read(BlockData, command))
      ensures ret == BlockReadRet(Peek(old(State()))) && data == BlockOf(Peek(old(State())))
    {
      var r := Peek(State());
      pos, log := pos + 1, log + [Read(BlockData, command)];
      ret, data := BlockReadRet(r), BlockOf(r);
    }

    method WriteByte(command: u8, value: u8) returns (ret: int)
      modifies this`pos, this`log
      ensures State() == Issue(old(State()), Write(ByteData, command, [value]))
      ensures ret == WriteRet(ByteData, 1, Peek(old(State())))
    {
      var r := Peek(State());
      pos, log := pos + 1, log + [Write(ByteData, command, [value])];
      ret := WriteRet(ByteData, 1, r);
    }

    method WriteWord(command: u8, value: u16) returns (ret: int)
      modifies this`pos, this`log
      ensures State() == Issue(old(State()), Write(WordData, command, [value % 0x100, value / 0x100]))
      ensures ret == WriteRet(WordData, 2, Peek(old(State())))
    {
      var r := Peek(State());
      pos, log := pos + 1, log + [Write(WordData, command, [value % 0x100, value / 0x100])];
      ret := WriteRet(WordData, 2, r);
    }

    method WriteBlock(command: u8, data: Block) returns (ret: int)
      modifies this`pos, this`log
      ensures State() == Issue(old(State()), Write(BlockData, command, data))
      ensures ret == WriteRet(BlockData, |data|, Peek(old(State())))
    {
      var r := Peek(State());
      pos, log := pos + 1, log + [Write(BlockData, command, data)];
      ret := WriteRet(BlockData, |data|, r);
    }
  }
}
