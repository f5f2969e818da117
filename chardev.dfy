/** The raw command character device (drivers/mfd/wgw_ec_chardev.c): user
    space hands the driver an SMBus-style transfer (direction, register,
    transfer size and a `union i2c_smbus_data` buffer) and the driver runs it
    on the EC, optionally followed by the long-running-command wait. */
module Chardev {
  import opened Transport
  import opened Ltr

  // Transfer directions and sizes of the i2c-dev interface (linux/i2c.h)
  const I2C_SMBUS_WRITE: u8 := 0
  const I2C_SMBUS_READ: u8 := 1
  const I2C_SMBUS_BYTE_DATA: u32 := 2
  const I2C_SMBUS_WORD_DATA: u32 := 3
  const I2C_SMBUS_BLOCK_DATA: u32 := 5

  /** sizeof(union i2c_smbus_data): a block of 32 bytes plus the length byte
      and one spare byte for a PEC. */
  const UNION_SIZE := SMBUS_BLOCK_MAX + 2

  // ioctl numbers (include/linux/mfd/wgw-ec/chardev.h)
  const WGW_EC_DEV_IOC := 0xEC
  const IOC_WRITE := 1
  /** sizeof(struct i2c_smbus_ioctl_data) with 32-bit addresses. */
  const IOCTL_ARG_SIZE := 12

  /** _IOW(type, nr, size) in the generic ioctl encoding. */
  function Iow(ty: u8, nr: u8, size: nat): nat
  {
    IOC_WRITE * 0x4000_0000 + size * 0x1_0000 + ty * 0x100 + nr
  }

  const WGW_EC_DEV_IOC_PKT_CMD := Iow(WGW_EC_DEV_IOC, 1, IOCTL_ARG_SIZE)
  const WGW_EC_DEV_IOC_PKT_CMD_LTR := Iow(WGW_EC_DEV_IOC, 2, IOCTL_ARG_SIZE)

  /** _IOC_TYPE(cmd): bits 8..15 of the command number. */
  function IocType(cmd: u32): u8
  {
    (cmd / 0x100) % 0x100
  }

  /** The argument user space passes by address (`struct i2c_smbus_ioctl_data`),
      without the address of the data, which is passed separately. */
  datatype IoctlArg = IoctlArg(readWrite: u8, command: u8, size: u32)

  predicate ValidSize(size: u32)
  {
    size == I2C_SMBUS_BYTE_DATA || size == I2C_SMBUS_WORD_DATA || size == I2C_SMBUS_BLOCK_DATA
  }

  predicate ValidDirection(readWrite: u8)
  {
    readWrite == I2C_SMBUS_READ || readWrite == I2C_SMBUS_WRITE
  }

  /** How many bytes of the caller's union are copied in or out. */
  function DataSize(size: u32): (n: nat)
    requires ValidSize(size)
    ensures 1 <= n <= UNION_SIZE
  {
    if size == I2C_SMBUS_BYTE_DATA then 1
    else if size == I2C_SMBUS_WORD_DATA then 2
    else UNION_SIZE
  }

  /** The number of bytes a block write sends: the length byte, capped at the
      SMBus block limit (SMBus 2.0, section 5.5.7). */
  function BlockWriteLength(lengthByte: u8): (n: nat)
    ensures n <= SMBUS_BLOCK_MAX
    ensures n == lengthByte || (lengthByte > SMBUS_BLOCK_MAX && n == SMBUS_BLOCK_MAX)
  {
    if lengthByte > SMBUS_BLOCK_MAX then SMBUS_BLOCK_MAX else lengthByte
  }

  /** The transfer itself, run on the driver's copy `temp` of the union: the
      transport's return code, the copy afterwards and the bus afterwards. */
  function TransferSpec(b: Bus, readWrite: u8, command: u8, size: u32, temp: seq<u8>): (t: Res<seq<u8>>)
    requires ValidSize(size) && ValidDirection(readWrite) && |temp| == UNION_SIZE
    ensures |t.val| == UNION_SIZE
  {
    var r := Peek(b);
    if size == I2C_SMBUS_BYTE_DATA then
      if readWrite == I2C_SMBUS_READ then
        Res(ReadRet(r), if r.Ack? then temp[0 := ByteOf(r)] else temp, Issue(b, Read(ByteData, command)))
      else
        Res(WriteRet(ByteData, 1, r), temp, Issue(b, Write(ByteData, command, [temp[0]])))
    else if size == I2C_SMBUS_WORD_DATA then
      if readWrite == I2C_SMBUS_READ then
        var w := WordOf(r);
        Res(ReadRet(r), if r.Ack? then temp[0 := w % 0x100][1 := w / 0x100] else temp,
            Issue(b, Read(WordData, command)))
      else
        var w := Le16(temp[0], temp[1]);
        Res(WriteRet(WordData, 2, r), temp, Issue(b, Write(WordData, command, [w % 0x100, w / 0x100])))
    else
      if readWrite == I2C_SMBUS_READ then
        var ret := BlockReadRet(r);
        var data := BlockOf(r);
        var filled := temp[..1] + data + temp[1 + |data|..];
        Res(ret, if ret > 0 then filled[0 := ret] else filled, Issue(b, Read(BlockData, command)))
      else
        var length := BlockWriteLength(temp[0]);
        Res(WriteRet(BlockData, length, r), temp, Issue(b, Write(BlockData, command, temp[1..1 + length])))
  }

  /** wgw_ec_ioctl_pkt_cmd: the return code, the caller's union afterwards and
      the bus afterwards. */
  function PktCmdSpec(b: Bus, readWrite: u8, command: u8, size: u32, user: seq<u8>): (p: Res<seq<u8>>)
    requires |user| == UNION_SIZE
    ensures |p.val| == UNION_SIZE
  {
    if !ValidSize(size) || !ValidDirection(readWrite) then Res(-EINVAL, user, b)
    else
      var n := DataSize(size);
      var temp :=
        if readWrite == I2C_SMBUS_WRITE then user[..n] + Zeros(UNION_SIZE - n) else Zeros(UNION_SIZE);
      var t := TransferSpec(b, readWrite, command, size, temp);
      if t.ret < 0 then Res(t.ret, user, t.bus)
      else if readWrite == I2C_SMBUS_READ then Res(0, t.val[..n] + user[n..], t.bus)
      else Res(0, user, t.bus)
  }

  /** wgw_ec_ioctl_pkt_cmd_ltr: the command, then wait-ready if it succeeded. */
  function PktCmdLtrSpec(b: Bus, readWrite: u8, command: u8, size: u32, user: seq<u8>): Res<seq<u8>>
    requires |user| == UNION_SIZE
  {
    var p := PktCmdSpec(b, readWrite, command, size, user);
    if p.ret < 0 then p
    else
      var w := WaitReadySpec(p.bus);
      Res(w.ret, p.val, w.bus)
  }

  /** wgw_ec_chardev_ioctl once the argument has been copied in. */
  function IoctlSpec(b: Bus, cmd: u32, arg: IoctlArg, user: seq<u8>): Res<seq<u8>>
    requires |user| == UNION_SIZE
  {
    if IocType(cmd) != WGW_EC_DEV_IOC then Res(-ENOTTY, user, b)
    else if cmd == WGW_EC_DEV_IOC_PKT_CMD then PktCmdSpec(b, arg.readWrite, arg.command, arg.size, user)
    else if cmd == WGW_EC_DEV_IOC_PKT_CMD_LTR then PktCmdLtrSpec(b, arg.readWrite, arg.command, arg.size, user)
    else Res(0, user, b)
  }

  /** The size switch of wgw_ec_ioctl_pkt_cmd, run on the driver's copy
      `temp` of the union. */
  method Transfer(ec: Ec, readWrite: u8, command: u8, size: u32, temp: array<u8>) returns (res: int)
    requires ValidSize(size) && ValidDirection(readWrite) && temp.Length == UNION_SIZE
    modifies ec`pos, ec`log, temp
    ensures Res(res, temp[..], ec.State()) == TransferSpec(old(ec.State()), readWrite, command, size, old(temp[..]))
  {
    ghost var before := temp[..];
    if size == I2C_SMBUS_BYTE_DATA {
      if readWrite == I2C_SMBUS_READ {
        var value;
        res, value := ec.ReadByte(command);
        if res >= 0 {
          temp[0] := value;
        }
      } else {
        res := ec.WriteByte(command, temp[0]);
      }
    } else if size == I2C_SMBUS_WORD_DATA {
      if readWrite == I2C_SMBUS_READ {
        var value;
        res, value := ec.ReadWord(command);
        if res >= 0 {
          temp[0], temp[1] := value % 0x100, value / 0x100;
        }
      } else {
        res := ec.WriteWord(command, Le16(temp[0], temp[1]));
      }
    } else {
      if readWrite == I2C_SMBUS_READ {
        var received;
        res, received := ec.ReadBlock(command);
        forall i | 0 <= i < |received| {
          temp[1 + i] := received[i];
        }
        assert temp[..] == before[..1] + received + before[1 + |received|..];
        if res > 0 {
          temp[0] := res;
        }
      } else {
        var length := temp[0];
        if length > SMBUS_BLOCK_MAX {
          length := SMBUS_BLOCK_MAX;
        }
        res := ec.WriteBlock(command, temp[1..1 + length]);
      }
    }
  }

  method PktCmd(ec: Ec, readWrite: u8, command: u8, size: u32, data: array<u8>) returns (ret: int)
    requires data.Length == UNION_SIZE
    modifies ec`pos, ec`log, data
    ensures Res(ret, data[..], ec.State()) == PktCmdSpec(old(ec.State()), readWrite, command, size, old(data[..]))
  {
    if size != I2C_SMBUS_BYTE_DATA && size != I2C_SMBUS_WORD_DATA && size != I2C_SMBUS_BLOCK_DATA {
      return -EINVAL;
    }
    if readWrite != I2C_SMBUS_READ && readWrite != I2C_SMBUS_WRITE {
      return -EINVAL;
    }
    var datasize := if size == I2C_SMBUS_BYTE_DATA then 1
      else if size == I2C_SMBUS_WORD_DATA then 2
      else UNION_SIZE;

    var temp := new u8[UNION_SIZE](_ => 0);
    if readWrite == I2C_SMBUS_WRITE {
      forall i | 0 <= i < datasize {
        temp[i] := data[i];
      }
      assert temp[..] == data[..datasize] + Zeros(UNION_SIZE - datasize);
    } else {
      assert temp[..] == Zeros(UNION_SIZE);
    }
    ghost var before := temp[..];
    assert datasize == DataSize(size);
    assert before == if readWrite == I2C_SMBUS_WRITE then old(data[..])[..datasize] + Zeros(UNION_SIZE - datasize)
      else Zeros(UNION_SIZE);
    var res := Transfer(ec, readWrite, command, size, temp);
    ghost var t := TransferSpec(old(ec.State()), readWrite, command, size, before);
    assert res == t.ret && temp[..] == t.val && ec.State() == t.bus;
    assert data[..] == old(data[..]);

    if res < 0 {
      return res;
    }
    if readWrite == I2C_SMBUS_READ {
      ghost var after := temp[..];
      forall i | 0 <= i < datasize {
        data[i] := temp[i];
      }
      assert data[..] == after[..datasize] + old(data[..])[datasize..];
    } else {
      assert data[..] == old(data[..]);
    }
    return 0;
  }

  method PktCmdLtr(ec: Ec, readWrite: u8, command: u8, size: u32, data: array<u8>) returns (ret: int)
    requires data.Length == UNION_SIZE && !ec.ltrLocked
    modifies ec`pos, ec`log, ec`ltrLocked, data
    ensures !ec.ltrLocked
    ensures Res(ret, data[..], ec.State()) == PktCmdLtrSpec(old(ec.State()), readWrite, command, size, old(data[..]))
  {
    ec.ltrLocked := true;
    var res := PktCmd(ec, readWrite, command, size, data);
    if res < 0 {
      ec.ltrLocked := false;
      return res;
    }
    res := WaitReady(ec);
    ec.ltrLocked := false;
    return res;
  }

  method Ioctl(ec: Ec, cmd: u32, arg: IoctlArg, data: array<u8>) returns (ret: int)
    requires data.Length == UNION_SIZE && !ec.ltrLocked
    modifies ec`pos, ec`log, ec`ltrLocked, data
    ensures !ec.ltrLocked
    ensures Res(ret, data[..], ec.State()) == IoctlSpec(old(ec.State()), cmd, arg, old(data[..]))
  {
    if IocType(cmd) != WGW_EC_DEV_IOC {
      return -ENOTTY;
    }
    if cmd == WGW_EC_DEV_IOC_PKT_CMD {
      ret := PktCmd(ec, arg.readWrite, arg.command, arg.size, data);
      return;
    }
    if cmd == WGW_EC_DEV_IOC_PKT_CMD_LTR {
      ret := PktCmdLtr(ec, arg.readWrite, arg.command, arg.size, data);
      return;
    }
    return 0;
  }

  // ---------------------------------------------------------------------
  // Properties

  /** A bad transfer size or direction is refused with -EINVAL before any
      transaction, and the caller's buffer is untouched. */
  lemma PktCmdRejects(b: Bus, readWrite: u8, command: u8, size: u32, user: seq<u8>)
    requires |user| == UNION_SIZE
    requires !ValidSize(size) || !ValidDirection(readWrite)
    ensures PktCmdSpec(b, readWrite, command, size, user) == Res(-EINVAL, user, b)
  {
  }

  /** A valid request issues exactly one transaction, and returns 0 or the
      transport's error. */
  lemma PktCmdOneTransaction(b: Bus, readWrite: u8, command: u8, size: u32, user: seq<u8>)
    requires |user| == UNION_SIZE
    requires ValidSize(size) && ValidDirection(readWrite)
    ensures var p := PktCmdSpec(b, readWrite, command, size, user);
      p.bus.pos == b.pos + 1 && |p.bus.log| == |b.log| + 1 && p.bus.log[..|b.log|] == b.log
      && (p.ret == 0 <==> Peek(b).Ack?)
      && (Peek(b).Nak? ==> p.ret == -(Peek(b).errno as int))
  {
    var p := PktCmdSpec(b, readWrite, command, size, user);
    assert p.bus.log[..|b.log|] == b.log;
  }

  /** A failed transfer copies nothing back, and a write never changes the
      caller's buffer. */
  lemma PktCmdErrorCopiesNothing(b: Bus, readWrite: u8, command: u8, size: u32, user: seq<u8>)
    requires |user| == UNION_SIZE
    ensures var p := PktCmdSpec(b, readWrite, command, size, user);
      (p.ret < 0 || readWrite != I2C_SMBUS_READ) ==> p.val == user
  {
  }

  /** A read copies back exactly the first DataSize bytes: one for a byte,
      two for a word, the whole union for a block. */
  lemma PktCmdCopiesDataSize(b: Bus, command: u8, size: u32, user: seq<u8>)
    requires |user| == UNION_SIZE
    requires ValidSize(size)
    ensures var p := PktCmdSpec(b, I2C_SMBUS_READ, command, size, user);
      p.val[DataSize(size)..] == user[DataSize(size)..]
  {
  }

  /** Byte read: the byte lands in the first position of the union. */
  lemma ByteReadResult(b: Bus, command: u8, user: seq<u8>)
    requires |user| == UNION_SIZE
    requires Peek(b).Ack?
    ensures PktCmdSpec(b, I2C_SMBUS_READ, command, I2C_SMBUS_BYTE_DATA, user)
      == Res(0, [At(Peek(b).data, 0)] + user[1..], Issue(b, Read(ByteData, command)))
  {
    var z := Zeros(UNION_SIZE)[0 := At(Peek(b).data, 0)];
    assert z[..1] == [At(Peek(b).data, 0)];
  }

  /** Word read: the two bytes land in the union low byte first. */
  lemma WordReadResult(b: Bus, command: u8, user: seq<u8>)
    requires |user| == UNION_SIZE
    requires Peek(b).Ack?
    ensures PktCmdSpec(b, I2C_SMBUS_READ, command, I2C_SMBUS_WORD_DATA, user)
      == Res(0, [At(Peek(b).data, 0), At(Peek(b).data, 1)] + user[2..], Issue(b, Read(WordData, command)))
  {
    var d := Peek(b).data;
    var w := Le16(At(d, 0), At(d, 1));
    assert w % 0x100 == At(d, 0) && w / 0x100 == At(d, 1);
    var z := Zeros(UNION_SIZE)[0 := At(d, 0)][1 := At(d, 1)];
    assert z[..2] == [At(d, 0), At(d, 1)];
  }

  /** Byte and word writes send exactly the first one or two bytes of the
      caller's union. */
  lemma SmallWritesSendDataSize(b: Bus, command: u8, user: seq<u8>)
    requires |user| == UNION_SIZE
    ensures PktCmdSpec(b, I2C_SMBUS_WRITE, command, I2C_SMBUS_BYTE_DATA, user).bus
      == Issue(b, Write(ByteData, command, user[..1]))
    ensures PktCmdSpec(b, I2C_SMBUS_WRITE, command, I2C_SMBUS_WORD_DATA, user).bus
      == Issue(b, Write(WordData, command, user[..2]))
  {
    var w := Le16(user[0], user[1]);
    assert w % 0x100 == user[0] && w / 0x100 == user[1];
    assert [user[0], user[1]] == user[..2];
    assert [user[0]] == user[..1];
  }

  /** A block write sends min(block[0], 32) bytes taken from block[1..]. */
  lemma BlockWriteClamps(b: Bus, command: u8, user: seq<u8>)
    requires |user| == UNION_SIZE
    ensures var p := PktCmdSpec(b, I2C_SMBUS_WRITE, command, I2C_SMBUS_BLOCK_DATA, user);
      var n := if user[0] <= SMBUS_BLOCK_MAX then user[0] else SMBUS_BLOCK_MAX;
      p.bus == Issue(b, Write(BlockData, command, user[1..1 + n])) && p.val == user
  {
    var temp := user[..UNION_SIZE] + Zeros(0);
    assert temp == user;
  }

  /** A block read answers with the received count in block[0], the bytes
      after it, and zeros in the rest of the union (the driver's copy starts
      zeroed). An empty block leaves block[0] at zero. */
  lemma BlockReadResult(b: Bus, command: u8, user: seq<u8>)
    requires |user| == UNION_SIZE
    requires Peek(b).Ack?
    ensures var data := Peek(b).data;
      PktCmdSpec(b, I2C_SMBUS_READ, command, I2C_SMBUS_BLOCK_DATA, user)
      == Res(0, [|data|] + data + Zeros(UNION_SIZE - 1 - |data|), Issue(b, Read(BlockData, command)))
  {
    var data := Peek(b).data;
    var result := [|data|] + data + Zeros(UNION_SIZE - 1 - |data|);
    var z := Zeros(UNION_SIZE);
    var t := TransferSpec(b, I2C_SMBUS_READ, command, I2C_SMBUS_BLOCK_DATA, z);
    assert t.ret == |data| && t.bus == Issue(b, Read(BlockData, command));
    var filled := z[..1] + data + z[1 + |data|..];
    assert t.val == if |data| > 0 then filled[0 := |data|] else filled;
    BlockFill(data, UNION_SIZE);
    assert t.val == result;
    assert DataSize(I2C_SMBUS_BLOCK_DATA) == UNION_SIZE;
    assert result[..UNION_SIZE] + user[UNION_SIZE..] == result;
  }

  /** A zeroed buffer of `n` bytes after a block read of `data`, with the
      count stored in front. */
  lemma BlockFill(data: Block, n: nat)
    requires 1 + |data| <= n
    ensures var z := Zeros(n);
      var filled := z[..1] + data + z[1 + |data|..];
      (if |data| > 0 then filled[0 := |data|] else filled) == [|data|] + data + Zeros(n - 1 - |data|)
  {
    var z := Zeros(n);
    var rest := Zeros(n - 1 - |data|);
    assert z[..1] == [0];
    assert z[1 + |data|..] == rest;
  }

  /** The LTR variant runs wait-ready only when the command succeeded and
      returns its verdict; otherwise it returns the command's error. */
  lemma PktCmdLtrWaitsOnlyAfterSuccess(b: Bus, readWrite: u8, command: u8, size: u32, user: seq<u8>)
    requires |user| == UNION_SIZE
    ensures var p := PktCmdSpec(b, readWrite, command, size, user);
      var l := PktCmdLtrSpec(b, readWrite, command, size, user);
      (p.ret < 0 ==> l == p)
      && (p.ret >= 0 ==> l.val == p.val && l.ret == WaitReadySpec(p.bus).ret && l.bus == WaitReadySpec(p.bus).bus)
  {
  }

  /** A successful LTR command is followed on the bus by between one and ten
      status polls and nothing else. */
  lemma PktCmdLtrPolls(b: Bus, readWrite: u8, command: u8, size: u32, user: seq<u8>)
    requires |user| == UNION_SIZE
    requires ValidSize(size) && ValidDirection(readWrite) && Peek(b).Ack?
    ensures var p := PktCmdSpec(b, readWrite, command, size, user);
      exists k :: 1 <= k <= LTR_ATTEMPTS
        && PktCmdLtrSpec(b, readWrite, command, size, user).bus == AfterReads(p.bus, k)
  {
    PktCmdOneTransaction(b, readWrite, command, size, user);
    var p := PktCmdSpec(b, readWrite, command, size, user);
    WaitReadyBounded(p.bus, 0);
  }

  /** Commands of a foreign ioctl type are refused with -ENOTTY; unknown
      numbers of the driver's own type succeed without doing anything. */
  lemma IoctlDispatch(b: Bus, cmd: u32, arg: IoctlArg, user: seq<u8>)
    requires |user| == UNION_SIZE
    ensures IocType(cmd) != WGW_EC_DEV_IOC ==> IoctlSpec(b, cmd, arg, user) == Res(-ENOTTY, user, b)
    ensures IocType(cmd) == WGW_EC_DEV_IOC && cmd != WGW_EC_DEV_IOC_PKT_CMD && cmd != WGW_EC_DEV_IOC_PKT_CMD_LTR
      ==> IoctlSpec(b, cmd, arg, user) == Res(0, user, b)
  {
  }

  /** The two command numbers carry the driver's type byte, numbers 1 and 2,
      and the write direction. */
  lemma IoctlNumbers()
    ensures WGW_EC_DEV_IOC_PKT_CMD == 0x400C_EC01 && WGW_EC_DEV_IOC_PKT_CMD_LTR == 0x400C_EC02
    ensures IocType(WGW_EC_DEV_IOC_PKT_CMD) == WGW_EC_DEV_IOC == IocType(WGW_EC_DEV_IOC_PKT_CMD_LTR)
  {
  }
}
