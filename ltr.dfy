/** Long-running ("LTR") commands: the EC reports completion through a status
    register that the host polls (drivers/mfd/wgw_ec_dev.c, wgw_ec_wait_ready). */
module Ltr {
  import opened Transport

  const LTR_STATUS_SUCCESS := 0
  const LTR_STATUS_BUSY := 1
  const LTR_STATUS_INVALID_ARG := 2
  const LTR_STATUS_FAILURE := 3
  const LTR_STATUS_BAD_CRC := 4
  const LTR_STATUS_NOT_WRITABLE := 5
  const LTR_STATUS_PAGE_NOT_ALIGNED := 6

  /** Number of status reads before wait-ready gives up. */
  const LTR_ATTEMPTS := 10

  /** wgw_ec_get_ltr_status: the status byte, or the transport error. */
  function LtrStatus(r: Reply): (status: int)
    ensures r.Nak? ==> status == -(r.errno as int)
    ensures r.Ack? ==> 0 <= status < 0x100
  {
    if r.Nak? then ReadRet(r) else ByteOf(r)
  }

  /** wgw_ec_wait_ready from attempt `attempt` on. */
  function WaitReadyFrom(b: Bus, attempt: nat): Res<()>
    requires attempt <= LTR_ATTEMPTS
    decreases LTR_ATTEMPTS - attempt
  {
    if attempt == LTR_ATTEMPTS then Res(-EBUSY, (), b)
    else
      var status := LtrStatus(Peek(b));
      var b1 := Issue(b, Read(ByteData, REG_CMD_LTR_STATUS));
      if status < 0 then Res(status, (), b1)
      else if status == LTR_STATUS_SUCCESS then Res(0, (), b1)
      else if status == LTR_STATUS_BUSY then WaitReadyFrom(b1, attempt + 1)
      else Res(-EIO, (), b1)
  }

  function WaitReadySpec(b: Bus): Res<()>
  {
    WaitReadyFrom(b, 0)
  }

  method GetLtrStatus(ec: Ec) returns (status: int)
    modifies ec`pos, ec`log
    ensures ec.State() == Issue(old(ec.State()), Read(ByteData, REG_CMD_LTR_STATUS))
    ensures status == LtrStatus(Peek(old(ec.State())))
  {
    var ret, value := ec.ReadByte(REG_CMD_LTR_STATUS);
    if ret < 0 {
      return ret;
    }
    return value;
  }

  method WaitReady(ec: Ec) returns (ret: int)
    modifies ec`pos, ec`log
    ensures Res(ret, (), ec.State()) == WaitReadySpec(old(ec.State()))
  {
    var i := 0;
    while i < LTR_ATTEMPTS
      invariant 0 <= i <= LTR_ATTEMPTS
      invariant WaitReadyFrom(ec.State(), i) == WaitReadySpec(old(ec.State()))
    {
      var status := GetLtrStatus(ec);
      if status < 0 {
        return status;
      }
      if status == LTR_STATUS_SUCCESS {
        return 0;
      }
      if status == LTR_STATUS_BUSY {
        // msleep(5) between polls is not modelled
        i := i + 1;
        continue;
      }
      return -EIO;
    }
    return -EBUSY;
  }

  predicate IsBusy(r: Reply)
  {
    r.Ack? && ByteOf(r) == LTR_STATUS_BUSY
  }

  /** The next `k` status reads all answer Busy. */
  predicate BusyRun(b: Bus, k: nat)
  {
    forall j :: 0 <= j < k ==> IsBusy(ReplyAt(b, j))
  }

  function StatusReads(k: nat): (ops: seq<Op>)
    ensures |ops| == k
    ensures forall j :: 0 <= j < k ==> ops[j] == Read(ByteData, REG_CMD_LTR_STATUS)
  {
    if k == 0 then [] else StatusReads(k - 1) + [Read(ByteData, REG_CMD_LTR_STATUS)]
  }

  /** The bus after `k` status reads. */
  function AfterReads(b: Bus, k: nat): Bus
  {
    Bus(b.script, b.pos + k, b.log + StatusReads(k))
  }

  /** What a poll that does not answer Busy makes wait-ready return. */
  function Verdict(r: Reply): int
  {
    if r.Nak? then -(r.errno as int)
    else if ByteOf(r) == LTR_STATUS_SUCCESS then 0
    else -EIO
  }

  /** Busy answers only move wait-ready on to its next attempt. */
  lemma {:induction false} WaitReadySkipsBusy(b: Bus, attempt: nat, k: nat)
    requires attempt + k <= LTR_ATTEMPTS
    requires BusyRun(b, k)
    ensures WaitReadyFrom(b, attempt) == WaitReadyFrom(AfterReads(b, k), attempt + k)
    decreases k
  {
    if k > 0 {
      var b1 := Issue(b, Read(ByteData, REG_CMD_LTR_STATUS));
      BusyRunTail(b, k);
      calc {
        WaitReadyFrom(b, attempt);
        { BusyStep(b, attempt); }
        WaitReadyFrom(b1, attempt + 1);
        { WaitReadySkipsBusy(b1, attempt + 1, k - 1); }
        WaitReadyFrom(AfterReads(b1, k - 1), attempt + 1 + (k - 1));
        { AfterReadsStep(b, k); }
        WaitReadyFrom(AfterReads(b, k), attempt + k);
      }
    } else {
      assert b.log + StatusReads(0) == b.log;
    }
  }

  /** One Busy answer: wait-ready reads once and moves to the next attempt. */
  lemma BusyStep(b: Bus, attempt: nat)
    requires attempt < LTR_ATTEMPTS && IsBusy(ReplyAt(b, 0))
    ensures WaitReadyFrom(b, attempt)
            == WaitReadyFrom(Issue(b, Read(ByteData, REG_CMD_LTR_STATUS)), attempt + 1)
  {
    assert b.(pos := b.pos + 0) == b;
  }

  /** After one Busy read, the remaining k - 1 reads are still Busy. */
  lemma BusyRunTail(b: Bus, k: nat)
    requires k > 0 && BusyRun(b, k)
    ensures BusyRun(Issue(b, Read(ByteData, REG_CMD_LTR_STATUS)), k - 1)
  {
    var b1 := Issue(b, Read(ByteData, REG_CMD_LTR_STATUS));
    forall j | 0 <= j < k - 1 ensures IsBusy(ReplyAt(b1, j)) {
      assert ReplyAt(b1, j) == ReplyAt(b, j + 1);
    }
  }

  /** One status read followed by k - 1 more is k status reads. */
  lemma AfterReadsStep(b: Bus, k: nat)
    requires k > 0
    ensures AfterReads(Issue(b, Read(ByteData, REG_CMD_LTR_STATUS)), k - 1) == AfterReads(b, k)
  {
    assert [Read(ByteData, REG_CMD_LTR_STATUS)] + StatusReads(k - 1) == StatusReads(k);
  }

  /** After k < 10 Busy answers, the first other answer decides: Success
      gives 0, a transport error is returned as it is, any other status gives
      -EIO at once; exactly k + 1 status reads were issued. */
  lemma WaitReadyFirstNonBusy(b: Bus, k: nat)
    requires k < LTR_ATTEMPTS && BusyRun(b, k) && !IsBusy(ReplyAt(b, k))
    ensures WaitReadySpec(b) == Res(Verdict(ReplyAt(b, k)), (), AfterReads(b, k + 1))
  {
    WaitReadySkipsBusy(b, 0, k);
    var bk := AfterReads(b, k);
    assert Peek(bk) == ReplyAt(b, k);
    NonBusyStep(bk, k);
    AfterReadsLast(b, k);
  }

  /** An answer other than Busy ends wait-ready with its verdict after one read. */
  lemma NonBusyStep(b: Bus, attempt: nat)
    requires attempt < LTR_ATTEMPTS && !IsBusy(Peek(b))
    ensures WaitReadyFrom(b, attempt)
            == Res(Verdict(Peek(b)), (), Issue(b, Read(ByteData, REG_CMD_LTR_STATUS)))
  {
  }

  /** k status reads followed by one more is k + 1 status reads. */
  lemma AfterReadsLast(b: Bus, k: nat)
    ensures Issue(AfterReads(b, k), Read(ByteData, REG_CMD_LTR_STATUS)) == AfterReads(b, k + 1)
  {
  }

  /** Ten Busy answers in a row give -EBUSY after exactly ten reads. */
  lemma WaitReadyAllBusy(b: Bus)
    requires BusyRun(b, LTR_ATTEMPTS)
    ensures WaitReadySpec(b) == Res(-EBUSY, (), AfterReads(b, LTR_ATTEMPTS))
  {
    WaitReadySkipsBusy(b, 0, LTR_ATTEMPTS);
  }

  /** Whatever the EC answers, wait-ready issues between one and ten reads of
      the status register and nothing else. */
  lemma {:induction false} WaitReadyBounded(b: Bus, attempt: nat)
    requires attempt < LTR_ATTEMPTS
    ensures var r := WaitReadyFrom(b, attempt);
      exists k :: 1 <= k <= LTR_ATTEMPTS - attempt && r.bus == AfterReads(b, k)
    decreases LTR_ATTEMPTS - attempt
  {
    var b1 := Issue(b, Read(ByteData, REG_CMD_LTR_STATUS));
    assert b1 == AfterReads(b, 1);
    var status := LtrStatus(Peek(b));
    if 0 <= status && status != LTR_STATUS_SUCCESS && status == LTR_STATUS_BUSY
       && attempt + 1 < LTR_ATTEMPTS {
      WaitReadyBounded(b1, attempt + 1);
      var r := WaitReadyFrom(b1, attempt + 1);
      var k :| 1 <= k <= LTR_ATTEMPTS - attempt - 1 && r.bus == AfterReads(b1, k);
      assert StatusReads(1) + StatusReads(k) == StatusReads(k + 1);
      assert r.bus == AfterReads(b, k + 1);
    }
  }

  /** Busy, Busy, Busy, Success: ready after four polls. */
  lemma WaitReadyAfterThreeBusy(b: Bus)
    requires b.pos == 0
    requires b.script == [Ack([1]), Ack([1]), Ack([1]), Ack([0])]
    ensures WaitReadySpec(b).ret == 0 && WaitReadySpec(b).bus.pos == 4
  {
    assert BusyRun(b, 3) by {
      forall j | 0 <= j < 3 ensures IsBusy(ReplyAt(b, j)) {
      }
    }
    WaitReadyFirstNonBusy(b, 3);
  }
}
