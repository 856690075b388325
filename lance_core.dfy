/**
 * The device core of the PCnet/LANCE driver: register programming for
 * bring-up and shutdown, the transmit doorbell, the interrupt service loop
 * and the receive drain, over the register file of module Registers and the
 * collaborators of module Collaborators.
 */
module Lance {
  import opened Wrappers
  import opened LanceConstants
  import opened LanceBits
  import opened Registers
  import opened Collaborators

  // ----- Bring-up and shutdown sequences -----

  /** The CSR5 interrupt enables initialize() sets. */
  const CSR5_ENABLES: bv32 := CSR5_LTINTEN | CSR5_SINTE | CSR5_SLPINTE | CSR5_EXDINTE | CSR5_MPINTE

  /**
   * The writes initialize() makes, in order, for the Initialization Block at
   * iaddr: reset, software style 2, auto port select, full duplex, DMA and
   * interrupt settings, the block's address in two halves, and INIT|IENA.
   */
  function InitWrites(iaddr: bv32): seq<Access> {
    [Access.Reset,
     WriteBcr(20, 2),
     WriteBcr(2, BCR2_ASEL),
     WriteBcr(9, BCR9_FDEN),
     WriteCsr(4, CSR4_DMAPLUS | CSR4_APAD_XMT),
     WriteCsr(5, CSR5_ENABLES),
     WriteCsr(1, AddressLow(iaddr)),
     WriteCsr(2, AddressHigh(iaddr)),
     WriteCsr(0, CSR0_INIT | CSR0_IENA)]
  }

  /** The writes disable() makes: reset, then STOP. */
  function DisableWrites(): seq<Access> {
    [Access.Reset, WriteCsr(0, CSR0_STOP)]
  }

  /** The registers initialize() leaves behind, from the reset state rs. */
  function Configured(rs: RegState, iaddr: bv32): RegState {
    RegState(
      rs.csr[4 := CSR4_DMAPLUS | CSR4_APAD_XMT][5 := CSR5_ENABLES]
            [1 := AddressLow(iaddr)][2 := AddressHigh(iaddr)][0 := CSR0_INIT | CSR0_IENA],
      rs.bcr[20 := 2][2 := BCR2_ASEL][9 := BCR9_FDEN])
  }

  /** Whatever the registers held before, initialize's writes leave Configured. */
  lemma InitWritesConfigure(rs: RegState, s: RegState, iaddr: bv32)
    requires ResetSound(rs)
    ensures Run(rs, s, InitWrites(iaddr)) == Configured(rs, iaddr)
  {
    var w := InitWrites(iaddr);
    Replay9(rs, s, w);
    ConfigStores(Get(rs.csr, 4), Get(rs.csr, 5));
    InitCommandStore();
  }

  /**
   * After initialize's writes the chip holds the programmed configuration,
   * CSR1 and CSR2 together give back the Initialization Block address, CSR0
   * reads INIT|IENA, and nothing of the earlier register state is left.
   */
  lemma InitializeProgramsChip(rs: RegState, s: RegState, s': RegState, iaddr: bv32)
    requires ResetSound(rs)
    ensures var t := Run(rs, s, InitWrites(iaddr));
      && ReadBcr(t, 20) == 2 && ReadBcr(t, 2) == BCR2_ASEL && ReadBcr(t, 9) == BCR9_FDEN
      && ReadCsr(t, 4) == CSR4_DMAPLUS | CSR4_APAD_XMT && ReadCsr(t, 5) == CSR5_ENABLES
      && ReadCsr(t, 1) <= 0xFFFF && ReadCsr(t, 2) <= 0xFFFF
      && ReadCsr(t, 1) | (ReadCsr(t, 2) << 16) == iaddr
      && ReadCsr(t, 0) == CSR0_INIT | CSR0_IENA
      && t == Run(rs, s', InitWrites(iaddr))
  {
    InitWritesConfigure(rs, s, iaddr);
    InitWritesConfigure(rs, s', iaddr);
    ConfigStores(0, 0);
    InitCommandRead();
    AddressSplitRoundTrip(iaddr);
  }

  /** Over clear flags, writing the configuration values stores them unchanged. */
  lemma ConfigStores(prev4: bv32, prev5: bv32)
    requires prev4 & CSR4_FLAGS == 0 && prev5 & CSR5_FLAGS == 0
    ensures Store(4, prev4, CSR4_DMAPLUS | CSR4_APAD_XMT) == CSR4_DMAPLUS | CSR4_APAD_XMT
    ensures Store(5, prev5, CSR5_ENABLES) == CSR5_ENABLES
    ensures (CSR4_DMAPLUS | CSR4_APAD_XMT) & CSR4_FLAGS == 0 && CSR5_ENABLES & CSR5_FLAGS == 0
  {
  }

  /** Over the reset value STOP, the INIT|IENA command is stored as is. */
  lemma InitCommandStore()
    ensures Store(0, CSR0_STOP, CSR0_INIT | CSR0_IENA) == CSR0_INIT | CSR0_IENA
  {
  }

  /** INIT|IENA with nothing pending reads back as written. */
  lemma InitCommandRead()
    ensures ReadCsr0(CSR0_INIT | CSR0_IENA, false) == CSR0_INIT | CSR0_IENA
    ensures (CSR0_INIT | CSR0_IENA) & CSR0_INTR_SOURCES == 0
  {
  }

  /**
   * Disable leaves CSR0 reading STOP whatever came before, so disabling a
   * second time changes nothing.
   */
  lemma DisableIdempotent(rs: RegState, s: RegState)
    requires ResetSound(rs)
    ensures ReadCsr(Run(rs, s, DisableWrites()), 0) == CSR0_STOP
    ensures Run(rs, Run(rs, s, DisableWrites()), DisableWrites()) == Run(rs, s, DisableWrites())
  {
    var w := DisableWrites();
    assert w[1..] == [WriteCsr(0, CSR0_STOP)] && w[1..][1..] == [];
    var t := Run(rs, s, w);
    assert t == Step(rs, rs, WriteCsr(0, CSR0_STOP));
    assert Run(rs, t, w) == Step(rs, rs, WriteCsr(0, CSR0_STOP));
  }

  // ----- Interrupt service -----

  /** The status words one pass of the interrupt loop reads. */
  datatype Status = Status(csr0: bv32, csr3: bv32, csr4: bv32, csr5: bv32)

  function ReadStatus(s: RegState): Status {
    Status(ReadCsr(s, 0), ReadCsr(s, 3), ReadCsr(s, 4), ReadCsr(s, 5))
  }

  /** The pass saw Initialization Done. */
  predicate InitDone(st: Status) {
    st.csr0 & CSR0_IDON != 0
  }

  /** The pass saw a receive interrupt. */
  predicate ReceiveDone(st: Status) {
    st.csr0 & CSR0_RINT != 0
  }

  /** Start, keep interrupts enabled, and acknowledge Initialization Done again. */
  const START_COMMAND: bv32 := CSR0_STRT | CSR0_IENA | CSR0_IDON

  /**
   * The writes one pass makes for the status it read: CSR0, CSR4 and CSR5
   * written back as read, then, after Initialization Done only, CSR15 := 0
   * (receiver and transmitter enabled) and the start command.
   */
  function PassWrites(st: Status): (w: seq<Access>)
    ensures |w| == (if InitDone(st) then 5 else 3)
    ensures w[0] == WriteCsr(0, st.csr0) && w[1] == WriteCsr(4, st.csr4) && w[2] == WriteCsr(5, st.csr5)
    ensures InitDone(st) ==> w[3] == WriteCsr(15, 0) && w[4] == WriteCsr(0, START_COMMAND)
  {
    WriteBackWrites(st) + (if InitDone(st) then StartWrites() else [])
  }

  /** The acknowledgement: CSR0, CSR4 and CSR5 written back as read. */
  function WriteBackWrites(st: Status): seq<Access> {
    [WriteCsr(0, st.csr0), WriteCsr(4, st.csr4), WriteCsr(5, st.csr5)]
  }

  /** Receiver and transmitter enabled, then the start command. */
  function StartWrites(): seq<Access> {
    [WriteCsr(15, 0), WriteCsr(0, START_COMMAND)]
  }

  /** The writes of a series of passes, pass after pass. */
  function ServiceWrites(passes: seq<Status>): seq<Access>
    decreases |passes|
  {
    if passes == [] then [] else ServiceWrites(passes[..|passes| - 1]) + PassWrites(passes[|passes| - 1])
  }

  lemma ServiceWritesAppend(log: seq<Access>, passes: seq<Status>, st: Status)
    ensures log + ServiceWrites(passes + [st]) == log + ServiceWrites(passes) + PassWrites(st)
  {
    assert (passes + [st])[..|passes|] == passes;
  }

  /** Some pass saw a receive interrupt. */
  predicate SawReceive(passes: seq<Status>) {
    exists k :: 0 <= k < |passes| && ReceiveDone(passes[k])
  }

  lemma SawReceiveAppend(passes: seq<Status>, st: Status)
    ensures SawReceive(passes + [st]) <==> SawReceive(passes) || ReceiveDone(st)
  {
    if ReceiveDone(st) {
      assert (passes + [st])[|passes|] == st;
    }
    if SawReceive(passes) {
      var k :| 0 <= k < |passes| && ReceiveDone(passes[k]);
      assert (passes + [st])[k] == passes[k];
    }
  }

  /** The registers with CSR0 keeping only its control bits, CSR4 and CSR5 only their enables. */
  function Acked(s: RegState): RegState {
    s.(csr := s.csr[0 := Get(s.csr, 0) & CSR0_CONTROL][4 := Get(s.csr, 4) & CSR4_WRITABLE][5 := Get(s.csr, 5) & CSR5_WRITABLE])
  }

  /**
   * The registers after one pass over s: the status words acknowledged
   * (Acked); after Initialization Done CSR15 is also cleared and CSR0 holds
   * STRT|IENA.
   */
  function AfterPass(s: RegState): RegState {
    if InitDone(ReadStatus(s)) then s.(csr := Acked(s).csr[15 := 0][0 := CSR0_STRT | CSR0_IENA])
    else Acked(s)
  }

  /** A pass's writes, for the status read from s, leave the registers AfterPass(s). */
  lemma PassWritesAcknowledge(rs: RegState, s: RegState)
    ensures Run(rs, s, PassWrites(ReadStatus(s))) == AfterPass(s)
  {
    var st := ReadStatus(s);
    WriteBackAcknowledges(rs, s);
    if InitDone(st) {
      assert PassWrites(st) == WriteBackWrites(st) + StartWrites();
      RunConcat(rs, s, WriteBackWrites(st), StartWrites());
      AckedGet0(s);
      StartWritesStart(rs, s, Acked(s).csr, Get(s.csr, 0));
    } else {
      assert PassWrites(st) == WriteBackWrites(st);
    }
  }

  /** Acked keeps only the control bits of CSR0. */
  lemma AckedGet0(s: RegState)
    ensures Get(Acked(s).csr, 0) == Get(s.csr, 0) & CSR0_CONTROL
  {
  }

  /** Acked keeps only the enables of CSR4. */
  lemma AckedGet4(s: RegState)
    ensures Get(Acked(s).csr, 4) == Get(s.csr, 4) & CSR4_WRITABLE
  {
  }

  /** Acked keeps only the enables of CSR5. */
  lemma AckedGet5(s: RegState)
    ensures Get(Acked(s).csr, 5) == Get(s.csr, 5) & CSR5_WRITABLE
  {
  }

  /** Writing the three status words back as read leaves the registers Acked. */
  lemma WriteBackAcknowledges(rs: RegState, s: RegState)
    ensures Run(rs, s, WriteBackWrites(ReadStatus(s))) == Acked(s)
  {
    var w := WriteBackWrites(ReadStatus(s));
    var c0, c4 := Get(s.csr, 0) & CSR0_CONTROL, Get(s.csr, 4) & CSR4_WRITABLE;
    Replay3(rs, s, w);
    assert w[0] == WriteCsr(0, ReadCsr(s, 0));
    assert w[1] == WriteCsr(4, Get(s.csr, 4));
    assert w[2] == WriteCsr(5, Get(s.csr, 5));
    var s1 := Step(rs, s, w[0]);
    AckStep0(rs, s);
    var s2 := Step(rs, s1, w[1]);
    AckStep4(rs, s, s1, c0);
    AckStep5(rs, s, s2, c0, c4);
    AckedIs(s, Step(rs, s2, w[2]));
  }

  /** The start command over acknowledged registers: CSR15 cleared, CSR0 = STRT|IENA. */
  lemma StartWritesStart(rs: RegState, s: RegState, m: map<int, bv32>, c0: bv32)
    requires Get(m, 0) == c0 & CSR0_CONTROL
    ensures Run(rs, s.(csr := m), StartWrites()) == s.(csr := m[15 := 0][0 := CSR0_STRT | CSR0_IENA])
  {
    var w := StartWrites();
    Replay2(rs, s.(csr := m), w);
    StorePlain(15, Get(m, 15), 0);
    StepWrite(rs, s.(csr := m), 15, 0, 0);
    GetUpdate(m, 15, 0, 0);
    StartCommandStore(c0);
    StepWrite(rs, s.(csr := m[15 := 0]), 0, START_COMMAND, CSR0_STRT | CSR0_IENA);
  }

  /** Writing CSR0 back as read leaves its control bits alone. */
  lemma AckStep0(rs: RegState, s: RegState)
    ensures Step(rs, s, WriteCsr(0, ReadCsr(s, 0))) == s.(csr := s.csr[0 := Get(s.csr, 0) & CSR0_CONTROL])
  {
    AckStore(Get(s.csr, 0), Pending(s));
    StepWrite(rs, s, 0, ReadCsr(s, 0), Get(s.csr, 0) & CSR0_CONTROL);
  }

  /** Then writing CSR4 back as read leaves its enables alone. */
  lemma AckStep4(rs: RegState, s: RegState, s1: RegState, v0: bv32)
    requires s1 == s.(csr := s.csr[0 := v0])
    ensures Step(rs, s1, WriteCsr(4, Get(s.csr, 4)))
      == s.(csr := s.csr[0 := v0][4 := Get(s.csr, 4) & CSR4_WRITABLE])
  {
    GetUpdate(s.csr, 0, 4, v0);
    WriteBack4(Get(s.csr, 4));
    StepWrite(rs, s1, 4, Get(s.csr, 4), Get(s.csr, 4) & CSR4_WRITABLE);
  }

  /** Then writing CSR5 back as read leaves its enables alone. */
  lemma AckStep5(rs: RegState, s: RegState, s2: RegState, v0: bv32, v4: bv32)
    requires s2 == s.(csr := s.csr[0 := v0][4 := v4])
    ensures Step(rs, s2, WriteCsr(5, Get(s.csr, 5)))
      == s.(csr := s.csr[0 := v0][4 := v4][5 := Get(s.csr, 5) & CSR5_WRITABLE])
  {
    GetUpdate(s.csr, 0, 5, v0);
    GetUpdate(s.csr[0 := v0], 4, 5, v4);
    WriteBack5(Get(s.csr, 5));
    StepWrite(rs, s2, 5, Get(s.csr, 5), Get(s.csr, 5) & CSR5_WRITABLE);
  }

  lemma AckedIs(s: RegState, t: RegState)
    requires t == s.(csr := s.csr[0 := Get(s.csr, 0) & CSR0_CONTROL][4 := Get(s.csr, 4) & CSR4_WRITABLE]
                                 [5 := Get(s.csr, 5) & CSR5_WRITABLE])
    ensures t == Acked(s)
  {
  }

  /** After a pass CSR0 holds STRT|IENA if it saw Initialization Done, else its old control bits. */
  lemma AfterPassCsr0(s: RegState)
    ensures Get(AfterPass(s).csr, 0)
      == if InitDone(ReadStatus(s)) then CSR0_STRT | CSR0_IENA else Get(s.csr, 0) & CSR0_CONTROL
  {
    AckedGet0(s);
    if InitDone(ReadStatus(s)) {
      GetUpdate(Acked(s).csr[15 := 0], 0, 0, CSR0_STRT | CSR0_IENA);
    }
  }

  /** After a pass CSR4 holds its old enables and no flag. */
  lemma AfterPassCsr4(s: RegState)
    ensures Get(AfterPass(s).csr, 4) == Get(s.csr, 4) & CSR4_WRITABLE
  {
    AckedGet4(s);
    if InitDone(ReadStatus(s)) {
      GetUpdate(Acked(s).csr, 15, 4, 0);
      GetUpdate(Acked(s).csr[15 := 0], 0, 4, CSR0_STRT | CSR0_IENA);
    }
  }

  /** After a pass CSR5 holds its old enables and no flag. */
  lemma AfterPassCsr5(s: RegState)
    ensures Get(AfterPass(s).csr, 5) == Get(s.csr, 5) & CSR5_WRITABLE
  {
    AckedGet5(s);
    if InitDone(ReadStatus(s)) {
      GetUpdate(Acked(s).csr, 15, 5, 0);
      GetUpdate(Acked(s).csr[15 := 0], 0, 5, CSR0_STRT | CSR0_IENA);
    }
  }

  /** After Initialization Done, a pass enables receiver and transmitter (CSR15 = 0). */
  lemma AfterPassCsr15(s: RegState)
    requires InitDone(ReadStatus(s))
    ensures Get(AfterPass(s).csr, 15) == 0
  {
    GetUpdate(Acked(s).csr[15 := 0], 0, 15, CSR0_STRT | CSR0_IENA);
    GetUpdate(Acked(s).csr, 15, 15, 0);
  }

  /**
   * One pass acknowledges everything it read: writing the status words back
   * clears every interrupt flag, so INTR reads clear unless the chip raises
   * a new one.
   */
  lemma AfterPassQuiet(s: RegState)
    ensures !Pending(AfterPass(s))
  {
    AfterPassCsr0(s);
    AfterPassCsr4(s);
    AfterPassCsr5(s);
    ControlOnly(Get(s.csr, 0));
    StartHasNoSource();
    EnablesNoFlags4(Get(s.csr, 4));
    EnablesNoFlags5(Get(s.csr, 5));
  }

  /** After a pass CSR0 reads back as stored: neither INTR nor ERR shows. */
  lemma AfterPassReadsCsr0(s: RegState)
    ensures ReadCsr(AfterPass(s), 0) == Get(AfterPass(s).csr, 0)
  {
    AfterPassQuiet(s);
    AfterPassCsr0(s);
    if InitDone(ReadStatus(s)) {
      StartIsControl();
      ControlReadsAsStored(CSR0_STRT | CSR0_IENA);
    } else {
      MaskIdempotent(Get(s.csr, 0), CSR0_CONTROL);
      ControlReadsAsStored(Get(s.csr, 0) & CSR0_CONTROL);
    }
  }

  lemma StartHasNoSource()
    ensures (CSR0_STRT | CSR0_IENA) & CSR0_INTR_SOURCES == 0
  {
  }

  lemma StartIsControl()
    ensures (CSR0_STRT | CSR0_IENA) & CSR0_CONTROL == CSR0_STRT | CSR0_IENA
  {
  }

  lemma MaskIdempotent(x: bv32, m: bv32)
    ensures x & m & m == x & m
  {
  }

  /** CSR0 holding control bits alone and nothing pending reads as stored. */
  lemma ControlReadsAsStored(x: bv32)
    requires x & CSR0_CONTROL == x
    ensures ReadCsr0(x, false) == x
  {
    ControlOnly(x);
  }

  /** CSR0 shows INTR exactly when an interrupt is pending. */
  lemma IntrShowsPending(s: RegState)
    ensures ReadCsr(s, 0) & CSR0_INTR != 0 <==> Pending(s)
  {
    ReadCsr0Bits(Get(s.csr, 0), Pending(s));
  }

  /** Writing CSR0 back as read leaves exactly its control bits. */
  lemma AckStore(c0: bv32, pending: bool)
    ensures Store(0, c0, ReadCsr0(c0, pending)) == c0 & CSR0_CONTROL
  {
  }

  /** The start command over control bits alone leaves exactly STRT and IENA. */
  lemma StartCommandStore(c0: bv32)
    ensures Store(0, c0 & CSR0_CONTROL, START_COMMAND) == CSR0_STRT | CSR0_IENA
  {
  }

  /** CSR0 holding control bits alone raises no interrupt and reads as stored. */
  lemma ControlOnly(c0: bv32)
    ensures c0 & CSR0_CONTROL & CSR0_INTR_SOURCES == 0
    ensures ReadCsr0(c0 & CSR0_CONTROL, false) == c0 & CSR0_CONTROL
  {
    QuietCsr0(c0 & CSR0_CONTROL);
  }

  // ----- The whole interrupt service -----

  /** What the interrupt service does in all: the status words each pass read, and the registers at the end. */
  datatype Serviced = Serviced(passes: seq<Status>, final: RegState)

  /** One pass that read st, followed by the service r. */
  function Then(st: Status, r: Serviced): Serviced {
    Serviced([st] + r.passes, r.final)
  }

  /**
   * The interrupt service from registers s, with the chip raising raised[k]
   * after pass k: no pass while no interrupt is pending; otherwise one pass
   * over s and then the service from what the chip raised after it. Once
   * `raised` is used up the chip raises nothing more, so that pass is the last.
   */
  function Service(s: RegState, raised: seq<HwEvent>): (r: Serviced)
    ensures !Pending(r.final)
    ensures |r.passes| <= |raised| + 1
    ensures r.passes == [] <==> !Pending(s)
    ensures r.passes != [] ==> r.passes[0] == ReadStatus(s)
    decreases |raised|
  {
    if !Pending(s) then Serviced([], s)
    else
      AfterPassQuiet(s);
      if raised == [] then Serviced([ReadStatus(s)], AfterPass(s))
      else Then(ReadStatus(s), Service(RaiseFlags(AfterPass(s), raised[0]), raised[1..]))
  }

  /** Every pass of the service read CSR0 with INTR set. */
  lemma {:induction false} ServiceInterrupted(s: RegState, raised: seq<HwEvent>)
    ensures forall k :: 0 <= k < |Service(s, raised).passes| ==> Service(s, raised).passes[k].csr0 & CSR0_INTR != 0
    decreases |raised|
  {
    if Pending(s) {
      IntrShowsPending(s);
      if raised != [] {
        ServiceInterrupted(RaiseFlags(AfterPass(s), raised[0]), raised[1..]);
      }
    }
  }

  /** The passes `done` already made, followed by the service r. */
  function Resume(done: seq<Status>, r: Serviced): Serviced {
    Serviced(done + r.passes, r.final)
  }

  /**
   * If the service from s0 is the passes done so far followed by the service
   * from s, and an interrupt is pending in s, then there is a pass left to
   * make, and after it the service from s0 is the passes done including it
   * followed by the service from the registers that pass leaves.
   */
  lemma PassResumes(s0: RegState, done: seq<Status>, s: RegState, raised: seq<HwEvent>)
    requires Pending(s)
    requires Resume(done, Service(s, Remaining(raised, |done|))) == Service(s0, raised)
    ensures |done| <= |raised|
    ensures Resume(done + [ReadStatus(s)], Service(AfterRaise(s, raised, |done|), Remaining(raised, |done| + 1)))
         == Service(s0, raised)
  {
    assert |Service(s, Remaining(raised, |done|)).passes| >= 1;
    ServiceAdvance(s, raised, |done|);
    ResumeThen(done, ReadStatus(s), Service(AfterRaise(s, raised, |done|), Remaining(raised, |done| + 1)));
  }

  lemma ResumeThen(done: seq<Status>, st: Status, r: Serviced)
    ensures Resume(done + [st], r) == Resume(done, Then(st, r))
  {
    assert done + [st] + r.passes == done + ([st] + r.passes);
  }

  /** What the chip still raises after k passes. */
  function Remaining(raised: seq<HwEvent>, k: nat): seq<HwEvent> {
    if k <= |raised| then raised[k..] else []
  }

  /** The registers after pass k over s: the pass's writes, then what the chip raises after it. */
  function AfterRaise(s: RegState, raised: seq<HwEvent>, k: nat): RegState {
    if k < |raised| then RaiseFlags(AfterPass(s), raised[k]) else AfterPass(s)
  }

  /** The service after k passes is one pass over s followed by the service after k + 1 passes. */
  lemma ServiceAdvance(s: RegState, raised: seq<HwEvent>, k: nat)
    requires Pending(s) && k <= |raised|
    ensures Service(s, Remaining(raised, k))
         == Then(ReadStatus(s), Service(AfterRaise(s, raised, k), Remaining(raised, k + 1)))
  {
    if k < |raised| {
      assert Remaining(raised, k)[1..] == Remaining(raised, k + 1);
    } else {
      AfterPassQuiet(s);
      assert [ReadStatus(s)] + [] == [ReadStatus(s)];
    }
  }

  // ----- Station address -----

  /** The station address as the address PROM presents it, one byte per port. */
  function StationAddress(base: int, prom: int -> bv8): (a: seq<bv8>)
    ensures |a| == ETH_ALEN
    ensures forall i :: 0 <= i < ETH_ALEN ==> a[i] == prom(base + R_ETH_ADDR_OFFSET + i)
  {
    seq(ETH_ALEN, i => prom(base + R_ETH_ADDR_OFFSET + i))
  }

  /** loadHWAddress: read the six address bytes into a fresh array. */
  method LoadHwAddress(base: int, prom: int -> bv8) returns (addr: seq<bv8>)
    ensures addr == StationAddress(base, prom)
  {
    var a := new bv8[ETH_ALEN];
    for i := 0 to a.Length
      invariant forall k :: 0 <= k < i ==> a[k] == prom(base + R_ETH_ADDR_OFFSET + k)
    {
      a[i] := prom(base + R_ETH_ADDR_OFFSET + i);
    }
    addr := a[..];
  }

  /** hwAddress.writeTo(buf, 6): bytes 6 to 11 of the frame become the station address. */
  function WithSource(buf: Frame, mac: seq<bv8>): (r: Frame)
    requires |buf| >= 12 && |mac| == 6
    ensures |r| == |buf| && r[6..12] == mac
    ensures forall k :: 0 <= k < |r| && !(6 <= k < 12) ==> r[k] == buf[k]
  {
    buf[..6] + mac + buf[12..]
  }

  // ----- Receive -----

  /** Frames still in the receive ring, frames offered to the driver, frames it accepted. */
  datatype RxState = RxState(incoming: seq<Frame>, offered: seq<Frame>, delivered: seq<Frame>)

  /**
   * rxProcess's effect: every frame of the ring is offered, in order, the
   * accepted ones are delivered and the ring is left empty.
   */
  function Drain(refuses: Frame -> bool, r: RxState): RxState {
    RxState([], r.offered + r.incoming, r.delivered + Accepted(refuses, r.incoming))
  }

  /** Draining an empty ring changes nothing, so draining twice is draining once. */
  lemma DrainIdempotent(refuses: Frame -> bool, r: RxState)
    ensures Drain(refuses, Drain(refuses, r)) == Drain(refuses, r)
  {
    assert Drain(refuses, r).offered + [] == Drain(refuses, r).offered;
    assert Drain(refuses, r).delivered + [] == Drain(refuses, r).delivered;
  }

  /** The receive side after a drain that happens only if `drained`. */
  function RxAfter(refuses: Frame -> bool, r: RxState, drained: bool): RxState {
    if drained then Drain(refuses, r) else r
  }

  lemma RxAfterAfter(refuses: Frame -> bool, r: RxState, a: bool, b: bool)
    ensures RxAfter(refuses, RxAfter(refuses, r, a), b) == RxAfter(refuses, r, a || b)
  {
    if a && b {
      DrainIdempotent(refuses, r);
    }
  }

  // ----- The device core -----

  class LanceCore {
    const io: RegisterFile
    const bufferManager: BufferManager
    const driver: NetworkStack
    const iobase: int
    const hwAddress: seq<bv8>
    /** The version setFlags passed on to the chip flags. */
    const chipVersion: bv32

    ghost predicate Valid() {
      io.Valid() && |hwAddress| == ETH_ALEN
    }

    constructor (io: RegisterFile, bufferManager: BufferManager, driver: NetworkStack,
                 iobase: int, hwAddress: seq<bv8>, chipVersion: bv32)
      requires io.Valid() && |hwAddress| == ETH_ALEN
      ensures Valid()
      ensures this.io == io && this.bufferManager == bufferManager && this.driver == driver
      ensures this.iobase == iobase && this.hwAddress == hwAddress && this.chipVersion == chipVersion
    {
      this.io := io;
      this.bufferManager := bufferManager;
      this.driver := driver;
      this.iobase := iobase;
      this.hwAddress := hwAddress;
      this.chipVersion := chipVersion;
    }

    /** initialize() */
    method Initialize()
      requires Valid()
      modifies io
      ensures io.log == old(io.log) + InitWrites(bufferManager.initDataAddress)
      ensures io.state == Run(io.resetState, old(io.state), InitWrites(bufferManager.initDataAddress))
    {
      var iaddr := bufferManager.initDataAddress;
      Replay9(io.resetState, io.state, InitWrites(iaddr));
      Append9(io.log, InitWrites(iaddr));
      io.Reset();
      io.SetBcr(20, 2);
      io.SetBcr(2, BCR2_ASEL);
      io.SetBcr(9, BCR9_FDEN);
      io.SetCsr(4, CSR4_DMAPLUS | CSR4_APAD_XMT);
      io.SetCsr(5, CSR5_ENABLES);
      io.SetCsr(1, AddressLow(iaddr));
      io.SetCsr(2, AddressHigh(iaddr));
      io.SetCsr(0, CSR0_INIT | CSR0_IENA);
    }

    /** disable() */
    method Disable()
      requires Valid()
      modifies io
      ensures io.log == old(io.log) + DisableWrites()
      ensures io.state == Run(io.resetState, old(io.state), DisableWrites())
      ensures io.Csr(0) == CSR0_STOP
    {
      Replay2(io.resetState, io.state, DisableWrites());
      Append2(io.log, DisableWrites());
      DisableIdempotent(io.resetState, io.state);
      io.Reset();
      io.SetCsr(0, CSR0_STOP);
    }

    /**
     * transmit(buf) as written: stamp the station address into the frame,
     * hand it to the buffer manager and, once it is queued, set TDMD in CSR0
     * by a read-modify-write. A wait that ends without a free descriptor
     * propagates and touches no register. The read-modify-write writes back
     * every flag it read, which acknowledges it (DoorbellHidesReceive).
     */
    method TransmitAsWritten(buf: Frame, waitEnded: Option<TxError>) returns (r: Outcome<TxError>)
      requires Valid() && |buf| >= 12
      modifies io, bufferManager`outgoing
      ensures waitEnded == None ==>
        && r == Pass
        && bufferManager.outgoing == old(bufferManager.outgoing) + [WithSource(buf, hwAddress)]
        && io.log == old(io.log) + [WriteCsr(0, Doorbell(old(io.Csr(0))))]
        && io.state == Step(io.resetState, old(io.state), WriteCsr(0, Doorbell(old(io.Csr(0)))))
      ensures waitEnded.Some? ==>
        && r == Fail(waitEnded.value)
        && bufferManager.outgoing == old(bufferManager.outgoing)
        && io.log == old(io.log) && io.state == old(io.state)
    {
      var frame := WithSource(buf, hwAddress);
      r := bufferManager.Transmit(frame, waitEnded);
      if r.Fail? {
        return;
      }
      io.SetCsr(0, Doorbell(io.Csr(0)));
    }

    /**
     * transmit(buf), corrected: the doorbell writes TDMD and the control bits
     * as read but no flag, so a pending interrupt stays pending for the
     * handler (DoorbellKeepsFlags).
     */
    method Transmit(buf: Frame, waitEnded: Option<TxError>) returns (r: Outcome<TxError>)
      requires Valid() && |buf| >= 12
      modifies io, bufferManager`outgoing
      ensures waitEnded == None ==>
        && r == Pass
        && bufferManager.outgoing == old(bufferManager.outgoing) + [WithSource(buf, hwAddress)]
        && io.log == old(io.log) + [WriteCsr(0, QuietDoorbell(old(io.Csr(0))))]
        && io.state == Step(io.resetState, old(io.state), WriteCsr(0, QuietDoorbell(old(io.Csr(0)))))
      ensures waitEnded.Some? ==>
        && r == Fail(waitEnded.value)
        && bufferManager.outgoing == old(bufferManager.outgoing)
        && io.log == old(io.log) && io.state == old(io.state)
    {
      var frame := WithSource(buf, hwAddress);
      r := bufferManager.Transmit(frame, waitEnded);
      if r.Fail? {
        return;
      }
      io.SetCsr(0, QuietDoorbell(io.Csr(0)));
    }

    /**
     * rxProcess(): take packets from the buffer manager until it has none and
     * offer each to the driver in order; a refused frame is dropped and the
     * loop goes on.
     */
    method RxProcess()
      modifies bufferManager`incoming, driver
      ensures RxView() == Drain(driver.refuses, old(RxView()))
    {
      ghost var pending := bufferManager.incoming;
      ghost var offered0, delivered0 := driver.offered, driver.delivered;
      ghost var seen: seq<Frame> := [];
      while true
        invariant pending == seen + bufferManager.incoming
        invariant driver.offered == offered0 + seen
        invariant driver.delivered == delivered0 + Accepted(driver.refuses, seen)
        decreases |bufferManager.incoming|
      {
        ghost var rest := bufferManager.incoming;
        var packet := bufferManager.GetPacket();
        if packet.None? {
          break;
        }
        var _ := driver.OnReceive(packet.value);
        AcceptedSnoc(driver.refuses, seen, packet.value);
        assert seen + rest == (seen + [packet.value]) + bufferManager.incoming;
        seen := seen + [packet.value];
      }
      assert seen == pending;
    }

    /** The receive side as the core sees it: the ring's frames and what the driver got. */
    ghost function RxView(): RxState
      reads bufferManager, driver
    {
      RxState(bufferManager.incoming, driver.offered, driver.delivered)
    }

    /**
     * One pass of handleInterrupt's loop: read CSR0, CSR3, CSR4 and CSR5,
     * write CSR0, CSR4 and CSR5 back as read, start the chip after
     * Initialization Done, and drain the receive ring after a receive
     * interrupt.
     */
    method ServicePass() returns (st: Status)
      requires Valid()
      modifies io, bufferManager`incoming, driver
      ensures st == old(ReadStatus(io.state))
      ensures io.log == old(io.log) + PassWrites(st)
      ensures io.state == AfterPass(old(io.state))
      ensures RxView() == RxAfter(driver.refuses, old(RxView()), ReceiveDone(st))
    {
      ghost var s, l := io.state, io.log;
      var csr0 := io.Csr(0);
      var csr3 := io.Csr(3);
      var csr4 := io.Csr(4);
      var csr5 := io.Csr(5);
      st := Status(csr0, csr3, csr4, csr5);
      PassWritesAcknowledge(io.resetState, s);
      io.SetCsr(0, csr0);
      io.SetCsr(4, csr4);
      io.SetCsr(5, csr5);
      if InitDone(st) {
        Replay5(io.resetState, s, PassWrites(st));
        Append5(l, PassWrites(st));
        io.SetCsr(15, 0);
        io.SetCsr(0, START_COMMAND);
      } else {
        Replay3(io.resetState, s, PassWrites(st));
        Append3(l, PassWrites(st));
      }
      if ReceiveDone(st) {
        RxProcess();
      }
    }

    /** Pass k of the loop, then the chip raising what it raises after that pass. */
    method PassThenRaise(raised: seq<HwEvent>, k: nat) returns (st: Status)
      requires Valid()
      modifies io, bufferManager`incoming, driver
      ensures st == old(ReadStatus(io.state))
      ensures io.log == old(io.log) + PassWrites(st)
      ensures io.state == AfterRaise(old(io.state), raised, k)
      ensures RxView() == RxAfter(driver.refuses, old(RxView()), ReceiveDone(st))
    {
      st := ServicePass();
      ghost var rx := RxView();
      if k < |raised| {
        io.Raise(raised[k]);
      }
      assert RxView() == rx;
    }

    /**
     * handleInterrupt(): while CSR0 shows INTR, read the status words, write
     * them back to acknowledge them, start the chip after Initialization Done
     * and drain the receive ring after a receive interrupt.
     *
     * The chip may raise new flags while a pass runs; `raised` lists what it
     * raises after each pass (nothing once the list is used up). The loop
     * ends because the acknowledgement clears every flag it read.
     */
    method HandleInterrupt(raised: seq<HwEvent>) returns (passes: seq<Status>)
      requires Valid()
      modifies io, bufferManager`incoming, driver
      ensures passes == Service(old(io.state), raised).passes
      ensures io.state == Service(old(io.state), raised).final
      ensures io.Csr(0) & CSR0_INTR == 0
      ensures io.log == old(io.log) + ServiceWrites(passes)
      ensures |passes| <= |raised| + 1
      ensures passes == [] <==> old(io.Csr(0)) & CSR0_INTR == 0
      ensures passes != [] ==> passes[0] == old(ReadStatus(io.state))
      ensures forall k :: 0 <= k < |passes| ==> passes[k].csr0 & CSR0_INTR != 0
      ensures RxView() == RxAfter(driver.refuses, old(RxView()), SawReceive(passes))
    {
      ghost var s0 := io.state;
      IntrShowsPending(s0);
      ServiceInterrupted(s0, raised);
      passes := ServiceLoop(raised);
      IntrShowsPending(io.state);
    }

    /** The loop of handleInterrupt, proved to run the passes of Service. */
    method ServiceLoop(raised: seq<HwEvent>) returns (passes: seq<Status>)
      requires Valid()
      modifies io, bufferManager`incoming, driver
      ensures passes == Service(old(io.state), raised).passes
      ensures io.state == Service(old(io.state), raised).final
      ensures io.log == old(io.log) + ServiceWrites(passes)
      ensures RxView() == RxAfter(driver.refuses, old(RxView()), SawReceive(passes))
    {
      passes := [];
      ghost var rx0, log0, s0 := RxView(), io.log, io.state;
      IntrShowsPending(s0);
      assert Resume([], Service(s0, Remaining(raised, 0))) == Service(s0, raised);
      while io.Csr(0) & CSR0_INTR != 0
        invariant io.Valid()
        invariant io.log == log0 + ServiceWrites(passes)
        invariant |passes| <= |raised| + 1
        invariant Resume(passes, Service(io.state, Remaining(raised, |passes|))) == Service(s0, raised)
        invariant RxView() == RxAfter(driver.refuses, rx0, SawReceive(passes))
        decreases |raised| + 1 - |passes|
      {
        ghost var s := io.state;
        IntrShowsPending(s);
        PassResumes(s0, passes, s, raised);
        var st := PassThenRaise(raised, |passes|);
        ServiceWritesAppend(log0, passes, st);
        SawReceiveAppend(passes, st);
        RxAfterAfter(driver.refuses, rx0, SawReceive(passes), ReceiveDone(st));
        passes := passes + [st];
      }
      IntrShowsPending(io.state);
      assert passes + [] == passes;
    }
  }

  /**
   * Under write-1-to-clear, the doorbell's read-modify-write writes back
   * every CSR0 flag that was set when CSR0 was read, and so acknowledges it.
   */
  lemma DoorbellClearsFlags(rs: RegState, s: RegState)
    ensures Get(Step(rs, s, WriteCsr(0, Doorbell(ReadCsr(s, 0)))).csr, 0) & CSR0_FLAGS == 0
    ensures Get(Step(rs, s, WriteCsr(0, Doorbell(ReadCsr(s, 0)))).csr, 0) & CSR0_CONTROL
      == (Get(s.csr, 0) & CSR0_CONTROL) | CSR0_TDMD
  {
    assert ReadCsr(s, 0) == ReadCsr0(Get(s.csr, 0), Pending(s));
  }

  /**
   * The lost receive interrupt: a frame has arrived (RINT, with the chip
   * started and interrupts enabled) when transmit rings the doorbell as
   * written. Afterwards no interrupt is pending, so the handler that runs
   * next makes no pass and never drains the ring for that frame.
   */
  lemma DoorbellHidesReceive(rs: RegState, raised: seq<HwEvent>)
    ensures var s := RegState(map[0 := CSR0_RINT | CSR0_STRT | CSR0_IENA], map[]);
      var after := Step(rs, s, WriteCsr(0, Doorbell(ReadCsr(s, 0))));
      && Pending(s) && ReadCsr(s, 0) & CSR0_RINT != 0
      && !Pending(after) && Service(after, raised).passes == []
  {
    var s := RegState(map[0 := CSR0_RINT | CSR0_STRT | CSR0_IENA], map[]);
    var after := Step(rs, s, WriteCsr(0, Doorbell(ReadCsr(s, 0))));
    assert Get(after.csr, 0) == CSR0_STRT | CSR0_IENA | CSR0_TDMD;
  }

  /**
   * The corrected doorbell acknowledges nothing: CSR0 keeps its flags, its
   * control bits gain TDMD, no other register changes, and an interrupt is
   * pending afterwards exactly when it was before.
   */
  lemma DoorbellKeepsFlags(rs: RegState, s: RegState)
    ensures Get(Step(rs, s, WriteCsr(0, QuietDoorbell(ReadCsr(s, 0)))).csr, 0) & CSR0_FLAGS
      == Get(s.csr, 0) & CSR0_FLAGS
    ensures Get(Step(rs, s, WriteCsr(0, QuietDoorbell(ReadCsr(s, 0)))).csr, 0) & CSR0_CONTROL
      == (Get(s.csr, 0) & CSR0_CONTROL) | CSR0_TDMD
    ensures forall i :: i != 0 ==> Get(Step(rs, s, WriteCsr(0, QuietDoorbell(ReadCsr(s, 0)))).csr, i) == Get(s.csr, i)
    ensures Pending(Step(rs, s, WriteCsr(0, QuietDoorbell(ReadCsr(s, 0))))) <==> Pending(s)
  {
    var v := QuietDoorbell(ReadCsr(s, 0));
    var after := Step(rs, s, WriteCsr(0, v));
    assert ReadCsr(s, 0) == ReadCsr0(Get(s.csr, 0), Pending(s));
    forall i
      ensures Get(after.csr, i) == if i == 0 then Store(0, Get(s.csr, 0), v) else Get(s.csr, i)
    {
      GetUpdate(s.csr, 0, i, Store(0, Get(s.csr, 0), v));
    }
  }
}
