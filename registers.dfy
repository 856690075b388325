/**
 * The controller's registers as the device core sees them through its I/O
 * access object: control and status registers (CSRs) and bus configuration
 * registers (BCRs), each read and written by index, plus a reset.
 *
 * The chip itself is simulated under two explicit assumptions. The first is
 * the one the interrupt handler relies on: the interrupt flags of CSR0, CSR4
 * and CSR5 are set by the chip and cleared by writing 1 to them
 * (write-1-to-clear), and CSR0's INTR and ERR bits are computed from those
 * flags on every read. Every other bit holds the last value written to it.
 * The second is the reset: it puts every register into one fixed reset state
 * in which CSR0 is STOP and no CSR4 or CSR5 flag is set (ResetSound). A read
 * returns all 32 stored bits, whatever the access width.
 */
module Registers {
  import opened LanceConstants
  import opened Probe

  /** A write the driver makes: a reset, a CSR write or a BCR write. */
  datatype Access = Reset | WriteCsr(index: int, value: bv32) | WriteBcr(index: int, value: bv32)

  /** The stored register values; a register never written reads 0. */
  datatype RegState = RegState(csr: map<int, bv32>, bcr: map<int, bv32>)

  /** Interrupt flags the chip raises on its own, per status register. */
  datatype HwEvent = HwEvent(csr0: bv32, csr4: bv32, csr5: bv32)

  function Get(m: map<int, bv32>, i: int): bv32 {
    if i in m then m[i] else 0
  }

  lemma GetUpdate(m: map<int, bv32>, i: int, j: int, v: bv32)
    ensures Get(m[i := v], j) == if i == j then v else Get(m, j)
  {
  }

  /** The write-1-to-clear flags of CSR i. */
  function Flags(i: int): bv32 {
    if i == 0 then CSR0_FLAGS else if i == 4 then CSR4_FLAGS else if i == 5 then CSR5_FLAGS else 0
  }

  /** The bits of CSR i that hold the last value written to them. */
  function Writable(i: int): bv32 {
    if i == 0 then CSR0_CONTROL
    else if i == 4 then CSR4_WRITABLE
    else if i == 5 then CSR5_WRITABLE
    else 0xFFFF_FFFF
  }

  /**
   * What CSR i holds after `v` is written over `prev`. In CSR0, CSR4 and CSR5
   * a flag written as 1 is cleared, a flag written as 0 keeps its value and
   * the other bits take v's (in CSR0 only the control bits: INTR and ERR are
   * computed on read); any other register takes v.
   */
  function Store(i: int, prev: bv32, v: bv32): bv32 {
    if i == 0 then (v & CSR0_CONTROL) | (prev & CSR0_FLAGS & !v)
    else if i == 4 then (v & CSR4_WRITABLE) | (prev & CSR4_FLAGS & !v)
    else if i == 5 then (v & CSR5_WRITABLE) | (prev & CSR5_FLAGS & !v)
    else v
  }

  /** Store clears a flag written as 1 and keeps a flag written as 0. */
  lemma StoreClearsWrittenFlags(i: int, prev: bv32, v: bv32)
    ensures Store(i, prev, v) & Flags(i) == prev & Flags(i) & !v
  {
    if i == 0 {
    } else if i == 4 {
    } else if i == 5 {
    } else {
    }
  }

  /** The control bits of CSR0 take the written value. */
  lemma StoreKeepsControl(prev: bv32, v: bv32)
    ensures Store(0, prev, v) & CSR0_CONTROL == v & CSR0_CONTROL
  {
  }

  /** The bits of CSR4 other than its flags take the written value. */
  lemma StoreKeepsEnables4(prev: bv32, v: bv32)
    ensures Store(4, prev, v) & CSR4_WRITABLE == v & CSR4_WRITABLE
  {
  }

  /** The bits of CSR5 other than its flags take the written value. */
  lemma StoreKeepsEnables5(prev: bv32, v: bv32)
    ensures Store(5, prev, v) & CSR5_WRITABLE == v & CSR5_WRITABLE
  {
  }

  /** A register holds no bit that is neither a flag nor writable (INTR and ERR of CSR0). */
  lemma StoreNoOtherBits(i: int, prev: bv32, v: bv32)
    ensures Store(i, prev, v) & !(Flags(i) | Writable(i)) == 0
  {
    if i == 0 {
    } else if i == 4 {
    } else if i == 5 {
    } else {
    }
  }

  /** The chip asserts INTR: some interrupt flag is set. */
  predicate Pending(s: RegState) {
    Get(s.csr, 0) & CSR0_INTR_SOURCES != 0 || Get(s.csr, 4) & CSR4_FLAGS != 0
      || Get(s.csr, 5) & CSR5_FLAGS != 0
  }

  /** The value a read of CSR i returns. */
  function ReadCsr(s: RegState, i: int): bv32 {
    if i == 0 then ReadCsr0(Get(s.csr, 0), Pending(s)) else Get(s.csr, i)
  }

  /** CSR0 as read, from the stored bits and whether an interrupt is pending. */
  function ReadCsr0(stored: bv32, pending: bool): bv32 {
    (stored & (CSR0_FLAGS | CSR0_CONTROL))
    | BitIf(stored & CSR0_ERRORS != 0, CSR0_ERR)
    | BitIf(pending, CSR0_INTR)
  }

  /**
   * CSR0 reads back the stored flags and control bits, ERR set iff an error
   * flag is, and INTR set iff an interrupt is pending.
   */
  lemma ReadCsr0Bits(stored: bv32, pending: bool)
    ensures ReadCsr0(stored, pending) & CSR0_FLAGS == stored & CSR0_FLAGS
    ensures ReadCsr0(stored, pending) & CSR0_CONTROL == stored & CSR0_CONTROL
    ensures ReadCsr0(stored, pending) & CSR0_INTR != 0 <==> pending
    ensures ReadCsr0(stored, pending) & CSR0_ERR != 0 <==> stored & CSR0_ERRORS != 0
  {
  }

  /** x if b holds, else no bit. */
  function BitIf(b: bool, x: bv32): bv32 {
    if b then x else 0
  }

  function ReadBcr(s: RegState, i: int): bv32 {
    Get(s.bcr, i)
  }

  /** A reset state is sound if CSR0 holds STOP and no interrupt flag is set. */
  predicate ResetSound(rs: RegState) {
    Get(rs.csr, 0) == CSR0_STOP && Get(rs.csr, 4) & CSR4_FLAGS == 0 && Get(rs.csr, 5) & CSR5_FLAGS == 0
  }

  /**
   * Writing back a value whose flags are the stored ones clears every flag
   * and leaves the writable bits as the value has them.
   */
  lemma WriteBackClears(i: int, stored: bv32, v: bv32)
    requires v & Flags(i) == stored & Flags(i)
    ensures Store(i, stored, v) & Flags(i) == 0
    ensures Store(i, stored, v) & Writable(i) == v & Writable(i)
  {
    if i == 0 {
    } else if i == 4 {
    } else if i == 5 {
    } else {
    }
  }

  /** In CSR4 writing back what was read keeps exactly the enables. */
  lemma WriteBack4(x: bv32)
    ensures Store(4, x, x) == x & CSR4_WRITABLE
  {
  }

  /** In CSR5 writing back what was read keeps exactly the enables. */
  lemma WriteBack5(x: bv32)
    ensures Store(5, x, x) == x & CSR5_WRITABLE
  {
  }

  /** The enables of CSR4 hold no flag. */
  lemma EnablesNoFlags4(x: bv32)
    ensures x & CSR4_WRITABLE & CSR4_FLAGS == 0
  {
  }

  /** The enables of CSR5 hold no flag. */
  lemma EnablesNoFlags5(x: bv32)
    ensures x & CSR5_WRITABLE & CSR5_FLAGS == 0
  {
  }

  /** With no flag stored, no INTR source is set. */
  lemma NoFlagNoSource(x: bv32)
    requires x & CSR0_FLAGS == 0
    ensures x & CSR0_INTR_SOURCES == 0 && x & CSR0_ERRORS == 0
  {
  }

  /** CSR0 with no flag stored and nothing pending reads as its control bits. */
  lemma QuietCsr0(x: bv32)
    requires x & CSR0_FLAGS == 0
    ensures ReadCsr0(x, false) == x & CSR0_CONTROL
  {
    NoFlagNoSource(x);
  }

  /** The effect of one access; a reset restores the reset state rs. */
  function Step(rs: RegState, s: RegState, a: Access): RegState {
    match a
    case Reset => rs
    case WriteCsr(i, v) => s.(csr := s.csr[i := Store(i, Get(s.csr, i), v)])
    case WriteBcr(i, v) => s.(bcr := s.bcr[i := v])
  }

  /** Registers other than CSR0, CSR4 and CSR5 hold what was last written. */
  lemma StorePlain(i: int, prev: bv32, v: bv32)
    requires i != 0 && i != 4 && i != 5
    ensures Store(i, prev, v) == v
  {
  }

  /** A CSR write whose stored result is r leaves r in that register and nothing else changed. */
  lemma StepWrite(rs: RegState, s: RegState, i: int, v: bv32, r: bv32)
    requires Store(i, Get(s.csr, i), v) == r
    ensures Step(rs, s, WriteCsr(i, v)) == s.(csr := s.csr[i := r])
  {
  }

  /** The effect of a sequence of accesses, first to last. */
  function Run(rs: RegState, s: RegState, w: seq<Access>): RegState
    decreases |w|
  {
    if w == [] then s else Run(rs, Step(rs, s, w[0]), w[1..])
  }

  /** Running two sequences one after the other is running their concatenation. */
  lemma {:induction false} RunConcat(rs: RegState, s: RegState, a: seq<Access>, b: seq<Access>)
    ensures Run(rs, s, a + b) == Run(rs, Run(rs, s, a), b)
    decreases |a|
  {
    if a == [] {
      assert a + b == b;
    } else {
      assert (a + b)[1..] == a[1..] + b;
      RunConcat(rs, Step(rs, s, a[0]), a[1..], b);
    }
  }

  /*
   * Replaying a short sequence of writes one by one is running it (ReplayN),
   * and logging them one by one is appending it (AppendN).  The driver's
   * straight-line register programming is proved against these unrolled
   * forms.
   */

  lemma Replay1(rs: RegState, s: RegState, w: seq<Access>)
    requires |w| == 1
    ensures Run(rs, s, w) == Step(rs, s, w[0])
  {
  }

  lemma Replay2(rs: RegState, s: RegState, w: seq<Access>)
    requires |w| == 2
    ensures Run(rs, s, w) == Step(rs, Step(rs, s, w[0]), w[1])
  {
    Replay1(rs, Step(rs, s, w[0]), w[1..]);
  }

  lemma Replay3(rs: RegState, s: RegState, w: seq<Access>)
    requires |w| == 3
    ensures Run(rs, s, w) == Step(rs, Step(rs, Step(rs, s, w[0]), w[1]), w[2])
  {
    Replay2(rs, Step(rs, s, w[0]), w[1..]);
  }

  lemma Replay4(rs: RegState, s: RegState, w: seq<Access>)
    requires |w| == 4
    ensures Run(rs, s, w) == Step(rs, Step(rs, Step(rs, Step(rs, s, w[0]), w[1]), w[2]), w[3])
  {
    Replay3(rs, Step(rs, s, w[0]), w[1..]);
  }

  lemma Replay5(rs: RegState, s: RegState, w: seq<Access>)
    requires |w| == 5
    ensures Run(rs, s, w) == Step(rs, Step(rs, Step(rs, Step(rs, Step(rs, s, w[0]), w[1]), w[2]), w[3]), w[4])
  {
    Replay4(rs, Step(rs, s, w[0]), w[1..]);
  }

  lemma Replay6(rs: RegState, s: RegState, w: seq<Access>)
    requires |w| == 6
    ensures Run(rs, s, w) == Step(rs, Step(rs, Step(rs, Step(rs, Step(rs, Step(rs, s, w[0]), w[1]), w[2]), w[3]), w[4]), w[5])
  {
    Replay5(rs, Step(rs, s, w[0]), w[1..]);
  }

  lemma Replay7(rs: RegState, s: RegState, w: seq<Access>)
    requires |w| == 7
    ensures Run(rs, s, w) == Step(rs, Step(rs, Step(rs, Step(rs, Step(rs, Step(rs, Step(rs, s, w[0]), w[1]), w[2]), w[3]), w[4]), w[5]), w[6])
  {
    Replay6(rs, Step(rs, s, w[0]), w[1..]);
  }

  lemma Replay8(rs: RegState, s: RegState, w: seq<Access>)
    requires |w| == 8
    ensures Run(rs, s, w) == Step(rs, Step(rs, Step(rs, Step(rs, Step(rs, Step(rs, Step(rs, Step(rs, s, w[0]), w[1]), w[2]), w[3]), w[4]), w[5]), w[6]), w[7])
  {
    Replay7(rs, Step(rs, s, w[0]), w[1..]);
  }

  lemma Replay9(rs: RegState, s: RegState, w: seq<Access>)
    requires |w| == 9
    ensures Run(rs, s, w) == Step(rs, Step(rs, Step(rs, Step(rs, Step(rs, Step(rs, Step(rs, Step(rs, Step(rs, s, w[0]), w[1]), w[2]), w[3]), w[4]), w[5]), w[6]), w[7]), w[8])
  {
    Replay8(rs, Step(rs, s, w[0]), w[1..]);
  }

  lemma Append2(log: seq<Access>, w: seq<Access>)
    requires |w| == 2
    ensures log + w == log + [w[0]] + [w[1]]
  {
  }

  lemma Append3(log: seq<Access>, w: seq<Access>)
    requires |w| == 3
    ensures log + w == log + [w[0]] + [w[1]] + [w[2]]
  {
  }

  lemma Append5(log: seq<Access>, w: seq<Access>)
    requires |w| == 5
    ensures log + w == log + [w[0]] + [w[1]] + [w[2]] + [w[3]] + [w[4]]
  {
  }

  lemma Append9(log: seq<Access>, w: seq<Access>)
    requires |w| == 9
    ensures log + w == log + [w[0]] + [w[1]] + [w[2]] + [w[3]] + [w[4]] + [w[5]] + [w[6]] + [w[7]] + [w[8]]
  {
  }

  /** The chip raising interrupt flags: it can set flags, never clear them. */
  function RaiseFlags(s: RegState, e: HwEvent): RegState {
    s.(csr := s.csr[0 := Get(s.csr, 0) | (e.csr0 & CSR0_FLAGS)]
                   [4 := Get(s.csr, 4) | (e.csr4 & CSR4_FLAGS)]
                   [5 := Get(s.csr, 5) | (e.csr5 & CSR5_FLAGS)])
  }

  /**
   * The register file behind the driver's I/O access object, with the log of
   * every write the driver made to it.
   */
  class RegisterFile {
    var state: RegState
    var log: seq<Access>
    const resetState: RegState
    /** The access width the probe chose. */
    const width: Width

    ghost predicate Valid() {
      ResetSound(resetState)
    }

    constructor (width: Width, resetState: RegState, initial: RegState)
      requires ResetSound(resetState)
      ensures Valid()
      ensures this.width == width && this.resetState == resetState
      ensures state == initial && log == []
    {
      this.width := width;
      this.resetState := resetState;
      state := initial;
      log := [];
    }

    /** io.getCSR(i) */
    function Csr(i: int): bv32
      reads this
    {
      ReadCsr(state, i)
    }

    /** io.getBCR(i) */
    function Bcr(i: int): bv32
      reads this
    {
      ReadBcr(state, i)
    }

    /** io.reset() */
    method Reset()
      modifies this
      ensures state == Step(resetState, old(state), Access.Reset)
      ensures log == old(log) + [Access.Reset]
    {
      state := resetState;
      log := log + [Access.Reset];
    }

    /** io.setCSR(i, v) */
    method SetCsr(i: int, v: bv32)
      modifies this
      ensures state == Step(resetState, old(state), WriteCsr(i, v))
      ensures log == old(log) + [WriteCsr(i, v)]
    {
      state := state.(csr := state.csr[i := Store(i, Get(state.csr, i), v)]);
      log := log + [WriteCsr(i, v)];
    }

    /** io.setBCR(i, v) */
    method SetBcr(i: int, v: bv32)
      modifies this
      ensures state == Step(resetState, old(state), WriteBcr(i, v))
      ensures log == old(log) + [WriteBcr(i, v)]
    {
      state := state.(bcr := state.bcr[i := v]);
      log := log + [WriteBcr(i, v)];
    }

    /** The chip raising flags while the driver runs; not a write of the driver's. */
    method Raise(e: HwEvent)
      modifies this
      ensures state == RaiseFlags(old(state), e)
      ensures log == old(log)
    {
      state := RaiseFlags(state, e);
    }
  }
}
