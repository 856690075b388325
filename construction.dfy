/**
 * The construction of the device core: validation of the PCI base address,
 * the claim of the interrupt line and of the I/O range, the register-width
 * probe, the chip-version read and the station-address load; and release().
 *
 * The constructor as written leaves both claims held when the probe finds no
 * access type (it dereferences the null access for a log message, so the
 * exception that escapes is a NullPointerException and no release runs).
 * AttachAsWritten models that path; Attach is the corrected constructor,
 * which releases both claims before it fails.
 */
module LanceConstruction {
  import opened Wrappers
  import opened LanceConstants
  import opened LanceBits
  import opened Probe
  import opened Registers
  import opened Collaborators
  import opened Lance

  /** One PCI base address: whether it is in I/O space, its base and its size. */
  datatype BaseAddress = BaseAddress(ioSpace: bool, ioBase: int, size: int)

  /** Why the constructor fails. */
  datatype AttachError =
    | NoBaseAddress          // the device has no base address
    | NotIOSpace             // its first base address is memory space
    | NoResourceManager      // the naming lookup of the resource manager failed
    | NotFree(r: Resource)   // a claim was refused
    | NoIOAccess             // the probe found neither access width
    | NullDereference        // as written: the log message after the failed probe reads the null access

  /** The I/O range the first base address describes. */
  function Window(b: BaseAddress): Resource {
    IoRange(b.ioBase, b.size)
  }

  /** The constructor gets past validation and both claims. */
  predicate ClaimsBoth(addrs: seq<BaseAddress>, named: bool, irq: Resource, taken: set<Resource>) {
    |addrs| >= 1 && addrs[0].ioSpace && named && irq !in taken && Window(addrs[0]) !in taken
  }

  /**
   * The constructor's outcome: the first check that fails, in the order the
   * constructor makes them, or the access width the probe chose.
   */
  function AttachOutcome(addrs: seq<BaseAddress>, named: bool, irq: Resource, taken: set<Resource>,
                         respond: Responder): (r: Result<Width, AttachError>)
    ensures |addrs| == 0 ==> r == Failure(NoBaseAddress)
    ensures |addrs| >= 1 && !addrs[0].ioSpace ==> r == Failure(NotIOSpace)
    ensures r.Success? <==> ClaimsBoth(addrs, named, irq, taken) && Probe.Probe(addrs[0].ioBase, respond).access.Some?
    ensures r.Success? ==> Probe.Probe(addrs[0].ioBase, respond).access == Some(r.value)
    ensures r == Failure(NoIOAccess) <==>
      ClaimsBoth(addrs, named, irq, taken) && Probe.Probe(addrs[0].ioBase, respond).access == None
    ensures r.Failure? && r.error.NotFree? ==> r.error.r == irq || (|addrs| >= 1 && r.error.r == Window(addrs[0]))
  {
    if |addrs| < 1 then Failure(NoBaseAddress)
    else if !addrs[0].ioSpace then Failure(NotIOSpace)
    else if !named then Failure(NoResourceManager)
    else if irq in taken then Failure(NotFree(irq))
    else if Window(addrs[0]) in taken then Failure(NotFree(Window(addrs[0])))
    else match Probe.Probe(addrs[0].ioBase, respond).access
      case None => Failure(NoIOAccess)
      case Some(w) => Success(w)
  }

  /** The error the constructor as written raises for a failure of AttachOutcome. */
  function AsWrittenError(e: AttachError): AttachError {
    if e == NoIOAccess then NullDereference else e
  }

  /** The claims the constructor as written keeps: both, once it got past them, whatever follows. */
  function KeptAsWritten(addrs: seq<BaseAddress>, named: bool, irq: Resource, taken: set<Resource>): multiset<Resource> {
    if ClaimsBoth(addrs, named, irq, taken) then multiset{irq, Window(addrs[0])} else multiset{}
  }

  /** The claims the corrected constructor keeps: both on success, none on failure. */
  function Kept(addrs: seq<BaseAddress>, named: bool, irq: Resource, taken: set<Resource>,
                respond: Responder): multiset<Resource> {
    if AttachOutcome(addrs, named, irq, taken, respond).Success? then multiset{irq, Window(addrs[0])} else multiset{}
  }

  /**
   * The leak: a device whose ports answer 0 to every read passes validation
   * and both claims, fails the probe, and the constructor as written fails
   * with both claims still held.
   */
  lemma ProbeFailureLeaks()
    ensures var addrs := [BaseAddress(true, 0x1000, 0x20)];
      var respond: Responder := h => 0;
      AttachOutcome(addrs, true, Irq(11), {}, respond) == Failure(NoIOAccess) &&
      KeptAsWritten(addrs, true, Irq(11), {}) == multiset{Irq(11), IoRange(0x1000, 0x20)}
  {
    var respond: Responder := h => 0;
    assert RapReadBack(Word, 0) != 88;
    assert !Confirms(0x1000, Word, respond, []);
    assert !Confirms(0x1000, DWord, respond, WordAttemptOps(0x1000, respond));
  }

  /** As written, every failure after the claims leaks them; corrected, a failure keeps nothing. */
  lemma FailureKeepsNothing(addrs: seq<BaseAddress>, named: bool, irq: Resource, taken: set<Resource>,
                            respond: Responder)
    ensures AttachOutcome(addrs, named, irq, taken, respond).Failure? ==> Kept(addrs, named, irq, taken, respond) == multiset{}
    ensures AttachOutcome(addrs, named, irq, taken, respond) == Failure(NoIOAccess) ==>
      KeptAsWritten(addrs, named, irq, taken) == multiset{irq, Window(addrs[0])}
    ensures AttachOutcome(addrs, named, irq, taken, respond).Success? ==>
      Kept(addrs, named, irq, taken, respond) == KeptAsWritten(addrs, named, irq, taken)
  {
  }

  /**
   * Claim the interrupt line, then the I/O range; if the range is refused,
   * release the interrupt line before failing.
   */
  method ClaimResources(rm: ResourceManager, irq: Resource, window: Resource) returns (r: Outcome<AttachError>)
    modifies rm
    ensures r == if irq in rm.taken then Fail(NotFree(irq))
                 else if window in rm.taken then Fail(NotFree(window)) else Pass
    ensures rm.held == old(rm.held) + (if r.Pass? then multiset{irq, window} else multiset{})
  {
    var irqClaimed := rm.Claim(irq);
    if !irqClaimed {
      return Fail(NotFree(irq));
    }
    var ioClaimed := rm.Claim(window);
    if !ioClaimed {
      rm.Release(irq);
      return Fail(NotFree(window));
    }
    r := Pass;
  }

  /**
   * The constructor up to the probe, as written: validation, the naming
   * lookup (`named`: it finds the resource manager), both claims and the
   * probe. A probe failure returns with both claims held.
   */
  method Acquire(addrs: seq<BaseAddress>, named: bool, irqLine: int, rm: ResourceManager, respond: Responder)
    returns (r: Result<Width, AttachError>)
    modifies rm
    ensures r == AttachOutcome(addrs, named, Irq(irqLine), rm.taken, respond)
    ensures rm.held == old(rm.held) + KeptAsWritten(addrs, named, Irq(irqLine), rm.taken)
  {
    if |addrs| < 1 {
      return Failure(NoBaseAddress);
    }
    if !addrs[0].ioSpace {
      return Failure(NotIOSpace);
    }
    if !named {
      return Failure(NoResourceManager);
    }
    var claimed := ClaimResources(rm, Irq(irqLine), Window(addrs[0]));
    if claimed.Fail? {
      return Failure(claimed.error);
    }
    var probe := Probe.Probe(addrs[0].ioBase, respond);
    if probe.access == None {
      return Failure(NoIOAccess);
    }
    r := Success(probe.access.value);
  }

  /**
   * The constructor after a successful probe: an access object of the chosen
   * width over the chip's registers, the chip version from CSR88 and CSR89,
   * and the station address from the address PROM. The buffer manager is
   * built by code that is not part of this model and is passed in.
   */
  method Build(width: Width, iobase: int, resetState: RegState, chip: RegState, prom: int -> bv8,
               bufferManager: BufferManager, driver: NetworkStack) returns (core: LanceCore)
    requires ResetSound(resetState)
    ensures fresh(core) && fresh(core.io) && core.Valid()
    ensures core.io.width == width && core.io.resetState == resetState
    ensures core.io.state == chip && core.io.log == []
    ensures core.iobase == iobase && core.hwAddress == StationAddress(iobase, prom)
    ensures core.chipVersion == ChipVersion(Get(chip.csr, 88), Get(chip.csr, 89))
    ensures core.bufferManager == bufferManager && core.driver == driver
  {
    var io := new RegisterFile(width, resetState, chip);
    var version := ChipVersion(io.Csr(88), io.Csr(89));
    var mac := LoadHwAddress(iobase, prom);
    core := new LanceCore(io, bufferManager, driver, iobase, mac, version);
  }

  /**
   * The constructor as written: a probe failure does not fail with a driver
   * exception but with the null dereference of the log message that follows
   * it, and leaves both claims held.
   */
  method AttachAsWritten(addrs: seq<BaseAddress>, named: bool, irqLine: int, rm: ResourceManager,
                         respond: Responder, resetState: RegState, chip: RegState, prom: int -> bv8,
                         bufferManager: BufferManager, driver: NetworkStack)
    returns (r: Result<LanceCore, AttachError>)
    requires ResetSound(resetState)
    modifies rm
    ensures r.Success? <==> AttachOutcome(addrs, named, Irq(irqLine), rm.taken, respond).Success?
    ensures r.Failure? ==> r.error == AsWrittenError(AttachOutcome(addrs, named, Irq(irqLine), rm.taken, respond).error)
    ensures rm.held == old(rm.held) + KeptAsWritten(addrs, named, Irq(irqLine), rm.taken)
    ensures r.Success? ==> fresh(r.value) && fresh(r.value.io) && r.value.Valid()
  {
    var acquired := Acquire(addrs, named, irqLine, rm, respond);
    if acquired.Failure? {
      if acquired.error == NoIOAccess {
        return Failure(NullDereference);
      }
      return Failure(acquired.error);
    }
    var core := Build(acquired.value, addrs[0].ioBase, resetState, chip, prom, bufferManager, driver);
    r := Success(core);
  }

  /**
   * The corrected constructor: it fails with nothing held, or succeeds
   * holding both claims, with a core over the chosen access width.
   */
  method Attach(addrs: seq<BaseAddress>, named: bool, irqLine: int, rm: ResourceManager,
                respond: Responder, resetState: RegState, chip: RegState, prom: int -> bv8,
                bufferManager: BufferManager, driver: NetworkStack)
    returns (r: Result<LanceCore, AttachError>)
    requires ResetSound(resetState)
    modifies rm
    ensures r.Success? <==> AttachOutcome(addrs, named, Irq(irqLine), rm.taken, respond).Success?
    ensures r.Failure? ==> r.error == AttachOutcome(addrs, named, Irq(irqLine), rm.taken, respond).error
    ensures rm.held == old(rm.held) + Kept(addrs, named, Irq(irqLine), rm.taken, respond)
    ensures r.Success? ==> fresh(r.value) && fresh(r.value.io) && r.value.Valid()
    ensures r.Success? ==>
      && r.value.io.width == AttachOutcome(addrs, named, Irq(irqLine), rm.taken, respond).value
      && r.value.io.state == chip && r.value.io.log == []
      && r.value.iobase == addrs[0].ioBase
      && r.value.hwAddress == StationAddress(addrs[0].ioBase, prom)
      && r.value.chipVersion == ChipVersion(Get(chip.csr, 88), Get(chip.csr, 89))
      && r.value.bufferManager == bufferManager && r.value.driver == driver
  {
    var acquired := Acquire(addrs, named, irqLine, rm, respond);
    if acquired.Failure? {
      if acquired.error == NoIOAccess {
        Release(rm, Irq(irqLine), Window(addrs[0]));
      }
      return Failure(acquired.error);
    }
    var core := Build(acquired.value, addrs[0].ioBase, resetState, chip, prom, bufferManager, driver);
    r := Success(core);
  }

  /** release(): the I/O range, then the interrupt line. */
  method Release(rm: ResourceManager, irq: Resource, window: Resource)
    modifies rm
    ensures rm.held == old(rm.held) - multiset{window} - multiset{irq}
  {
    rm.Release(window);
    rm.Release(irq);
  }

  /**
   * A successful attach followed by release() leaves the resource manager
   * holding what it held before; a failed attach, for which release() is not
   * called, leaves it so as well.
   */
  lemma ReleaseUndoesAttach(held: multiset<Resource>, addrs: seq<BaseAddress>, named: bool, irq: Resource,
                            taken: set<Resource>, respond: Responder)
    ensures AttachOutcome(addrs, named, irq, taken, respond).Success? ==>
      held + Kept(addrs, named, irq, taken, respond) - multiset{Window(addrs[0])} - multiset{irq} == held
    ensures AttachOutcome(addrs, named, irq, taken, respond).Failure? ==>
      held + Kept(addrs, named, irq, taken, respond) == held
  {
    if AttachOutcome(addrs, named, irq, taken, respond).Success? {
      var w := Window(addrs[0]);
      assert held + multiset{irq, w} - multiset{w} == held + multiset{irq};
    }
  }

  /** The corrected constructor, and release() once it succeeded: nothing stays held. */
  method AttachThenRelease(addrs: seq<BaseAddress>, named: bool, irqLine: int, rm: ResourceManager,
                           respond: Responder, resetState: RegState, chip: RegState, prom: int -> bv8,
                           bufferManager: BufferManager, driver: NetworkStack)
    returns (r: Result<LanceCore, AttachError>)
    requires ResetSound(resetState)
    modifies rm
    ensures r.Success? <==> AttachOutcome(addrs, named, Irq(irqLine), rm.taken, respond).Success?
    ensures rm.held == old(rm.held)
  {
    r := Attach(addrs, named, irqLine, rm, respond, resetState, chip, prom, bufferManager, driver);
    if r.Success? {
      Release(rm, Irq(irqLine), Window(addrs[0]));
    }
    ReleaseUndoesAttach(old(rm.held), addrs, named, Irq(irqLine), rm.taken, respond);
  }
}
