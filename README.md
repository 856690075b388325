# PCnet/LANCE device core, modelled in Dafny

This project models `LanceCore`, the device core of JNode's driver for
the AMD PCnet/LANCE Ethernet controller, and proves properties of the
model. The core does seven things:

- probes the register access width (16-bit word or 32-bit dword I/O);
- programs the chip for bring-up (`initialize`) and shutdown (`disable`);
- decodes the chip version from CSR88 and CSR89;
- rings the transmit doorbell;
- services interrupts: acknowledges the status registers, starts the chip
  after Initialization Done and drains the receive ring;
- loads the station address;
- validates its PCI base address and claims its interrupt line and I/O
  range when it is constructed.

The chip's registers are an abstract register file (`Registers.RegisterFile`):
maps of CSR and BCR values plus an append-only log of every write the
driver makes. The register file makes two explicit assumptions about the
hardware. The first is the one the interrupt handler relies on:

- The interrupt flags of CSR0, CSR4 and CSR5 are set by the chip and
  cleared by writing 1 to them (write-1-to-clear).
- CSR0's INTR and ERR bits are computed from those flags when CSR0 is read.
- Every other bit holds the last value written to it.

The second is the one `initialize` and `disable` rely on. A write to the
reset port puts every register into one fixed reset state (`resetState`,
whatever was there before). In that state CSR0 is STOP and no CSR4 or CSR5
flag is set (`Registers.ResetSound`).

The chip raising new flags while the handler runs is a finite list of
events, `raised`, given to `HandleInterrupt`.

Files:

| file | contents |
|---|---|
| `wrappers.dfy` | Option, Result, Outcome |
| `lance_constants.dfy` | register bits, masks and port offsets |
| `lance_bits.dfy` | pure `bv32` arithmetic: Java's `>>`, the address split, the chip version, the doorbell value |
| `probe.dfy` | the width probe over a port-response oracle, and a simulated chip |
| `registers.dfy` | the register file: write-1-to-clear storage, reads, runs of writes |
| `collaborators.dfy` | the buffer manager, the network stack and the resource manager, seen through their calls |
| `lance_core.dfy` | `initialize`, `disable`, `transmit`, `handleInterrupt`, `rxProcess`, `loadHWAddress` |
| `construction.dfy` | the constructor's validation, claims, probe and set-up, and `release` |

All source paths below are under `net/src/driver/org/jnode/driver/net/lance/`.

## Model

| member | source | states |
|---|---|---|
| LanceBits.JavaShr | net/src/driver/org/jnode/driver/net/lance/LanceCore.java:208 | Java's arithmetic `>>`. The bits below the shifted-in ones are the logical shift, a non-negative value shifts logically, a negative one stays negative. |
| LanceBits.JavaShrSignFill | net/src/driver/org/jnode/driver/net/lance/LanceCore.java:208 | For a negative value, every vacated high bit of Java's `>>` is set, a copy of the sign bit. |
| LanceBits.AddressLow | net/src/driver/org/jnode/driver/net/lance/LanceCore.java:207 | The CSR1 value is at most 0xFFFF and is what remains of the address once its upper half is removed. |
| LanceBits.AddressHigh | net/src/driver/org/jnode/driver/net/lance/LanceCore.java:208 | The CSR2 value is at most 0xFFFF and equals the logical shift `iaddr >> 16`; the sign extension of Java's `>>` is masked away. |
| LanceBits.AddressSplitRoundTrip | net/src/driver/org/jnode/driver/net/lance/LanceCore.java:206-208 | `CSR1 \| (CSR2 << 16)` gives back the Initialization Block address. |
| LanceBits.AddressSplitUnique | net/src/driver/org/jnode/driver/net/lance/LanceCore.java:206-208 | Any two 16-bit halves that reassemble the address are exactly the two the driver writes. |
| LanceBits.ChipVersion | net/src/driver/org/jnode/driver/net/lance/LanceCore.java:251-256 | The version is at most 0xFFFF and equals `((CSR88 >> 12) & 0xFFFF) \| ((CSR89 & 0xFFF) << 4)` for all 32-bit register values: bits 12-27 of CSR88 ORed with bits 0-11 of CSR89 moved up to bits 4-15. Java's sign extension never reaches the result. |
| LanceBits.ChipVersionFields | net/src/driver/org/jnode/driver/net/lance/LanceCore.java:252-253 | For 16-bit register values, the low nibble of the version is CSR88's top nibble and the rest is CSR89's low 12 bits. |
| LanceBits.DoorbellSetsDemand | net/src/driver/org/jnode/driver/net/lance/LanceCore.java:274 | The doorbell value has TDMD set and every other bit as read. |
| Probe.Handshake | net/src/driver/org/jnode/driver/net/lance/LanceCore.java:159-167 | One handshake confirms iff the data port reads 4 after RAP := 0 and RAP reads back 88 (a dword read in its low 16 bits) after RAP := 88. Its accesses are exactly reset, RAP := 0 and the RDP read, followed by RAP := 88 and the RAP read only when the data port read 4. All of them have its width. |
| Probe.Probe | net/src/driver/org/jnode/driver/net/lance/LanceCore.java:158-178 | Word iff the word handshake confirms. DWord iff the word handshake fails and the dword handshake, made after it, confirms. No access (null) iff both fail. Word is chosen whenever it confirms and uses only word accesses. |
| Probe.WordChipSelectsWord | net/src/driver/org/jnode/driver/net/lance/LanceCore.java:158-166 | A simulated chip that decodes word accesses is given word access. |
| Probe.DWordChipSelectsDWord | net/src/driver/org/jnode/driver/net/lance/LanceCore.java:158-175 | A simulated chip that decodes only dword accesses is given dword access, whatever its address pointer's upper 16 bits read back as. |
| Registers.StoreClearsWrittenFlags | net/src/driver/org/jnode/driver/net/lance/LanceCore.java:287-289 | In the register file, a flag written as 1 is cleared and a flag written as 0 keeps its value. |
| Registers.StoreKeepsControl | net/src/driver/org/jnode/driver/net/lance/LanceCore.java:287 | CSR0's control bits take the value written. |
| Registers.StoreNoOtherBits | net/src/driver/org/jnode/driver/net/lance/LanceCore.java:281 | A stored register holds no bit outside its flags and writable bits, so INTR and ERR are never stored. |
| Registers.ReadCsr0Bits | net/src/driver/org/jnode/driver/net/lance/LanceCore.java:281-282 | CSR0 reads back its stored flags and control bits. ERR is set iff an error flag is set. INTR is set iff an interrupt is pending. |
| Registers.RunConcat | net/src/driver/org/jnode/driver/net/lance/LanceCore.java:183-214 | Running two write sequences one after the other is running their concatenation. |
| Lance.InitWritesConfigure | net/src/driver/org/jnode/driver/net/lance/LanceCore.java:183-214 | Whatever the registers held, `initialize`'s writes leave the chip configured: the BCR20, BCR2, BCR9, CSR4, CSR5, CSR1, CSR2 and CSR0 values over the reset state. |
| Lance.InitializeProgramsChip | net/src/driver/org/jnode/driver/net/lance/LanceCore.java:183-214 | After `initialize` the chip reads the programmed BCR20 = 2, ASEL, FDEN, DMAPLUS\|APAD_XMT and the five CSR5 enables. CSR1 and CSR2 are 16-bit values that reassemble the block address. CSR0 reads INIT\|IENA. The result does not depend on the earlier register state. |
| Lance.LanceCore.Initialize | net/src/driver/org/jnode/driver/net/lance/LanceCore.java:183-214 | The log grows by exactly the ordered writes: reset, BCR20, BCR2, BCR9, CSR4, CSR5, CSR1, CSR2, and CSR0 := INIT\|IENA last. The registers are the result of running those writes. |
| Lance.DisableIdempotent | net/src/driver/org/jnode/driver/net/lance/LanceCore.java:220-223 | After `disable`, CSR0 reads STOP whatever came before, and a second `disable` leaves the registers as the first did. |
| Lance.LanceCore.Disable | net/src/driver/org/jnode/driver/net/lance/LanceCore.java:220-223 | The log grows by reset then CSR0 := STOP, and CSR0 reads STOP afterwards. |
| Lance.LanceCore.TransmitAsWritten | net/src/driver/org/jnode/driver/net/lance/LanceCore.java:265-275 | As written, the buffer manager queues the frame with bytes 6-11 set to the station address. Then the one register write is CSR0 := CSR0 as read \| TDMD. If the wait for a descriptor ends first, its exception propagates and no register is written. |
| Lance.LanceCore.Transmit | net/src/driver/org/jnode/driver/net/lance/LanceCore.java:265-275 | Corrected: the same queueing and error path, but the one register write is the quiet doorbell, which acknowledges no interrupt flag. |
| LanceBits.QuietDoorbell | net/src/driver/org/jnode/driver/net/lance/LanceCore.java:274 | The corrected doorbell value has TDMD set, no write-1-to-clear flag set, and CSR0's control bits as read. |
| Lance.WithSource | net/src/driver/org/jnode/driver/net/lance/LanceCore.java:268 | Bytes 6-11 of the frame become the station address; every other byte is kept. |
| Lance.DoorbellClearsFlags | net/src/driver/org/jnode/driver/net/lance/LanceCore.java:274 | Under write-1-to-clear, the doorbell's read-modify-write clears every CSR0 flag it read, and the control bits become the old ones plus TDMD. |
| Lance.DoorbellHidesReceive | net/src/driver/org/jnode/driver/net/lance/LanceCore.java:274 | With RINT pending, the doorbell as written leaves no interrupt pending, so the handler that runs next makes no pass and never drains the ring for that frame. |
| Lance.DoorbellKeepsFlags | net/src/driver/org/jnode/driver/net/lance/LanceCore.java:274 | The corrected doorbell keeps CSR0's flags and every other register, adds TDMD to the control bits, and leaves an interrupt pending iff one was pending before. |
| Lance.PassWrites | net/src/driver/org/jnode/driver/net/lance/LanceCore.java:287-301 | One pass writes back CSR0, CSR4 and CSR5 as read. After Initialization Done only, it then writes CSR15 := 0 and CSR0 := STRT\|IENA\|IDON. |
| Lance.PassWritesAcknowledge | net/src/driver/org/jnode/driver/net/lance/LanceCore.java:281-301 | Running a pass's writes over the registers it read leaves AfterPass: the flags cleared and the enables kept, then the chip started after Initialization Done. |
| Lance.AfterPassCsr0 | net/src/driver/org/jnode/driver/net/lance/LanceCore.java:287-300 | After a pass, CSR0 holds STRT\|IENA if it saw Initialization Done, else its old control bits. |
| Lance.AfterPassCsr15 | net/src/driver/org/jnode/driver/net/lance/LanceCore.java:296 | After Initialization Done, a pass leaves CSR15 = 0. |
| Lance.AfterPassQuiet | net/src/driver/org/jnode/driver/net/lance/LanceCore.java:281-301 | After a pass no interrupt is pending. |
| Lance.IntrShowsPending | net/src/driver/org/jnode/driver/net/lance/LanceCore.java:281 | CSR0 shows INTR exactly when an interrupt is pending. |
| Lance.LanceCore.ServicePass | net/src/driver/org/jnode/driver/net/lance/LanceCore.java:282-312 | One pass returns the status words as read, logs exactly PassWrites of them and leaves AfterPass. It drains the receive ring iff RINT was read. |
| Lance.Service | net/src/driver/org/jnode/driver/net/lance/LanceCore.java:280-312 | The whole service as a value: the status words of every pass and the final registers. The first pass reads the entry status, there is no pass iff nothing was pending, at most one pass more than the events raised, and nothing is pending at the end. |
| Lance.ServiceInterrupted | net/src/driver/org/jnode/driver/net/lance/LanceCore.java:280 | Every pass of the service read INTR set in CSR0. |
| Lance.ServiceAdvance | net/src/driver/org/jnode/driver/net/lance/LanceCore.java:280-312 | With an interrupt pending, the service from the state after k events is one pass followed by the service from the state that pass and event k leave. |
| Lance.PassResumes | net/src/driver/org/jnode/driver/net/lance/LanceCore.java:280-312 | If the passes made so far followed by the service from the current state are the whole service, one more pass keeps that so. |
| Lance.LanceCore.PassThenRaise | net/src/driver/org/jnode/driver/net/lance/LanceCore.java:281-312 | One pass, then the chip raising event k: the status words as read, PassWrites of them logged, and the registers AfterPass with event k raised. |
| Lance.LanceCore.ServiceLoop | net/src/driver/org/jnode/driver/net/lance/LanceCore.java:280-312 | The `while` loop of `handleInterrupt` makes exactly the passes of Service, leaves its final registers, logs the passes' writes in order, and drains the ring iff some pass read RINT. |
| Lance.LanceCore.HandleInterrupt | net/src/driver/org/jnode/driver/net/lance/LanceCore.java:280-312 | The passes and the final registers are exactly those of Service from the entry state and the events raised. The loop ends with INTR reading clear. The log is the passes' writes in order, each pass read INTR set, and there are none iff INTR read clear on entry. The ring was drained iff some pass read RINT. It makes at most one pass more than the chip raised events. |
| Lance.DrainIdempotent | net/src/driver/org/jnode/driver/net/lance/LanceCore.java:392-404 | Draining an empty ring changes nothing, so draining twice is draining once. |
| Lance.RxAfterAfter | net/src/driver/org/jnode/driver/net/lance/LanceCore.java:309-312 | Draining after a drain is one drain, so, with no frame arriving meanwhile, the receive side after several passes depends only on whether any of them drained. |
| Lance.LanceCore.RxProcess | net/src/driver/org/jnode/driver/net/lance/LanceCore.java:392-404 | Every frame of the ring is offered to the driver in order, and the accepted ones are delivered in order. A refused frame does not stop the loop, and the ring ends empty. |
| Collaborators.AcceptedMembers | net/src/driver/org/jnode/driver/net/lance/LanceCore.java:395-400 | A frame is delivered iff it was taken from the ring and the stack does not refuse it. |
| Collaborators.AcceptedSnoc | net/src/driver/org/jnode/driver/net/lance/LanceCore.java:398-400 | One more frame offered is appended to the delivered frames unless it is refused. |
| Lance.StationAddress | net/src/driver/org/jnode/driver/net/lance/LanceCore.java:243-249 | The station address has six bytes, byte i read from port iobase + R_ETH_ADDR_OFFSET + i. |
| Lance.LoadHwAddress | net/src/driver/org/jnode/driver/net/lance/LanceCore.java:243-249 | The loop fills the six-byte array with exactly the station address. |
| LanceConstruction.AttachOutcome | net/src/driver/org/jnode/driver/net/lance/LanceCore.java:92-124 | The constructor fails at the first failing step, in source order: NoBaseAddress, NotIOSpace, NoResourceManager, a refused claim (interrupt line first). It succeeds iff it gets past both claims and the probe finds a width, which is then the width used. |
| LanceConstruction.ClaimResources | net/src/driver/org/jnode/driver/net/lance/LanceCore.java:114-120 | The interrupt line is claimed, then the I/O range. A refused range releases the line, so a refused claim leaves nothing held. |
| LanceConstruction.Acquire | net/src/driver/org/jnode/driver/net/lance/LanceCore.java:92-124 | As written, the outcome is AttachOutcome. Both claims stay held once they succeeded, including after a probe failure. |
| LanceConstruction.Build | net/src/driver/org/jnode/driver/net/lance/LanceCore.java:123-130 | A fresh core over the chosen width. Its chip version is ChipVersion of CSR88 and CSR89 as read, its station address is the PROM's, and nothing has been written yet. |
| LanceConstruction.ProbeFailureLeaks | net/src/driver/org/jnode/driver/net/lance/LanceCore.java:114-124 | A device whose ports read 0 passes validation and both claims and fails the probe. The constructor as written then fails with both claims held. |
| LanceConstruction.FailureKeepsNothing | net/src/driver/org/jnode/driver/net/lance/LanceCore.java:114-124 | Corrected, a failure keeps no claim. As written, a probe failure keeps both. On success the two agree. |
| LanceConstruction.AttachAsWritten | net/src/driver/org/jnode/driver/net/lance/LanceCore.java:79-130 | The constructor as written: it succeeds iff AttachOutcome does, and the claims it leaves are KeptAsWritten. Its errors are AttachOutcome's, except that a probe failure ends in the null dereference of line 124 (NullDereference), not a driver exception. |
| LanceConstruction.Attach | net/src/driver/org/jnode/driver/net/lance/LanceCore.java:79-130 | The corrected constructor fails with nothing held, or succeeds holding both claims. On success the core uses the probed width, the first base address, the PROM's station address and the CSR88/CSR89 chip version. |
| LanceConstruction.Release | net/src/driver/org/jnode/driver/net/lance/LanceCore.java:228-231 | `release` gives back the I/O range and then the interrupt line. |
| LanceConstruction.ReleaseUndoesAttach | net/src/driver/org/jnode/driver/net/lance/LanceCore.java:228-231 | When AttachOutcome succeeds, removing the I/O range and then the interrupt line from what the corrected constructor keeps gives back the holdings from before. When it fails, the constructor keeps nothing. |
| LanceConstruction.AttachThenRelease | net/src/driver/org/jnode/driver/net/lance/LanceCore.java:228-231 | The corrected constructor, followed by `release` when it succeeded, leaves the resource manager holding exactly what it held before. |

## Left out

- Port I/O: `inPort*`/`outPort*` and the Word/DWord access classes. The probe sees ports through a response oracle; afterwards the core sees registers through the register file.
- The chip itself: it is not part of this model. Write-1-to-clear storage and INTR/ERR computed on read are assumptions of the register file, not facts about real hardware. The constants are the data-sheet bit positions, stated in `lance_constants.dfy`.
- Lance.LanceCore.HandleInterrupt: the receive ring is fixed on entry to the service. An event the chip raises during the service can set RINT, but it adds no frame to the buffer manager's queue. In the source, a frame that arrives between passes and is signalled by RINT is delivered by the next pass's `rxProcess` (lines 309-311). The model does not capture that, so its claim that the receive side is one drain of the entry ring holds only when no frame arrives during the service. `Lance.RxAfterAfter` is stated under the same restriction.
- Registers.RegisterFile.Csr: a read returns all 32 stored bits whatever the access width. The source's word access returns only the low 16 bits. `LanceConstruction.Build` therefore computes the chip version from 32-bit CSR88/CSR89 values. The two agree when the chip holds 16-bit values, as `LanceBits.ChipVersionFields` states.
- Lance.LanceCore.HandleInterrupt: the loop ends because the chip raises new flags only through the finite list `raised`. A chip that keeps interrupting forever is not modelled.
- The diagnostic branches of `handleInterrupt` (TINT, ERR, MERR, MISS, CERR, BABL, MFCO, UINT, RCVCCO, TXSTRT, JAB, SINT, SLPINT, EXDINT, MPINT) and all logging. They only log, so they write no register and change nothing.
- `dumpDebugInfo`: its body is commented out.
- The buffer manager's rings and descriptors. It is an interface: a queue of received frames, a list of frames it transmitted, the Initialization Block address. The `BufferManager` constructor is not part of this model; `Build` is handed the buffer manager.
- Lance.LanceCore.Transmit: the wait for a free descriptor is a parameter (`waitEnded`) because it depends on time and on other threads. The frame is a value, so `writeTo` stamping the caller's buffer in place is not modelled, only the queued copy. The frame must have at least 12 bytes.
- The reset state: the chip's reset contents are not modelled register by register. The register file takes them as a fixed `resetState` with CSR0 = STOP and no CSR4/CSR5 flag set. `Lance.InitializeProgramsChip` claims the result does not depend on the earlier registers, and `Lance.DisableIdempotent` rests on the same assumption.
- Lance.LanceCore.Transmit: the `timeout` parameter of `transmit` is never passed to `bufferManager.transmit` (line 272), so the model has no timeout either. How long the buffer manager waits is its own business, seen only through `waitEnded`.
- Concurrency: `synchronized` on `transmit`, and the interrupt handler running beside callers.
- The naming lookup of the resource manager is a boolean `named`. The resource manager's claim policy is the set `taken` of resources it refuses, so shared interrupt lines are not modelled separately.
- The PCI configuration read of the interrupt line (line 90) and the bus-master enable read-modify-write of PCI_COMMAND (lines 152-155): foreign calls with no state in this model. The interrupt line is the parameter `irqLine`.
- `flags.setForVersion`: `LanceFlags` is not part of this model. The core keeps the decoded version.
- `getHwAddress`: a plain getter, the `hwAddress` field.

## Findings

| source | as written | input that shows it | evidently intended | confidence | as-written member | corrected member |
|---|---|---|---|---|---|---|
| net/src/driver/org/jnode/driver/net/lance/LanceCore.java:123-124 | When the probe finds neither width, `getIOAccess` returns null and the next line's `io.getType()` throws a NullPointerException. The interrupt line and I/O range claimed on lines 114-116 are never released. | One base address in I/O space at 0x1000, size 0x20, both claims granted, every port read returning 0. | Release both claims and fail with a driver exception, as the failed I/O claim on lines 117-119 does for the interrupt line. | not executed | LanceConstruction.ProbeFailureLeaks | LanceConstruction.Attach |
| net/src/driver/org/jnode/driver/net/lance/LanceCore.java:274 | `transmit` rings the doorbell with `io.setCSR(0, io.getCSR(0) \| CSR0_TDMD)`. That writes back as 1 every CSR0 flag that was set when CSR0 was read. Under write-1-to-clear that acknowledges them: a RINT, TINT or IDON not yet serviced is cleared before `handleInterrupt` sees it. | CSR0 holding RINT, STRT and IENA (a frame received, the handler not yet run) when `transmit` rings. Afterwards no interrupt is pending, and the handler makes no pass. | Set TDMD without acknowledging anything: write the control bits as read with TDMD, and every flag as 0. | not executed | Lance.DoorbellHidesReceive | Lance.LanceCore.Transmit |
