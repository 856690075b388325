/**
 * The register-width probe run while the device core is constructed: it
 * decides whether the chip answers 16-bit (word) or 32-bit (dword) register
 * accesses by a handshake through the address pointer (RAP) and data (RDP)
 * ports.
 */
module Probe {
  import opened Wrappers
  import opened LanceConstants

  /** The I/O access the driver settles on: WordIOAccess or DWordIOAccess. */
  datatype Width = Word | DWord

  /** One port access: a read, or a write of a value, of the given width. */
  datatype PortOp = In(width: Width, port: int) | Out(width: Width, port: int, value: bv32)

  /**
   * The hardware behind the ports. Given every access made so far, ending
   * with a read, it says what that read returns.
   */
  type Responder = seq<PortOp> -> bv32

  function ResetPort(w: Width): int { if w == Word then WIO_RESET else DWIO_RESET }
  function RapPort(w: Width): int { if w == Word then WIO_RAP else DWIO_RAP }
  function RdpPort(w: Width): int { if w == Word then WIO_RDP else DWIO_RDP }

  /** Reset by reading the reset port, select register 0, read the data port. */
  function SelectZero(base: int, w: Width): seq<PortOp> {
    [In(w, base + ResetPort(w)), Out(w, base + RapPort(w), 0), In(w, base + RdpPort(w))]
  }

  /** Write 88 to the address pointer and read it back. */
  function SelectEightyEight(base: int, w: Width): seq<PortOp> {
    [Out(w, base + RapPort(w), 88), In(w, base + RapPort(w))]
  }

  /** A word read of RAP is compared as it is; a dword read only in its low 16 bits. */
  function RapReadBack(w: Width, v: bv32): bv32 {
    if w == Word then v else v & 0xFFFF
  }

  /**
   * The handshake of width w, made after the accesses `before`, confirms:
   * the data port reads 4 with register 0 selected, and the address pointer
   * reads back 88 after 88 is written to it.
   */
  ghost predicate Confirms(base: int, w: Width, respond: Responder, before: seq<PortOp>) {
    var zero := before + SelectZero(base, w);
    respond(zero) == 4 && RapReadBack(w, respond(zero + SelectEightyEight(base, w))) == 88
  }

  /** The accesses one handshake makes and whether it confirmed. */
  datatype Attempt = Attempt(ops: seq<PortOp>, confirmed: bool)

  /** One handshake, in the order the driver makes its accesses; 88 is written only after the data port read 4. */
  function Handshake(base: int, w: Width, respond: Responder, before: seq<PortOp>): (a: Attempt)
    ensures a.confirmed <==> Confirms(base, w, respond, before)
    ensures |before| + 3 <= |a.ops| && a.ops[..|before| + 3] == before + SelectZero(base, w)
    ensures forall k :: |before| <= k < |a.ops| ==> a.ops[k].width == w
    ensures a.ops == before + SelectZero(base, w) +
      (if respond(before + SelectZero(base, w)) == 4 then SelectEightyEight(base, w) else [])
  {
    var zero := before + SelectZero(base, w);
    if respond(zero) != 4 then Attempt(zero, false)
    else
      var eightyEight := zero + SelectEightyEight(base, w);
      Attempt(eightyEight, RapReadBack(w, respond(eightyEight)) == 88)
  }

  /** The accesses the probe made, and the width chosen (None: the driver's null). */
  datatype ProbeResult = ProbeResult(ops: seq<PortOp>, access: Option<Width>)

  /** The accesses of the word handshake, after which the dword handshake runs. */
  function WordAttemptOps(base: int, respond: Responder): seq<PortOp> {
    Handshake(base, Word, respond, []).ops
  }

  /**
   * The probe: the word handshake first, the dword handshake only if it fails,
   * and no access type at all if both fail.
   */
  function Probe(base: int, respond: Responder): (r: ProbeResult)
    ensures r.access == Some(Word) <==> Confirms(base, Word, respond, [])
    ensures r.access == Some(DWord) <==>
      !Confirms(base, Word, respond, []) && Confirms(base, DWord, respond, WordAttemptOps(base, respond))
    ensures r.access == None <==>
      !Confirms(base, Word, respond, []) && !Confirms(base, DWord, respond, WordAttemptOps(base, respond))
    ensures |r.ops| >= 3 && r.ops[..3] == SelectZero(base, Word)
    ensures r.access == Some(Word) ==> forall k :: 0 <= k < |r.ops| ==> r.ops[k].width == Word
  {
    var word := Handshake(base, Word, respond, []);
    if word.confirmed then ProbeResult(word.ops, Some(Word))
    else
      var dword := Handshake(base, DWord, respond, word.ops);
      assert dword.ops[..3] == word.ops[..3];
      ProbeResult(dword.ops, if dword.confirmed then Some(DWord) else None)
  }

  /**
   * The value last written to the address pointer of width `mode` in the
   * accesses h, or 0 if a reset of that width came after it (or nothing did).
   */
  function LatchedRap(base: int, mode: Width, h: seq<PortOp>): bv32
    decreases |h|
  {
    if h == [] then 0 as bv32
    else
      var rest := h[..|h| - 1];
      match h[|h| - 1]
      case Out(w, p, v) => if w == mode && p == base + RapPort(mode) then v else LatchedRap(base, mode, rest)
      case In(w, p) => if w == mode && p == base + ResetPort(mode) then 0 as bv32 else LatchedRap(base, mode, rest)
  }

  /**
   * A simulated chip that decodes accesses of width `mode` only. Its address
   * pointer holds the last value written to it; the data port returns the
   * selected register of the reset state (CSR0 reads STOP, which is 4, the
   * others 0); a dword read of the address pointer returns undefined upper
   * bits `junk`; a read of the other width sees no device and returns all ones.
   */
  function SimulatedChip(base: int, mode: Width, junk: bv32): Responder {
    (h: seq<PortOp>) =>
      if |h| == 0 || !h[|h| - 1].In? || h[|h| - 1].width != mode then 0xFFFF_FFFF
      else
        var port := h[|h| - 1].port;
        var rap := LatchedRap(base, mode, h[..|h| - 1]);
        if port == base + RdpPort(mode) then (if rap == 0 then CSR0_STOP else 0)
        else if port == base + RapPort(mode) then
          (if mode == Word then rap & 0xFFFF else (rap & 0xFFFF) | (junk & 0xFFFF_0000))
        else 0
  }

  /** A chip that answers word accesses is given word access. */
  lemma WordChipSelectsWord(base: int, junk: bv32)
    ensures Probe(base, SimulatedChip(base, Word, junk)).access == Some(Word)
  {
    WordChipReadsStop(base, junk);
    WordChipEchoesRap(base, junk);
  }

  lemma WordChipReadsStop(base: int, junk: bv32)
    ensures SimulatedChip(base, Word, junk)(SelectZero(base, Word)) == 4
  {
    var zero := SelectZero(base, Word);
    assert LatchedRap(base, Word, zero[..2]) == 0;
  }

  lemma WordChipEchoesRap(base: int, junk: bv32)
    ensures SimulatedChip(base, Word, junk)(SelectZero(base, Word) + SelectEightyEight(base, Word)) == 88
  {
    var eightyEight := SelectZero(base, Word) + SelectEightyEight(base, Word);
    assert eightyEight[..|eightyEight| - 1] == SelectZero(base, Word) + [Out(Word, base + WIO_RAP, 88)];
    assert LatchedRap(base, Word, eightyEight[..|eightyEight| - 1]) == 88;
  }

  /**
   * A chip that answers only dword accesses is given dword access, whatever
   * the undefined upper bits of its address pointer read back as.
   */
  lemma DWordChipSelectsDWord(base: int, junk: bv32)
    ensures Probe(base, SimulatedChip(base, DWord, junk)).access == Some(DWord)
  {
    var chip := SimulatedChip(base, DWord, junk);
    DWordChipIgnoresWord(base, junk);
    assert !Confirms(base, Word, chip, []);
    var before := WordAttemptOps(base, chip);
    assert before == SelectZero(base, Word);
    DWordChipReadsStop(base, junk);
    DWordChipEchoesRap(base, junk);
  }

  lemma DWordChipIgnoresWord(base: int, junk: bv32)
    ensures SimulatedChip(base, DWord, junk)(SelectZero(base, Word)) == 0xFFFF_FFFF
  {
  }

  lemma DWordChipReadsStop(base: int, junk: bv32)
    ensures SimulatedChip(base, DWord, junk)(SelectZero(base, Word) + SelectZero(base, DWord)) == 4
  {
    var zero := SelectZero(base, Word) + SelectZero(base, DWord);
    assert zero[..|zero| - 1] == SelectZero(base, Word) + [In(DWord, base + DWIO_RESET), Out(DWord, base + DWIO_RAP, 0)];
    assert LatchedRap(base, DWord, zero[..|zero| - 1]) == 0;
  }

  lemma DWordChipEchoesRap(base: int, junk: bv32)
    ensures SimulatedChip(base, DWord, junk)(SelectZero(base, Word) + SelectZero(base, DWord)
                                             + SelectEightyEight(base, DWord)) & 0xFFFF == 88
  {
    var zero := SelectZero(base, Word) + SelectZero(base, DWord);
    var eightyEight := zero + SelectEightyEight(base, DWord);
    assert eightyEight[..|eightyEight| - 1] == zero + [Out(DWord, base + DWIO_RAP, 88)];
    assert LatchedRap(base, DWord, eightyEight[..|eightyEight| - 1]) == 88;
  }
}
