/**
 * The pure bit arithmetic of the device core: Java's 32-bit shift, the split
 * of the Initialization Block address over CSR1/CSR2, the chip version read
 * from CSR88/CSR89 and the transmit-demand doorbell value.
 */
module LanceBits {
  import opened LanceConstants

  /**
   * Java's `>>` on an `int`: an arithmetic shift that copies the sign bit into
   * the vacated high bits.
   */
  function JavaShr(x: bv32, n: bv32): (r: bv32)
    requires n < 32
    ensures r & (0xFFFF_FFFF >> n) == x >> n
    ensures x & 0x8000_0000 == 0 ==> r == x >> n
    ensures x & 0x8000_0000 != 0 ==> r & 0x8000_0000 != 0
  {
    if x & 0x8000_0000 == 0 then x >> n else (x >> n) | !(0xFFFF_FFFF >> n)
  }

  /** For a negative value every vacated high bit of JavaShr is a copy of the sign bit. */
  lemma JavaShrSignFill(x: bv32, n: bv32)
    requires n < 32
    ensures x & 0x8000_0000 != 0 ==> JavaShr(x, n) & !(0xFFFF_FFFF >> n) == !(0xFFFF_FFFF >> n)
  {
    if x & 0x8000_0000 != 0 {
      OrAbsorbs(x >> n, !(0xFFFF_FFFF >> n));
    }
  }

  /** Bits ORed in are set afterwards. */
  lemma OrAbsorbs(a: bv32, m: bv32)
    ensures (a | m) & m == m
  {
  }

  /** The value written to CSR1 (`iaddr & 0xFFFF`). */
  function AddressLow(iaddr: bv32): (r: bv32)
    ensures r <= 0xFFFF
    ensures iaddr - r == (iaddr >> 16) << 16
  {
    iaddr & 0xFFFF
  }

  /** The value written to CSR2 (`(iaddr >> 16) & 0xFFFF`, with Java's shift). */
  function AddressHigh(iaddr: bv32): (r: bv32)
    ensures r <= 0xFFFF
    ensures r == iaddr >> 16
  {
    JavaShr(iaddr, 16) & 0xFFFF
  }

  /** Reassembling the two halves gives back the Initialization Block address. */
  lemma AddressSplitRoundTrip(iaddr: bv32)
    ensures AddressLow(iaddr) | (AddressHigh(iaddr) << 16) == iaddr
  {
  }

  /** The split is the only way to write the address as two 16-bit halves. */
  lemma AddressSplitUnique(iaddr: bv32, lo: bv32, hi: bv32)
    requires lo <= 0xFFFF && hi <= 0xFFFF
    requires lo | (hi << 16) == iaddr
    ensures lo == AddressLow(iaddr) && hi == AddressHigh(iaddr)
  {
  }

  /**
   * The chip version: `((csr88 | (csr89 << 16)) >> 12) & 0xffff`. The result is
   * bits 12..27 of the 32-bit part identifier formed from the two registers.
   */
  function ChipVersion(csr88: bv32, csr89: bv32): (r: bv32)
    ensures r <= 0xFFFF
    ensures r == ((csr88 >> 12) & 0xFFFF) | ((csr89 & 0xFFF) << 4)
  {
    JavaShr(csr88 | (csr89 << 16), 12) & 0xFFFF
  }

  /**
   * With 16-bit register values, as a word-mode read returns them, the version
   * is the top nibble of CSR88 followed by the low twelve bits of CSR89.
   */
  lemma ChipVersionFields(csr88: bv32, csr89: bv32)
    requires csr88 <= 0xFFFF && csr89 <= 0xFFFF
    ensures ChipVersion(csr88, csr89) & 0xF == csr88 >> 12
    ensures ChipVersion(csr88, csr89) >> 4 == csr89 & 0xFFF
  {
  }

  /** The value the transmit doorbell writes to CSR0: the value read with TDMD set. */
  function Doorbell(csr0: bv32): bv32 {
    csr0 | CSR0_TDMD
  }

  /**
   * The doorbell as evidently intended: TDMD and the control bits as read,
   * with every write-1-to-clear flag written as 0, so that ringing it
   * acknowledges no interrupt.
   */
  function QuietDoorbell(csr0: bv32): (r: bv32)
    ensures r & CSR0_TDMD == CSR0_TDMD
    ensures r & CSR0_FLAGS == 0
    ensures r & CSR0_CONTROL == (csr0 & CSR0_CONTROL) | CSR0_TDMD
  {
    (csr0 & !CSR0_FLAGS) | CSR0_TDMD
  }

  /** The doorbell sets TDMD and leaves every other bit as it was read. */
  lemma DoorbellSetsDemand(csr0: bv32)
    ensures Doorbell(csr0) & CSR0_TDMD == CSR0_TDMD
    ensures Doorbell(csr0) & !CSR0_TDMD == csr0 & !CSR0_TDMD
  {
  }
}
