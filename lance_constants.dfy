/**
 * Register bits and port offsets of the PCnet/LANCE controller.
 *
 * The driver takes these from its constants interface; the values here are
 * the bit positions given in the Am79C970A data sheet. The masks below are
 * built from those bits, so each says by its definition which flags it holds.
 */
module LanceConstants {

  // CSR0, the controller status and control register
  const CSR0_INIT: bv32 := 0x0001
  const CSR0_STRT: bv32 := 0x0002
  const CSR0_STOP: bv32 := 0x0004
  const CSR0_TDMD: bv32 := 0x0008
  const CSR0_TXON: bv32 := 0x0010
  const CSR0_RXON: bv32 := 0x0020
  const CSR0_IENA: bv32 := 0x0040
  const CSR0_INTR: bv32 := 0x0080
  const CSR0_IDON: bv32 := 0x0100
  const CSR0_TINT: bv32 := 0x0200
  const CSR0_RINT: bv32 := 0x0400
  const CSR0_MERR: bv32 := 0x0800
  const CSR0_MISS: bv32 := 0x1000
  const CSR0_CERR: bv32 := 0x2000
  const CSR0_BABL: bv32 := 0x4000
  const CSR0_ERR: bv32 := 0x8000

  // CSR4, test and features control
  const CSR4_JAB: bv32 := 0x0002
  const CSR4_TXSTRT: bv32 := 0x0008
  const CSR4_RCVCCO: bv32 := 0x0020
  const CSR4_UINT: bv32 := 0x0040
  const CSR4_MFCO: bv32 := 0x0200
  const CSR4_APAD_XMT: bv32 := 0x0800
  const CSR4_DMAPLUS: bv32 := 0x4000

  // CSR5, extended control and interrupt
  const CSR5_MPINTE: bv32 := 0x0008
  const CSR5_MPINT: bv32 := 0x0010
  const CSR5_EXDINTE: bv32 := 0x0040
  const CSR5_EXDINT: bv32 := 0x0080
  const CSR5_SLPINTE: bv32 := 0x0100
  const CSR5_SLPINT: bv32 := 0x0200
  const CSR5_SINTE: bv32 := 0x0400
  const CSR5_SINT: bv32 := 0x0800
  const CSR5_LTINTEN: bv32 := 0x4000

  // CSR15, mode: receiver and transmitter disable
  const CSR15_DRX: bv32 := 0x0001
  const CSR15_DTX: bv32 := 0x0002

  // BCR2 auto port select, BCR9 full-duplex enable
  const BCR2_ASEL: bv32 := 0x0002
  const BCR9_FDEN: bv32 := 0x0001

  /** The CSR0 flags the chip sets and software clears by writing 1 to them. */
  const CSR0_FLAGS: bv32 := CSR0_BABL | CSR0_CERR | CSR0_MISS | CSR0_MERR | CSR0_RINT | CSR0_TINT | CSR0_IDON
  /** The CSR0 flags that make the chip assert INTR (CERR does not). */
  const CSR0_INTR_SOURCES: bv32 := CSR0_BABL | CSR0_MISS | CSR0_MERR | CSR0_RINT | CSR0_TINT | CSR0_IDON
  /** The error flags whose OR the chip shows as ERR. */
  const CSR0_ERRORS: bv32 := CSR0_BABL | CSR0_CERR | CSR0_MISS | CSR0_MERR
  /** CSR0 bits that hold what software last wrote (commands and enables). */
  const CSR0_CONTROL: bv32 := CSR0_INIT | CSR0_STRT | CSR0_STOP | CSR0_TDMD | CSR0_TXON | CSR0_RXON | CSR0_IENA
  /** Write-1-to-clear interrupt flags of CSR4 and CSR5. */
  const CSR4_FLAGS: bv32 := CSR4_MFCO | CSR4_UINT | CSR4_RCVCCO | CSR4_TXSTRT | CSR4_JAB
  const CSR5_FLAGS: bv32 := CSR5_SINT | CSR5_SLPINT | CSR5_EXDINT | CSR5_MPINT
  /** The bits of CSR4 and CSR5 other than their flags. */
  const CSR4_WRITABLE: bv32 := !CSR4_FLAGS
  const CSR5_WRITABLE: bv32 := !CSR5_FLAGS

  // Port offsets from the I/O base in 16-bit (word) mode
  const WIO_RDP: int := 0x10
  const WIO_RAP: int := 0x12
  const WIO_RESET: int := 0x14
  // Port offsets from the I/O base in 32-bit (dword) mode
  const DWIO_RDP: int := 0x10
  const DWIO_RAP: int := 0x14
  const DWIO_RESET: int := 0x18

  /** Offset of the station address PROM and the length of an Ethernet address. */
  const R_ETH_ADDR_OFFSET: int := 0
  const ETH_ALEN: int := 6
}
