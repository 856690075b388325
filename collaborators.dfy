/**
 * The device core's collaborators, seen only through the calls it makes on
 * them: the buffer manager that owns the descriptor rings, and the driver
 * that hands received frames to the network stack. Their internals are not
 * part of this model; each is represented by what its calls observably do.
 */
module Collaborators {
  import opened Wrappers

  /** Frame bytes, as held in a socket buffer. */
  type Frame = seq<bv8>

  /** Why the buffer manager's transmit gave up waiting for a free descriptor. */
  datatype TxError = Timeout | Interrupted

  /**
   * The buffer manager. `incoming` lists the frames its getPacket will hand
   * out, in order; `outgoing` the frames its transmit accepted, in order.
   */
  class BufferManager {
    var incoming: seq<Frame>
    var outgoing: seq<Frame>
    /** getInitDataAddressAs32Bit(): where the Initialization Block lives. */
    const initDataAddress: bv32

    constructor (initDataAddress: bv32, incoming: seq<Frame>)
      ensures this.initDataAddress == initDataAddress
      ensures this.incoming == incoming && outgoing == []
    {
      this.initDataAddress := initDataAddress;
      this.incoming := incoming;
      outgoing := [];
    }

    /** getPacket(): the next received frame, or None (null) once there is none. */
    method GetPacket() returns (p: Option<Frame>)
      modifies this`incoming
      ensures old(incoming) == [] ==> p == None && incoming == []
      ensures old(incoming) != [] ==> p == Some(old(incoming)[0]) && incoming == old(incoming)[1..]
    {
      if incoming == [] {
        p := None;
      } else {
        p := Some(incoming[0]);
        incoming := incoming[1..];
      }
    }

    /**
     * transmit(buf): queues the frame, unless the wait for a free descriptor
     * ended first. How that wait ends depends on the clock and on other
     * threads, so it is a parameter: None for a descriptor that came free.
     */
    method Transmit(f: Frame, waitEnded: Option<TxError>) returns (r: Outcome<TxError>)
      modifies this`outgoing
      ensures waitEnded == None ==> r == Pass && outgoing == old(outgoing) + [f]
      ensures waitEnded.Some? ==> r == Fail(waitEnded.value) && outgoing == old(outgoing)
    {
      if waitEnded.Some? {
        r := Fail(waitEnded.value);
      } else {
        outgoing := outgoing + [f];
        r := Pass;
      }
    }
  }

  /**
   * The driver's onReceive: every frame offered is recorded; the network
   * stack refuses the frames `refuses` picks (a NetworkException).
   */
  class NetworkStack {
    var offered: seq<Frame>
    var delivered: seq<Frame>
    const refuses: Frame -> bool

    constructor (refuses: Frame -> bool)
      ensures this.refuses == refuses && offered == [] && delivered == []
    {
      this.refuses := refuses;
      offered := [];
      delivered := [];
    }

    method OnReceive(f: Frame) returns (ok: bool)
      modifies this
      ensures ok == !refuses(f)
      ensures offered == old(offered) + [f]
      ensures delivered == if ok then old(delivered) + [f] else old(delivered)
    {
      offered := offered + [f];
      ok := !refuses(f);
      if ok {
        delivered := delivered + [f];
      }
    }
  }

  /** The frames among fs the stack accepts, in order. */
  function Accepted(refuses: Frame -> bool, fs: seq<Frame>): (r: seq<Frame>)
    ensures |r| <= |fs|
    decreases |fs|
  {
    if fs == [] then []
    else Accepted(refuses, fs[..|fs| - 1]) + (if refuses(fs[|fs| - 1]) then [] else [fs[|fs| - 1]])
  }

  /** One more frame offered: it is appended to the accepted ones unless refused. */
  lemma AcceptedSnoc(refuses: Frame -> bool, fs: seq<Frame>, f: Frame)
    ensures Accepted(refuses, fs + [f]) == Accepted(refuses, fs) + (if refuses(f) then [] else [f])
  {
    assert (fs + [f])[..|fs|] == fs;
  }

  /** A frame is accepted exactly when it was offered and the stack does not refuse it. */
  lemma {:induction false} AcceptedMembers(refuses: Frame -> bool, fs: seq<Frame>)
    ensures forall f :: f in Accepted(refuses, fs) <==> f in fs && !refuses(f)
    decreases |fs|
  {
    if fs != [] {
      var init, last := fs[..|fs| - 1], fs[|fs| - 1];
      assert fs == init + [last];
      AcceptedMembers(refuses, init);
      AcceptedSnoc(refuses, init, last);
    }
  }

  /** A resource the driver claims: an interrupt line or a range of I/O ports. */
  datatype Resource = Irq(line: int) | IoRange(base: int, length: int)

  /**
   * The resource manager, seen through claims and releases. `held` counts the
   * claims this driver holds and has not released; a claim of a resource in
   * `taken`, owned elsewhere, is refused (ResourceNotFreeException).
   */
  class ResourceManager {
    var held: multiset<Resource>
    const taken: set<Resource>

    constructor (taken: set<Resource>)
      ensures this.taken == taken && held == multiset{}
    {
      this.taken := taken;
      held := multiset{};
    }

    /** claimIRQ / claimIOResource */
    method Claim(r: Resource) returns (ok: bool)
      modifies this`held
      ensures ok == (r !in taken)
      ensures held == if ok then old(held) + multiset{r} else old(held)
    {
      ok := r !in taken;
      if ok {
        held := held + multiset{r};
      }
    }

    /** release() of a claimed resource */
    method Release(r: Resource)
      modifies this`held
      ensures held == old(held) - multiset{r}
    {
      held := held - multiset{r};
    }
  }
}
