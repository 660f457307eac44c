/**
 * The processor's view of the system bus: a flat byte-addressed memory and
 * the two interrupt request latches. Both interpreters reach the machine
 * only through `read`, `write`, `pollNMI` and `pollIRQ`; which device
 * answers a given address is the concern of the system buses, which are
 * modelled on their own.
 */
module CpuBus {
  import opened Bits

  class Bus {
    const cells: array<byte>
    var nmiPending: bool
    var irqPending: bool

    constructor (size: nat)
      ensures fresh(cells) && cells.Length == size && cells[..] == seq(size, _ => 0)
      ensures !nmiPending && !irqPending
    {
      cells := new byte[size](_ => 0);
      nmiPending := false;
      irqPending := false;
    }

    /** `read(address)`: the byte at that address. */
    method Read(address: nat) returns (value: byte)
      requires address < cells.Length
      ensures value == cells[address]
    {
      value := cells[address];
    }

    /** `write(address, value)`: changes that byte and no other. */
    method Write(address: nat, value: byte)
      requires address < cells.Length
      modifies cells
      ensures cells[..] == old(cells[..])[address := value]
    {
      cells[address] := value;
    }

    method RequestNmi()
      modifies this
      ensures nmiPending && irqPending == old(irqPending)
    {
      nmiPending := true;
    }

    method RequestIrq()
      modifies this
      ensures irqPending && nmiPending == old(nmiPending)
    {
      irqPending := true;
    }

    /** `pollNMI()`: reports a pending request once and clears it. */
    method PollNmi() returns (pending: bool)
      modifies this
      ensures pending == old(nmiPending) && !nmiPending && irqPending == old(irqPending)
    {
      pending := nmiPending;
      nmiPending := false;
    }

    /** `pollIRQ()`: reports a pending request once and clears it. */
    method PollIrq() returns (pending: bool)
      modifies this
      ensures pending == old(irqPending) && !irqPending && nmiPending == old(nmiPending)
    {
      pending := irqPending;
      irqPending := false;
    }
  }
}
