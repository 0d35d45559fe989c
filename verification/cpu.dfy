/** The processor shell: its register record and an optional bus, with bus
    access guarded against a missing bus and otherwise handed to the bus. */
module Processor {
  import opened Wrappers
  import opened Exceptions
  import opened MemoryBus

  /** The architectural registers. Widths follow the numpy types the
      constructor gives them. */
  datatype Registers = Registers(
    acc: bv8,      // accumulator
    x: bv8,        // X index
    y: bv8,        // Y index
    stkp: bv8,     // stack pointer
    pc: bv16,      // program counter
    status: bv8    // status register
  )

  datatype Cpu = Cpu(regs: Registers, bus: Option<Bus>)

  /** A new processor: all registers hold zero and no bus is attached. */
  function NewCpu(): (c: Cpu)
    ensures c.bus == None
    ensures c.regs.acc == 0 && c.regs.x == 0 && c.regs.y == 0
    ensures c.regs.stkp == 0 && c.regs.pc == 0 && c.regs.status == 0
  {
    Cpu(Registers(0x00, 0x00, 0x00, 0x00, 0x0000, 0x00), None)
  }

  /** Attaches a bus (replacing any earlier one); registers are untouched. */
  function ConnectBus(c: Cpu, b: Bus): (r: Cpu)
    ensures r.bus == Some(b)
    ensures r.regs == c.regs
  {
    c.(bus := Some(b))
  }

  /** Writes through the attached bus. Without a bus it fails with
      `NoBusConnectedError`; with one it succeeds, fails and changes memory
      exactly as the bus's own `write` does, and never touches a register. */
  function WriteToBus(c: Cpu, address: int, data: Datum): (r: Result<Cpu, Error>)
    ensures c.bus.None? ==> r == Failure(NoBusConnectedError)
    ensures c.bus.Some? ==> (r.Success? <==> Write(c.bus.value, address, data).Success?)
    ensures c.bus.Some? && r.Success? ==> r.value.bus == Some(Write(c.bus.value, address, data).value)
    ensures c.bus.Some? && r.Failure? ==> r.error == Write(c.bus.value, address, data).error
    ensures r.Success? ==> r.value.regs == c.regs
  {
    match c.bus
    case None => Failure(NoBusConnectedError)
    case Some(b) =>
      match Write(b, address, data)
      case Success(b') => Success(c.(bus := Some(b')))
      case Failure(e) => Failure(e)
  }

  /** Reads through the attached bus, always as a side-effecting read
      (read-only flag false). Without a bus it fails with
      `NoBusConnectedError`. */
  function ReadFromBus(c: Cpu, address: Addr16): (r: Result<bv8, Error>)
    ensures r.Failure? <==> c.bus.None?
    ensures r.Failure? ==> r.error == NoBusConnectedError
    ensures c.bus.Some? ==> r.value == Read(c.bus.value, address, false)
  {
    match c.bus
    case None => Failure(NoBusConnectedError)
    case Some(b) => Success(Read(b, address, false))
  }

  /** A processor fresh from construction cannot reach memory at all. */
  lemma NewCpuHasNoBus(address: int, data: Datum, readAddress: Addr16)
    ensures WriteToBus(NewCpu(), address, data) == Failure(NoBusConnectedError)
    ensures ReadFromBus(NewCpu(), readAddress) == Failure(NoBusConnectedError)
  {
  }

  /** Once a bus is connected, reads through the processor see that bus. */
  lemma ConnectThenRead(c: Cpu, b: Bus, address: Addr16)
    ensures ReadFromBus(ConnectBus(c, b), address) == Success(Read(b, address, false))
  {
  }

  /** With a bus attached, a byte written through the processor is read back
      through the processor, every other cell reads as before, and the
      registers are unchanged. */
  lemma CpuWriteThenRead(c: Cpu, address: Addr16, v: bv8)
    requires c.bus.Some?
    ensures WriteToBus(c, address, UInt8(v)).Success?
    ensures ReadFromBus(WriteToBus(c, address, UInt8(v)).value, address) == Success(v)
    ensures forall a: Addr16 :: a != address ==>
      ReadFromBus(WriteToBus(c, address, UInt8(v)).value, a) == ReadFromBus(c, a)
    ensures WriteToBus(c, address, UInt8(v)).value.regs == c.regs
  {
  }
}
