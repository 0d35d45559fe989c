# PyNES core: memory bus, processor shell and address masks

A Dafny model of the parts of the PyNES emulator core that contain logic:

- **Memory bus** (`nes_core/bus.py`, module `MemoryBus`): a 64 KiB store of
  bytes, zero on construction. `write` checks the address range first and the
  datum's type second, each failure raising its own exception; `read` is total
  over 16-bit addresses and ignores its read-only flag.
- **Processor shell** (`nes_core/cpu.py`, module `Processor`): six registers
  and an optional bus. `connect_bus` attaches a bus; `write_to_bus` and
  `read_from_bus` raise `NoBusConnectedError` when no bus is attached and
  otherwise hand the call to the bus.
- **Address masks** (`nes_core/address.py`, modules `AddressMasks` and
  `Bits`): a value with an optional map from field names to bit masks. An
  attribute lookup by a name in the map returns `value & mask`; any other name
  returns `None`.

Objects become immutable values. A mutating call returns the new state, and
a raised exception becomes a `Failure` of the `Result` type (`Wrappers`),
carrying an `Exceptions.Error`. A failed call returns no new state, so the
caller's old bus or processor is the state after the exception. Bytes are
`bv8` and registers have their numpy widths. The `isinstance(data, uint8)`
test becomes a tag on the datum (`MemoryBus.Datum`). Python's `&` on unbounded
integers is `Bits.And`. `Bits.AndBit` characterises it bit by bit, where
`Bits.Bit(x, i)` is Python's `(x >> i) & 1`.

The processor's registers are those the code sets, not the 6502's power-on
state. On the 6502 the stack pointer starts at 0xFD and the status register
has the interrupt-disable and unused flags set. `nes_core/cpu.py:14` and
`nes_core/cpu.py:16` set both to 0, and the model follows the code.

## Model

| member | source | states |
|---|---|---|
| MemoryBus.NewBus | nes_core/bus.py:10-11 | a new bus has exactly 65536 cells, and every address reads zero |
| MemoryBus.Read | nes_core/bus.py:30-31 | a read returns the byte held in that cell of the store; the read-only flag defaults to false and changes nothing (ReadIgnoresReadOnly); after a write the written byte reads back (ReadAfterWrite) and other cells read as before (Write) |
| MemoryBus.AddressInRange | nes_core/bus.py:15-19 | the guard accepts an address iff it is an index of the 64 KiB store, 0x0000 to 0xFFFF |
| MemoryBus.Write | nes_core/bus.py:21-28 | an out-of-range address raises AddressOutOfBoundsError; an in-range address with a non-uint8 datum raises TypeError; otherwise it succeeds; the written byte reads back and every other cell is unchanged |
| MemoryBus.BoundsErrorPrecedesTypeError | nes_core/bus.py:21-28 | an out-of-range address with a bad datum raises the bounds error, not the type error |
| MemoryBus.ReadIgnoresReadOnly | nes_core/bus.py:30-31 | a read returns the same byte whatever its read-only flag |
| MemoryBus.ReadAfterWrite | nes_core/bus.py:21-31 | writing a uint8 to any 16-bit address succeeds, and reading that address returns the byte |
| MemoryBus.WriteOverwrites | nes_core/bus.py:24 | a second write to an address replaces the first |
| MemoryBus.WritesCommute | nes_core/bus.py:24 | writes to two different addresses give the same bus in either order |
| Processor.NewCpu | nes_core/cpu.py:8-17 | a new processor has accumulator, X, Y, stack pointer, program counter and status at zero and no bus |
| Processor.ConnectBus | nes_core/cpu.py:24-25 | connecting sets the bus and leaves every register unchanged |
| Processor.WriteToBus | nes_core/cpu.py:27-31 | with no bus it raises NoBusConnectedError; with a bus it succeeds or fails with the same error as the bus's write, stores that write's result, and leaves the registers unchanged |
| Processor.ReadFromBus | nes_core/cpu.py:33-37 | it fails exactly when no bus is attached, with NoBusConnectedError; otherwise it returns the bus's read with the read-only flag false |
| Processor.NewCpuHasNoBus | nes_core/cpu.py:27-37 | on a new processor, every write and every read fails with NoBusConnectedError |
| Processor.ConnectThenRead | nes_core/cpu.py:24-35 | after connecting a bus, reads through the processor return that bus's bytes |
| Processor.CpuWriteThenRead | nes_core/cpu.py:27-35 | with a bus attached, a uint8 written through the processor reads back through it, other cells read as before, and the registers are unchanged |
| Bits.And | nes_core/address.py:11 | the AND of two integers is non-negative when either operand is |
| Bits.AndBit | nes_core/address.py:11 | each bit of the AND is set iff it is set in both operands, so `And` is Python's `&` |
| Bits.AndAtMostOperands | nes_core/address.py:11 | the AND is at most each non-negative operand |
| Bits.AndMaskIdempotent | nes_core/address.py:11 | masking twice with the same mask equals masking once |
| AddressMasks.NewAddress | nes_core/address.py:2-4 | construction stores the given value and mapping; the mapping defaults to none |
| AddressMasks.NewAddressThenGetAttr | nes_core/address.py:2-11 | a lookup on a newly constructed address gives the given value ANDed with the given mask for that name, or nothing |
| AddressMasks.SetMapping | nes_core/address.py:6-7 | the mapping is replaced and the value kept |
| AddressMasks.GetAttr | nes_core/address.py:9-11 | a name gives a result iff it is in the mapping. Each bit of the result is the AND of the value's bit and the mask's bit. Masking the result again changes nothing. The result lies between zero and the value when the value is non-negative, and between zero and the mask when the mask is non-negative |
| AddressMasks.SetMappingThenGetAttr | nes_core/address.py:6-11 | after replacing the mapping, a lookup gives the old value ANDed with the new mask for that name, or nothing |

## Left out

- `main.py`: argument parsing, ROM file reading and printing hold no logic to model.
- `CPU.process_instruction` (`nes_core/cpu.py:20-22`): a stub that only prints.
- `CPU.registers` and `CPU.operation` (`nes_core/cpu.py:10`, `nes_core/cpu.py:18`): unused placeholders. The second is an object from a foreign bit-string library.
- 6502 instruction semantics are not in the code. This covers opcode dispatch, addressing modes, cycle counting, status flags, the stack and interrupts.
- The exceptions module is not part of this model. The two exceptions the core imports from it (`nes_core/bus.py:4`, `nes_core/cpu.py:2`) and Python's `TypeError` are constructors of `Exceptions.Error`.
- MemoryBus.Read: the address is a 16-bit value, the type `read` is annotated with. Python's list indexing also accepts negative indexes counting from the end, and it raises `IndexError` past the end. Neither is modelled.
- Processor.ReadFromBus: the address is a 16-bit value, as for `MemoryBus.Read`.
- A bus is a shared mutable object in Python, so a write through one holder is visible to every other holder. The model passes the bus as a value, and the processor's copy is the one updated.
- The numpy `uint8` and `uint16` wrap-around is never reached by the modelled code. Addresses given to `write` are plain integers, so the range check can fail.
- AddressMasks.GetAttr: requires a mapping. With no mapping, Python raises a `TypeError` from the `in` test.
- AddressMasks.GetAttr: Python calls `__getattr__` only for names not found in the ordinary way. So `address`, `mapping`, `set_mapping` and the special methods never reach the mapping. The model treats every name as a lookup in the mapping.
- Values and masks are integers. Python also allows other objects that support `&`, and a mapping may be any container.
- The bus tests construct `Bus(cpu)`, but `Bus.__init__` takes no argument (`nes_core/tests/test_bus.py:9`). The tests count only as evidence for the store's size and its zeroes.
