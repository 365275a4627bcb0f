/**
 The vocabulary of the Modbus Application Protocol Specification V1.1b3 that the
 client uses: the four primary data tables (section 4.3) and the six single-point
 operations on them (sections 6.1 to 6.6).
 */
module Modbus {

  /** The four primary tables of the Modbus data model. */
  datatype Table = Coils | DiscreteInputs | InputRegisters | HoldingRegisters

  /** Discrete inputs and coils hold single bits; the two register tables hold 16-bit words. */
  predicate IsBitTable(t: Table) {
    t == Coils || t == DiscreteInputs
  }

  /** Discrete inputs and input registers are provided by the I/O system and cannot be written. */
  predicate IsReadOnly(t: Table) {
    t == DiscreteInputs || t == InputRegisters
  }

  /** Read operations, one per table: Read Coils, function code 0x01 (section 6.1);
      Read Discrete Inputs, 0x02 (6.2); Read Holding Registers, 0x03 (6.3);
      Read Input Registers, 0x04 (6.4). */
  datatype ReadOp = ReadCoils | ReadDiscreteInputs | ReadHoldingRegisters | ReadInputRegisters

  /** Write operations, one per writable table: Write Single Coil, function code 0x05
      (section 6.5); Write Single Register, 0x06 (6.6). */
  datatype WriteOp = WriteCoil | WriteRegister

  /** The table a read operation accesses. */
  function ReadTable(op: ReadOp): Table {
    match op
    case ReadCoils => Coils
    case ReadDiscreteInputs => DiscreteInputs
    case ReadHoldingRegisters => HoldingRegisters
    case ReadInputRegisters => InputRegisters
  }

  /** The table a write operation changes. */
  function WriteTable(op: WriteOp): Table {
    match op
    case WriteCoil => Coils
    case WriteRegister => HoldingRegisters
  }
}
