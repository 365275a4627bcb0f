/**
 The tag dispatch façade (src/modbusclient.py): a Modbus TCP client that holds the
 Factory I/O tag table, looks tags up by name, checks the value to be written
 against the tag's kind and issues exactly one single-point Modbus request.
 */
module ModbusClient {
  import opened Wrappers
  import opened Modbus
  import opened FmcFunctions

  /** A row of the tags file as it is read, before the Address column is cleaned. */
  datatype RawRow = RawRow(name: string, typ: string, dataType: string, address: string)

  /** A row of the loaded tag table: Name, Type, Data Type and the cleaned Address. */
  datatype Tag = Tag(name: string, typ: string, dataType: string, address: Slot)

  /** A Python value handed to `write_tag`, tagged by its exact runtime type. */
  datatype Value = Bool(b: bool) | Int(i: int) | Float(f: real) | Other(typeName: string)

  /** One call into the Modbus transport, with the arguments it is given. */
  datatype Request =
    | ReadRequest(readOp: ReadOp, address: Slot, length: nat, unit: nat)
    | WriteRequest(writeOp: WriteOp, address: Slot, value: Value, unit: nat)

  /** The ValueErrors that `read_tag` and `write_tag` raise. */
  datatype Error =
    | NoSuchTag(name: string)                         // "No tag with specified tag name"
    | TagTypeError                                    // from evaluate_reader / evaluate_writer
    | ValueTypeMismatch(required: string, supplied: Value)  // "'bool' required" / "'int' required"

  /** Row `i` is the first row of `tags` named `name`. */
  predicate IsFirstMatch(tags: seq<Tag>, name: string, i: int) {
    0 <= i < |tags| && tags[i].name == name && forall j :: 0 <= j < i ==> tags[j].name != name
  }

  /** `self.tags[self.tags["Name"] == name].iloc[0]`: the index of the first row named `name`,
      or `None` where `iloc[0]` raises on an empty selection. */
  function FindTag(tags: seq<Tag>, name: string): (r: Option<nat>)
    ensures r.Some? ==> IsFirstMatch(tags, name, r.value)
    ensures r.None? <==> forall j :: 0 <= j < |tags| ==> tags[j].name != name
  {
    if tags == [] then None
    else if tags[0].name == name then Some(0)
    else match FindTag(tags[1..], name)
      case Some(i) => Some(i + 1)
      case None => None
  }

  /** The single request `read_tag(name)` sends, or the error it raises before sending anything. */
  function ReadRequestFor(tags: seq<Tag>, name: string): (r: Result<Request, Error>)
    ensures r == Err(NoSuchTag(name)) <==> forall j :: 0 <= j < |tags| ==> tags[j].name != name
    ensures forall i :: IsFirstMatch(tags, name, i) ==>
      (r.Ok? <==> EvaluateReader(tags[i].typ, tags[i].dataType).Some?) &&
      (r.Err? ==> r.error == TagTypeError) &&
      (r.Ok? ==> r.value == ReadRequest(EvaluateReader(tags[i].typ, tags[i].dataType).value.readType,
                                         tags[i].address, 1, 1))
  {
    match FindTag(tags, name)
    case None => Err(NoSuchTag(name))
    case Some(i) =>
      var tag := tags[i];
      match EvaluateReader(tag.typ, tag.dataType)
      case None => Err(TagTypeError)
      case Some(reader) => Ok(ReadRequest(reader.readType, tag.address, reader.length, reader.unit))
  }

  /** The single request `write_tag(name, value)` sends, or the error it raises before sending anything.
      Only Output tags are writable; coils take exactly a bool, registers exactly an int. */
  function WriteRequestFor(tags: seq<Tag>, name: string, value: Value): (r: Result<Request, Error>)
    ensures r == Err(NoSuchTag(name)) <==> forall j :: 0 <= j < |tags| ==> tags[j].name != name
    ensures forall i :: IsFirstMatch(tags, name, i) ==>
      (r.Ok? <==> tags[i].typ == "Output" &&
                  ((tags[i].dataType == "Bool" && value.Bool?) || (tags[i].dataType == "Real" && value.Int?)))
    ensures forall i :: IsFirstMatch(tags, name, i) && EvaluateWriter(tags[i].typ, tags[i].dataType).None? ==>
      r == Err(TagTypeError)
    ensures forall i :: IsFirstMatch(tags, name, i) && tags[i].typ == "Output" ==>
      (tags[i].dataType == "Bool" && !value.Bool? ==> r == Err(ValueTypeMismatch("bool", value))) &&
      (tags[i].dataType == "Real" && !value.Int? ==> r == Err(ValueTypeMismatch("int", value)))
    ensures forall i :: IsFirstMatch(tags, name, i) && r.Ok? ==>
      r.value == WriteRequest(if value.Bool? then WriteCoil else WriteRegister, tags[i].address, value, 1)
  {
    match FindTag(tags, name)
    case None => Err(NoSuchTag(name))
    case Some(i) =>
      var tag := tags[i];
      match EvaluateWriter(tag.typ, tag.dataType)
      case None => Err(TagTypeError)
      case Some(writer) =>
        if writer.writeType == WriteCoil && !value.Bool? then Err(ValueTypeMismatch("bool", value))
        else if writer.writeType == WriteRegister && !value.Int? then Err(ValueTypeMismatch("int", value))
        else Ok(WriteRequest(writer.writeType, tag.address, value, writer.unit))
  }

  /** Every request the client sends names one point at unit 1, and a read asks for one point. */
  lemma RequestsAreSinglePoint(tags: seq<Tag>, name: string, value: Value)
    ensures ReadRequestFor(tags, name).Ok? ==>
      var q := ReadRequestFor(tags, name).value; q.ReadRequest? && q.length == 1 && q.unit == 1
    ensures WriteRequestFor(tags, name, value).Ok? ==>
      var q := WriteRequestFor(tags, name, value).value; q.WriteRequest? && q.unit == 1 && q.value == value
  {
  }

  /** A tag that can be written is read back from the table the write changed. */
  lemma WriteThenReadSameTable(tags: seq<Tag>, name: string, value: Value)
    requires WriteRequestFor(tags, name, value).Ok?
    ensures ReadRequestFor(tags, name).Ok?
    ensures ReadTable(ReadRequestFor(tags, name).value.readOp) ==
            WriteTable(WriteRequestFor(tags, name, value).value.writeOp)
    ensures ReadRequestFor(tags, name).value.address == WriteRequestFor(tags, name, value).value.address
  {
  }

  /**
   The client. `tags` is the loaded table; `log` records every call made into the
   Modbus transport, in order; `server` stands for the remote device, whose reply
   to a call may depend on every call made so far.
   */
  class FactoryIOModbusClient<Response> {
    var tags: seq<Tag>
    var log: seq<Request>
    const server: seq<Request> -> Response

    /** Loads the tag table from its rows; the transport has not been used yet. */
    constructor (rows: seq<RawRow>, server: seq<Request> -> Response)
      ensures |tags| == |rows|
      ensures forall i :: 0 <= i < |rows| ==>
        tags[i] == Tag(rows[i].name, rows[i].typ, rows[i].dataType, NormalizedAddress(rows[i].address))
      ensures log == [] && this.server == server
    {
      var table := FactoryIOModbusClient<Response>.LoadTags(rows);
      tags := table;
      log := [];
      this.server := server;
    }

    /** `load_tags`, after the file has been read into `rows`: the Address column is replaced
        by what `extract_addresses` makes of it; Name, Type and Data Type stay as loaded. */
    static method LoadTags(rows: seq<RawRow>) returns (table: seq<Tag>)
      ensures |table| == |rows|
      ensures forall i :: 0 <= i < |rows| ==>
        table[i].name == rows[i].name && table[i].typ == rows[i].typ &&
        table[i].dataType == rows[i].dataType && table[i].address == NormalizedAddress(rows[i].address)
    {
      var column := new Slot[|rows|](i requires 0 <= i < |rows| => Text(rows[i].address));
      var clean := ExtractAddresses(column);
      var addresses := clean[..];
      table := seq(|rows|, i requires 0 <= i < |rows| =>
        Tag(rows[i].name, rows[i].typ, rows[i].dataType, addresses[i]));
    }

    /** One call into the transport: it is logged and answered by the server. */
    method Transmit(request: Request) returns (response: Response)
      modifies this`log
      ensures log == old(log) + [request]
      ensures response == server(log)
    {
      log := log + [request];
      response := server(log);
    }

    /** `read_tag`: looks the tag up, resolves its read operation and performs exactly that
        one read, returning the transport's response unchanged; on an error nothing is sent. */
    method ReadTag(name: string) returns (r: Result<Response, Error>)
      modifies this`log
      ensures match ReadRequestFor(tags, name)
        case Err(e) => r == Err(e) && log == old(log)
        case Ok(request) => log == old(log) + [request] && r == Ok(server(log))
    {
      var found := FindTag(tags, name);
      if found.None? {
        return Err(NoSuchTag(name));
      }
      var tag := tags[found.value];
      var reader := EvaluateReader(tag.typ, tag.dataType);
      if reader.None? {
        return Err(TagTypeError);
      }
      var response := Transmit(ReadRequest(reader.value.readType, tag.address, reader.value.length, reader.value.unit));
      return Ok(response);
    }

    /** `write_tag`: looks the tag up, resolves its write operation, checks the exact type of
        `value` and performs exactly that one write with `value` unchanged; on an error
        nothing is sent. */
    method WriteTag(name: string, value: Value) returns (r: Result<Response, Error>)
      modifies this`log
      ensures match WriteRequestFor(tags, name, value)
        case Err(e) => r == Err(e) && log == old(log)
        case Ok(request) => log == old(log) + [request] && r == Ok(server(log))
    {
      var found := FindTag(tags, name);
      if found.None? {
        return Err(NoSuchTag(name));
      }
      var tag := tags[found.value];
      var writer := EvaluateWriter(tag.typ, tag.dataType);
      if writer.None? {
        return Err(TagTypeError);
      }
      if writer.value.writeType == WriteCoil && !value.Bool? {
        return Err(ValueTypeMismatch("bool", value));
      }
      if writer.value.writeType == WriteRegister && !value.Int? {
        return Err(ValueTypeMismatch("int", value));
      }
      var response := Transmit(WriteRequest(writer.value.writeType, tag.address, value, writer.value.unit));
      return Ok(response);
    }
  }

  // ---------------------------------------------------------------------------
  // The integration test's tag table
  // ---------------------------------------------------------------------------

  /** The rows of the mock tags file. */
  const MockRows: seq<RawRow> := [
    RawRow("S_AL1_B", "Input", "Bool", "Input 0"),
    RawRow("AL2_ST_GRAB", "Output", "Bool", "Coil 54"),
    RawRow("Machining Center 3 (Reset)", "Output", "Bool", "Coil 187"),
    RawRow("AL2_ST_Z_POS", "Input", "Real", "Input Reg 11"),
    RawRow("AL1_Z_SET", "Output", "Real", "Holding Reg 2")
  ]

  /** The table loaded from `MockRows`. */
  const MockTable: seq<Tag> := [
    Tag("S_AL1_B", "Input", "Bool", Number(0)),
    Tag("AL2_ST_GRAB", "Output", "Bool", Number(54)),
    Tag("Machining Center 3 (Reset)", "Output", "Bool", Number(187)),
    Tag("AL2_ST_Z_POS", "Input", "Real", Number(11)),
    Tag("AL1_Z_SET", "Output", "Real", Number(2))
  ]

  /** Loading the mock rows gives the mock table: e.g. the third address becomes 187. */
  lemma MockTagsLoad()
    ensures |MockTable| == |MockRows|
    ensures forall i :: 0 <= i < |MockRows| ==>
      MockTable[i] == Tag(MockRows[i].name, MockRows[i].typ, MockRows[i].dataType, NormalizedAddress(MockRows[i].address))
  {
    PrefixedNumeral("Input ", 0);
    assert "Input " + DecimalString(0) == "Input 0";
    PrefixedNumeral("Coil ", 54);
    assert DecimalString(54) == DecimalString(5) + "4";
    assert "Coil " + DecimalString(54) == "Coil 54";
    PrefixedNumeral("Coil ", 187);
    assert DecimalString(187) == DecimalString(1) + "8" + "7";
    assert "Coil " + DecimalString(187) == "Coil 187";
    PrefixedNumeral("Input Reg ", 11);
    assert DecimalString(11) == DecimalString(1) + "1";
    assert "Input Reg " + DecimalString(11) == "Input Reg 11";
    PrefixedNumeral("Holding Reg ", 2);
    assert "Holding Reg " + DecimalString(2) == "Holding Reg 2";
  }

  /** Where each name of the mock table is found; an absent name matches no row. */
  lemma MockTableMatches()
    ensures IsFirstMatch(MockTable, "S_AL1_B", 0)
    ensures IsFirstMatch(MockTable, "AL2_ST_GRAB", 1)
    ensures IsFirstMatch(MockTable, "AL2_ST_Z_POS", 3)
    ensures IsFirstMatch(MockTable, "AL1_Z_SET", 4)
    ensures forall j :: 0 <= j < |MockTable| ==> MockTable[j].name != "TAG_NOT_PRESENT"
  {
    assert |MockTable[0].name| == 7 && |MockTable[1].name| == 11 && |MockTable[2].name| == 26;
    assert |MockTable[3].name| == 12 && |MockTable[4].name| == 9;
  }

  /** The reads of the integration test, and the read of an absent tag. */
  lemma ReadTagScenario()
    ensures ReadRequestFor(MockTable, "S_AL1_B") == Ok(ReadRequest(ReadDiscreteInputs, Number(0), 1, 1))
    ensures ReadRequestFor(MockTable, "AL2_ST_GRAB") == Ok(ReadRequest(ReadCoils, Number(54), 1, 1))
    ensures ReadRequestFor(MockTable, "AL2_ST_Z_POS") == Ok(ReadRequest(ReadInputRegisters, Number(11), 1, 1))
    ensures ReadRequestFor(MockTable, "AL1_Z_SET") == Ok(ReadRequest(ReadHoldingRegisters, Number(2), 1, 1))
    ensures ReadRequestFor(MockTable, "TAG_NOT_PRESENT") == Err(NoSuchTag("TAG_NOT_PRESENT"))
  {
    MockTableMatches();
  }

  /** The writes of the integration test: two accepted, four rejected. */
  lemma WriteTagScenario()
    ensures WriteRequestFor(MockTable, "AL1_Z_SET", Int(5)) == Ok(WriteRequest(WriteRegister, Number(2), Int(5), 1))
    ensures WriteRequestFor(MockTable, "AL2_ST_GRAB", Bool(true)) == Ok(WriteRequest(WriteCoil, Number(54), Bool(true), 1))
    ensures WriteRequestFor(MockTable, "AL2_ST_GRAB", Int(5)) == Err(ValueTypeMismatch("bool", Int(5)))
    ensures WriteRequestFor(MockTable, "S_AL1_B", Bool(true)) == Err(TagTypeError)
    ensures WriteRequestFor(MockTable, "AL1_Z_SET", Bool(false)) == Err(ValueTypeMismatch("int", Bool(false)))
    ensures WriteRequestFor(MockTable, "AL1_Z_SET", Float(5.2)) == Err(ValueTypeMismatch("int", Float(5.2)))
  {
    MockTableMatches();
  }

  /** A fresh client over the mock tags file. */
  method MockClient<Response>(server: seq<Request> -> Response) returns (client: FactoryIOModbusClient<Response>)
    ensures fresh(client) && client.tags == MockTable && client.log == [] && client.server == server
  {
    client := new FactoryIOModbusClient(MockRows, server);
    MockTagsLoad();
    assert client.tags == MockTable;
  }

  /** A read reaches the transport once and returns its answer; the read of an absent tag
      sends nothing. */
  method ReadScenario<Response>(server: seq<Request> -> Response)
    returns (read: Result<Response, Error>, missing: Result<Response, Error>, log: seq<Request>)
    ensures log == [ReadRequest(ReadHoldingRegisters, Number(2), 1, 1)]
    ensures read == Ok(server(log))
    ensures missing == Err(NoSuchTag("TAG_NOT_PRESENT"))
  {
    var client := MockClient(server);
    ReadTagScenario();
    read := client.ReadTag("AL1_Z_SET");
    missing := client.ReadTag("TAG_NOT_PRESENT");
    log := client.log;
  }

  /** A rejected write sends nothing; an accepted write sends one coil write with the caller's value. */
  method WriteScenario<Response>(server: seq<Request> -> Response)
    returns (rejected: Result<Response, Error>, written: Result<Response, Error>, log: seq<Request>)
    ensures rejected == Err(TagTypeError)
    ensures log == [WriteRequest(WriteCoil, Number(54), Bool(true), 1)]
    ensures written == Ok(server(log))
  {
    var client := MockClient(server);
    WriteTagScenario();
    rejected := client.WriteTag("S_AL1_B", Bool(true));
    written := client.WriteTag("AL2_ST_GRAB", Bool(true));
    log := client.log;
  }
}
