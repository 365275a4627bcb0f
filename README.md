# Factory I/O Modbus client — a Dafny model

This project models the logic of a small Python Modbus TCP client for the Factory I/O
simulator. The client lets a controller program read and write I/O points by tag name
(`"S_AL1_B"`, `"AL1_Z_SET"`) instead of by raw Modbus address and function code.

It has two parts.

- **Address normalisation and operation resolution** (`src/FMC_functions.py`, module
  `FmcFunctions` in `fmc_functions.dfy`).
  - `extract_addresses` turns textual addresses such as `"Input Reg 11"` into integers.
    It rewrites the list in place: for each slot it removes every occurrence of each
    prefix `"Input Reg "`, `"Holding Reg "`, `"Input "`, `"Coil "`, in that order, and
    then tries `int()`. On failure it leaves the stripped string in the slot.
  - `evaluate_reader` and `evaluate_writer` map a tag's `Type` and `Data Type` strings to
    a Modbus operation, with the fixed unit identifier 1 and length 1. Any other pair
    raises.
  - The operation names are an enum (`Modbus.ReadOp`, `Modbus.WriteOp`, in `modbus.dfy`).
    They are tied to the Modbus data model: the four primary tables of section 4.3 of the
    Modbus Application Protocol Specification V1.1b3, and the function codes of its
    sections 6.1 to 6.6.
- **The tag dispatch façade** (`src/modbusclient.py`, module `ModbusClient` in
  `modbus_client.dfy`).
  - `load_tags` replaces the Address column with what `extract_addresses` makes of it.
  - `read_tag` and `write_tag` look up the first row with the given Name. They resolve
    the operation and make exactly one transport call with the tag's address, length 1
    and unit 1.
  - `write_tag` first checks the value's exact runtime type. A coil takes a `bool`,
    a register takes an `int`, so `True` and `5.2` are refused for a register.

How things are represented:

- The client is a class. `tags` holds the loaded table. `log` records every transport
  call (`Request`) in order. `server` stands for the remote device: its reply to a call
  is a function of the whole call history.
- Every contract of `ReadTag` and `WriteTag` says exactly which request was appended to
  the log, or that nothing was, and what is returned.
- The pure functions `ReadRequestFor` and `WriteRequestFor` give the request or error
  that one call produces. Their contracts state the lookup, the direction and type
  guards, and the request arguments.
- A value passed to `write_tag` is the tagged union `Value = Bool | Int | Float | Other`.
  Python's `type(value) == bool` and `type(value) == int` become exact constructor tests.
- An address slot is `Slot = Text(string) | Number(nat)`, because the Python list holds
  either a string or an integer after the rewrite.

Some behaviours of the code are worth stating on their own:

- `extract_addresses` removes every occurrence of every prefix, wherever it appears,
  in the fixed order. So `"Input Reg"` (no trailing space) becomes `"Reg"`.
- Type and Data Type stay strings in the table. They are checked only when a tag is
  read or written, never at load time.
- Writing to an Input tag raises the same `ValueError("Tag type error")` as an unknown
  type pair, so the model has one `TagTypeError`.
- `read_tag` returns the transport's response as it is; it decodes no bit or register.
- The unit test `test_evaluate_writer_fail1` (test/unit/FMC_functions_test.py:112-124)
  calls `evaluate_reader`, not `evaluate_writer`. The writer's refusal of Input tags
  comes from src/FMC_functions.py:90-98.

## Model

| member | source | states |
|---|---|---|
| `FmcFunctions.NormalizedAddress` | src/FMC_functions.py:27-33 | What one slot becomes. It stays text only when the stripped string is not a numeral, and that text is never longer than the address. It becomes an integer only when the stripped string parses to exactly that integer. |
| `FmcFunctions.StripPrefixes` | src/FMC_functions.py:27-28 | The removals applied in turn for each prefix never lengthen the address; with no prefixes the address is unchanged. |
| `FmcFunctions.ParseInt` | src/FMC_functions.py:31 | `int()` on the stripped string succeeds exactly when the string is non-empty and made of decimal digits only. |
| `FmcFunctions.ExtractAddresses` | src/FMC_functions.py:4-36 | Returns the very array it was given. Every slot is rewritten from its own original text alone: the prefixes are stripped in order, and the slot becomes the integer when the rest is a numeral, otherwise the stripped string. Every other slot is unaffected, and no input makes it fail. |
| `FmcFunctions.RemoveAll` | src/FMC_functions.py:28 | Python's `str.replace(prefix, "")` as leftmost non-overlapping removal; the result is never longer than the input. |
| `FmcFunctions.RemoveAllSpaceFree` | src/FMC_functions.py:28 | Removing a pattern that ends in a space leaves a string without spaces unchanged. |
| `FmcFunctions.RemoveAllKeepsSuffix` | src/FMC_functions.py:28 | Removing a pattern that ends in a space acts on `x + d` as on `x` alone when `d` has no space: no match can reach into `d`. |
| `FmcFunctions.RemoveAllMissingFirst` | src/FMC_functions.py:28 | A pattern whose first character does not occur in the string is not found, and the string is returned unchanged. |
| `FmcFunctions.StripAddressPrefixes` | src/FMC_functions.py:22-28 | Folding over the prefix list is exactly the four removals in the order `"Input Reg "`, `"Holding Reg "`, `"Input "`, `"Coil "`. |
| `FmcFunctions.BarePrefixVanishes` | src/FMC_functions.py:19-28 | Each of the four prefixes alone is removed entirely by the four removals. `"Holding Reg "` contains no `"Input Reg "`, and `"Input Reg "` is removed before `"Input "` can leave a `"Reg "`. |
| `FmcFunctions.PrefixPrecedence` | src/FMC_functions.py:19-28 | Prefix precedence: each prefix followed by any space-free remainder strips to exactly that remainder, so `"Input Reg " + d` yields `d`, not `"Reg " + d`. |
| `FmcFunctions.ParseDecimalString` | src/FMC_functions.py:30-31 | The digits-only `int()` conversion inverts decimal printing: it gives back `n` for the numeral of `n`. |
| `FmcFunctions.PrintParsedNumeral` | src/FMC_functions.py:30-31 | The other direction of the round trip: a numeral without leading zeros is exactly the decimal printing of the integer `int()` reads from it. |
| `FmcFunctions.PrefixedNumeral` | src/FMC_functions.py:22-31 | Any of the four prefixes followed by the numeral of `n` normalises to the integer `n`. |
| `FmcFunctions.ExtractAddressesExample` | test/unit/FMC_functions_test.py:8-12 | `"Input 0"`, `"Coil 6"`, `"Holding Reg 17"` and `"Input Reg 80"` become 0, 6, 17 and 80. |
| `FmcFunctions.HoldingWithoutSpaceKept` | src/FMC_functions.py:22-28 | `"Holding "` followed by a space-free remainder matches none of the four prefixes and is kept whole. |
| `FmcFunctions.UnmatchedAddressExample` | test/unit/FMC_functions_test.py:14-16 | `"Holding Reg17"` does not fail; it stays the string `"Holding Reg17"`. |
| `FmcFunctions.InvalidAddressesExample` | test/unit/FMC_functions_test.py:14-16 | `"Input p"`, `"Coil a"` and `"Input Reg"` do not fail; they keep the stripped strings `"p"`, `"a"` and `"Reg"`. |
| `FmcFunctions.EvaluateReader` | src/FMC_functions.py:38-74 | Succeeds exactly for Type in {Input, Output} and Data Type in {Bool, Real}, always with unit 1 and length 1. The operation reads a bit table exactly for Bool and a read-only table exactly for Input. These two facts fix the operation: discrete inputs, coils, input registers or holding registers. |
| `FmcFunctions.EvaluateWriter` | src/FMC_functions.py:76-104 | Succeeds exactly for Type Output with Data Type Bool or Real, with unit 1. It always writes a writable table, and a bit table (the coils) exactly for Bool; every Input tag is refused. |
| `FmcFunctions.EvaluateReaderTable` | test/unit/FMC_functions_test.py:20-83 | The four reader cases of the unit tests, and the refusal of an empty Type. |
| `FmcFunctions.EvaluateWriterTable` | test/unit/FMC_functions_test.py:87-110 | The two writer cases of the unit tests, and the refusal of every Input tag. |
| `FmcFunctions.WrittenTableIsReadBack` | src/FMC_functions.py:50-104 | Every pair the writer accepts is also accepted by the reader. The reader then reads the very table the writer writes: coils for Bool, holding registers for Real. |
| `ModbusClient.FindTag` | src/modbusclient.py:58-61 | Gives the index of the first row whose Name equals the name. It gives nothing exactly when no row has that name. |
| `ModbusClient.ReadRequestFor` | src/modbusclient.py:57-66 | An absent name, and only that, gives `NoSuchTag`. Otherwise, for the first matching row, the call fails with `TagTypeError` exactly when `evaluate_reader` refuses its Type and Data Type. When it succeeds, the request is that reader's operation at the row's address, with length 1 and unit 1. |
| `ModbusClient.WriteRequestFor` | src/modbusclient.py:82-104 | An absent name, and only that, gives `NoSuchTag`. A row whose Type and Data Type `evaluate_writer` refuses (every non-Output row among them) gives `TagTypeError`. A Bool tag with a value that is not exactly a bool gives a `'bool'` mismatch. A Real tag with a value that is not exactly an int gives an `'int'` mismatch, so bools and floats are refused. The call succeeds exactly otherwise, as one coil write (for a bool) or register write (for an int) at the row's address, with the caller's value unchanged and unit 1. |
| `ModbusClient.RequestsAreSinglePoint` | src/modbusclient.py:63-104 | Every request the client sends is single-point at unit 1. A read asks for length 1, and a write carries exactly the caller's value. |
| `ModbusClient.WriteThenReadSameTable` | src/modbusclient.py:59-104 | A tag that can be written can also be read. The read goes to the same address and the same Modbus table as the write. |
| `ModbusClient.FactoryIOModbusClient.constructor` | src/modbusclient.py:10-24 | The table holds one row per loaded row: Name, Type and Data Type as loaded, and the normalised Address. No transport call has been made. |
| `ModbusClient.FactoryIOModbusClient.LoadTags` | src/modbusclient.py:26-41 | Only the Address column is replaced, by the `extract_addresses` result; Name, Type and Data Type stay as loaded, row for row. |
| `ModbusClient.FactoryIOModbusClient.Transmit` | src/modbusclient.py:66 | One transport call: it is appended to the log, and the reply is the server's answer to the history so far. |
| `ModbusClient.FactoryIOModbusClient.ReadTag` | src/modbusclient.py:43-66 | On an error (absent name, unsupported type) nothing is sent and the error is returned. Otherwise exactly the one request `ReadRequestFor` gives is logged, and its response is returned unchanged. The table never changes. |
| `ModbusClient.FactoryIOModbusClient.WriteTag` | src/modbusclient.py:68-104 | On an error (absent name, Input or unsupported tag, wrong value type) nothing is sent. Otherwise exactly the one write `WriteRequestFor` gives is logged, and its response is returned. |
| `ModbusClient.MockTagsLoad` | test/integration/modbusclient_test.py:50-59 | Loading the integration test's five rows gives addresses 0, 54, 187, 11 and 2; the other columns are unchanged. |
| `ModbusClient.MockTableMatches` | test/integration/modbusclient_test.py:50-59 | In the integration test's table, each of the four tags used is found at its own row and `"TAG_NOT_PRESENT"` at none. |
| `ModbusClient.ReadTagScenario` | test/integration/modbusclient_test.py:63-126 | The four integration reads give the expected operation, address, length 1 and unit 1. `"TAG_NOT_PRESENT"` gives `NoSuchTag`. |
| `ModbusClient.WriteTagScenario` | test/integration/modbusclient_test.py:131-181 | The two accepted integration writes give the expected requests. The int 5 for the coil `AL2_ST_GRAB` is refused with a `'bool'` mismatch, and `True` for the Input tag `S_AL1_B` with `TagTypeError`. `False` and `5.2` for the register `AL1_Z_SET` are refused with an `'int'` mismatch. The general rule is stated by `WriteRequestFor`. |
| `ModbusClient.ReadScenario` | test/integration/modbusclient_test.py:108-126 | On a fresh mock client, reading `AL1_Z_SET` sends exactly one holding-register read at address 2, length 1, unit 1, and returns the server's answer. Reading `"TAG_NOT_PRESENT"` then fails with `NoSuchTag` and sends nothing. |
| `ModbusClient.WriteScenario` | test/integration/modbusclient_test.py:147-171 | On a fresh mock client, writing `True` to the Input tag `S_AL1_B` fails with `TagTypeError` and sends nothing. Writing `True` to `AL2_ST_GRAB` then sends exactly one coil write at address 54 with the value `True` and unit 1, and returns the server's answer. |
| `ModbusClient.MockClient` | test/integration/modbusclient_test.py:35-38 | A fresh client over the mock tags file has the mock table and an empty call log. |

## Left out

- Fault injection (`read_fault`, `write_fault`, `fault_tags`). The integration tests and the sample controller use it, but the modelled `src/modbusclient.py` does not define it.
- Reading the CSV file through pandas. The model starts from the rows already read (`RawRow`) and models only the Address rewrite applied to them.
- The pymodbus `ModbusTcpClient` superclass. This covers its constructor (host, port), `connect`, the wire and PDU encoding, and the decoding of responses. The transport is the call log plus an opaque `server` function; `Response` is a type parameter about which nothing is assumed.
- Transport exceptions. A failing transport call would propagate from `read_tag`/`write_tag` unchanged; the model's `server` always answers.
- Changes of the simulated plant that do not depend on the client. `server` sees only the history of requests, so replies are a function of that history.
- The dispatch by building a method name and calling `eval` on it. It is replaced by the `ReadOp`/`WriteOp` enum carried in each `Request`, with the same mapping.
- `logging.warning` in `extract_addresses`. It has no effect beyond being non-fatal.
- FmcFunctions.ParseInt: models Python's `int()` only for plain ASCII decimal numerals. Python also accepts surrounding whitespace, a sign, underscores between digits and non-ASCII digits. So `"Input  5"` (two spaces) and `"Input -1"` stay text in the model, but Python converts them to 5 and -1.
- FmcFunctions.ExtractAddresses: requires every slot to be a string, as the docstring's "list of textual addresses" says. A non-string element would make Python's `.replace` raise part-way through the list, and that is not modelled. The list or pandas Series is taken to be indexed 0, 1, 2, ….
- FmcFunctions.RemoveAll: requires a non-empty pattern. Python's behaviour for an empty pattern (inserting between characters) is never used here, since all four prefixes are non-empty.
- The `except:` around the tag lookup catches any exception. Only the empty selection (an absent name) is modelled; names are strings and table cells are never missing.
- `Value.Float` carries a Dafny `real`, not an IEEE double. No float is ever accepted or sent, so its payload plays no role.
- The sample programs (`sample/dummy/dummy_controller.py`, `sample/demo_client.py`). They use a background thread, `time.sleep`, an infinite control loop, and library response decoding.
