/**
 Address normalisation and operation resolution for Factory I/O tags
 (src/FMC_functions.py): textual addresses such as "Input Reg 11" are reduced to
 their numerals, and a tag's Type and Data Type pick the Modbus operation used
 to read or write it.
 */
module FmcFunctions {
  import opened Wrappers
  import opened Modbus

  // ---------------------------------------------------------------------------
  // Address normalisation
  // ---------------------------------------------------------------------------

  /** One slot of the address column: still a string, or already converted to an integer. */
  datatype Slot = Text(text: string) | Number(value: nat)

  /** The descriptive prefixes, in the order they are removed: "Input Reg " must come
      before "Input " so that no "Reg " is left behind. */
  const AddressPrefixes: seq<string> := ["Input Reg ", "Holding Reg ", "Input ", "Coil "]

  /** `s.replace(pat, "")`: every leftmost, non-overlapping occurrence of `pat` is removed. */
  function RemoveAll(s: string, pat: string): (r: string)
    requires pat != []
    ensures |r| <= |s|
    decreases |s|
  {
    if |s| < |pat| then s
    else if s[..|pat|] == pat then RemoveAll(s[|pat|..], pat)
    else [s[0]] + RemoveAll(s[1..], pat)
  }

  /** The result of applying `RemoveAll` for each of `prefixes`, first to last. */
  function StripPrefixes(s: string, prefixes: seq<string>): (r: string)
    requires forall i :: 0 <= i < |prefixes| ==> prefixes[i] != []
    ensures |r| <= |s|
    ensures prefixes == [] ==> r == s
  {
    if prefixes == [] then s
    else RemoveAll(StripPrefixes(s, prefixes[..|prefixes| - 1]), prefixes[|prefixes| - 1])
  }

  predicate IsDigit(c: char) {
    '0' <= c <= '9'
  }

  predicate AllDigits(s: string) {
    forall i :: 0 <= i < |s| ==> IsDigit(s[i])
  }

  /** The value of a string of decimal digits, most significant first. */
  function DigitsValue(s: string): nat
    requires AllDigits(s)
  {
    if s == [] then 0
    else DigitsValue(s[..|s| - 1]) * 10 + (s[|s| - 1] as int - '0' as int)
  }

  /** `int(s)` restricted to plain decimal numerals: `None` where the conversion raises. */
  function ParseInt(s: string): (r: Option<nat>)
    ensures r.Some? <==> s != [] && forall i :: 0 <= i < |s| ==> '0' <= s[i] <= '9'
  {
    if s != [] && AllDigits(s) then Some(DigitsValue(s)) else None
  }

  /** The decimal numeral of `n`, without sign or leading zeros: the inverse partner of `ParseInt`. */
  function DecimalString(n: nat): (r: string)
    ensures r != [] && AllDigits(r)
  {
    if n < 10 then [('0' as int + n) as char]
    else DecimalString(n / 10) + [('0' as int + n % 10) as char]
  }

  /** What one address becomes: the prefixes are stripped; the rest is converted to an
      integer when it is a numeral, and otherwise stays as the stripped string. */
  function NormalizedAddress(s: string): (r: Slot)
    ensures r.Text? ==> ParseInt(r.text).None? && |r.text| <= |s|
    ensures r.Number? ==> ParseInt(StripPrefixes(s, AddressPrefixes)) == Some(r.value)
  {
    var stripped := StripPrefixes(s, AddressPrefixes);
    match ParseInt(stripped)
    case Some(n) => Number(n)
    case None => Text(stripped)
  }

  /** `extract_addresses`: rewrites every slot of `addresses` in place and returns the same array.
      An entry that is not a numeral after stripping only logs a warning; no entry makes it fail. */
  method ExtractAddresses(addresses: array<Slot>) returns (r: array<Slot>)
    requires forall i :: 0 <= i < addresses.Length ==> addresses[i].Text?
    modifies addresses
    ensures r == addresses
    ensures forall i :: 0 <= i < addresses.Length ==> addresses[i] == NormalizedAddress(old(addresses[i]).text)
  {
    var prefixes := AddressPrefixes;
    for idx := 0 to addresses.Length
      invariant forall i :: 0 <= i < idx ==> addresses[i] == NormalizedAddress(old(addresses[i]).text)
      invariant forall i :: idx <= i < addresses.Length ==> addresses[i] == old(addresses[i])
    {
      ghost var original := addresses[idx].text;
      ghost var before := addresses[..];
      for j := 0 to |prefixes|
        invariant addresses[idx] == Text(StripPrefixes(original, prefixes[..j]))
        invariant forall i :: 0 <= i < addresses.Length && i != idx ==> addresses[i] == before[i]
      {
        assert prefixes[..j + 1][..j] == prefixes[..j];
        addresses[idx] := Text(RemoveAll(addresses[idx].text, prefixes[j]));
      }
      assert prefixes[..|prefixes|] == AddressPrefixes;
      match ParseInt(addresses[idx].text) {
        case Some(n) => addresses[idx] := Number(n);
        case None => // the source logs a warning and keeps the stripped string
      }
    }
    return addresses;
  }

  // ---------------------------------------------------------------------------
  // Lemmas about address normalisation
  // ---------------------------------------------------------------------------

  /** A string without spaces is left alone by the removal of a pattern that ends in a space. */
  lemma {:induction false} RemoveAllSpaceFree(d: string, pat: string)
    requires pat != [] && pat[|pat| - 1] == ' '
    requires ' ' !in d
    ensures RemoveAll(d, pat) == d
    decreases |d|
  {
    if |d| >= |pat| {
      assert d[..|pat|][|pat| - 1] == d[|pat| - 1];
      assert d[1..] + [] == d[1..];
      RemoveAllSpaceFree(d[1..], pat);
      assert [d[0]] + d[1..] == d;
    }
  }

  /** Removing a pattern that ends in a space cannot reach into a space-free suffix. */
  lemma {:induction false} RemoveAllKeepsSuffix(x: string, d: string, pat: string)
    requires pat != [] && pat[|pat| - 1] == ' '
    requires ' ' !in d
    ensures RemoveAll(x + d, pat) == RemoveAll(x, pat) + d
    decreases |x|
  {
    var s := x + d;
    var n := |pat|;
    if x == [] {
      assert s == d;
      RemoveAllSpaceFree(d, pat);
    } else if |s| < n {
    } else if s[..n] == pat {
      assert x[..n] == pat;
      assert s[n..] == x[n..] + d;
      RemoveAllKeepsSuffix(x[n..], d, pat);
    } else {
      assert s[1..] == x[1..] + d;
      RemoveAllKeepsSuffix(x[1..], d, pat);
      if |x| >= n {
        assert x[..n] == s[..n];
      } else {
        assert RemoveAll(x[1..], pat) == x[1..];
        assert [x[0]] + x[1..] == x;
      }
    }
  }

  /** The whole prefix list, spelt out as the four removals in order. */
  lemma StripAddressPrefixes(s: string)
    ensures StripPrefixes(s, AddressPrefixes) ==
      RemoveAll(RemoveAll(RemoveAll(RemoveAll(s, "Input Reg "), "Holding Reg "), "Input "), "Coil ")
  {
    var ps := AddressPrefixes;
    var ps3, ps2, ps1 := ps[..3], ps[..2], ps[..1];
    assert ps3[..2] == ps2 && ps2[..1] == ps1 && ps1[..0] == [];
    assert StripPrefixes(s, ps1) == RemoveAll(s, "Input Reg ");
    assert StripPrefixes(s, ps2) == RemoveAll(StripPrefixes(s, ps1), "Holding Reg ");
    assert StripPrefixes(s, ps3) == RemoveAll(StripPrefixes(s, ps2), "Input ");
    assert StripPrefixes(s, ps) == RemoveAll(StripPrefixes(s, ps3), "Coil ");
  }

  /** A pattern longer than the string is not found in it. */
  lemma RemoveAllShort(s: string, pat: string)
    requires pat != [] && |s| < |pat|
    ensures RemoveAll(s, pat) == s
  {
  }

  /** A pattern removed from itself leaves nothing. */
  lemma RemoveAllSelf(p: string)
    requires p != []
    ensures RemoveAll(p, p) == []
  {
    assert p[..|p|] == p;
    assert p[|p|..] == [];
  }

  /** A pattern whose first character does not occur in `s` is not found in `s`. */
  lemma {:induction false} RemoveAllMissingFirst(s: string, pat: string)
    requires pat != [] && pat[0] !in s
    ensures RemoveAll(s, pat) == s
    decreases |s|
  {
    if |s| >= |pat| {
      assert s[..|pat|][0] == s[0];
      RemoveAllMissingFirst(s[1..], pat);
      assert [s[0]] + s[1..] == s;
    }
  }

  /** Each prefix on its own is removed entirely by the four removals in order. */
  lemma BarePrefixVanishes(p: string)
    requires p in AddressPrefixes
    ensures RemoveAll(RemoveAll(RemoveAll(RemoveAll(p, "Input Reg "), "Holding Reg "), "Input "), "Coil ") == []
  {
    var q1, q2, q3, q4 := "Input Reg ", "Holding Reg ", "Input ", "Coil ";
    var e: string := [];
    RemoveAllShort(e, q2);
    RemoveAllShort(e, q3);
    RemoveAllShort(e, q4);
    if p == q1 {
      RemoveAllSelf(q1);
    } else if p == q2 {
      RemoveAllMissingFirst(p, q1);
      RemoveAllSelf(q2);
    } else if p == q3 {
      RemoveAllShort(p, q1);
      RemoveAllShort(p, q2);
      RemoveAllSelf(q3);
    } else {
      RemoveAllShort(p, q1);
      RemoveAllShort(p, q2);
      RemoveAllShort(p, q3);
      RemoveAllSelf(q4);
    }
  }

  /** Prefix precedence: each of the four prefixes followed by a space-free remainder
      leaves exactly that remainder, so "Input Reg 11" loses its whole "Input Reg " prefix. */
  lemma PrefixPrecedence(p: string, d: string)
    requires p in AddressPrefixes
    requires ' ' !in d
    ensures StripPrefixes(p + d, AddressPrefixes) == d
  {
    StripAddressPrefixes(p + d);
    var q1, q2, q3, q4 := "Input Reg ", "Holding Reg ", "Input ", "Coil ";
    assert q1[|q1| - 1] == ' ' && q2[|q2| - 1] == ' ' && q3[|q3| - 1] == ' ' && q4[|q4| - 1] == ' ';
    var s1 := RemoveAll(p, q1);
    var s2 := RemoveAll(s1, q2);
    var s3 := RemoveAll(s2, q3);
    RemoveAllKeepsSuffix(p, d, q1);
    RemoveAllKeepsSuffix(s1, d, q2);
    RemoveAllKeepsSuffix(s2, d, q3);
    RemoveAllKeepsSuffix(s3, d, q4);
    BarePrefixVanishes(p);
    assert [] + d == d;
  }

  /** `ParseInt` undoes `DecimalString`. */
  lemma {:induction false} ParseDecimalString(n: nat)
    ensures ParseInt(DecimalString(n)) == Some(n)
  {
    var s := DecimalString(n);
    if n >= 10 {
      ParseDecimalString(n / 10);
      assert s[..|s| - 1] == DecimalString(n / 10);
      assert s[|s| - 1] as int - '0' as int == n % 10;
      assert DigitsValue(s) == (n / 10) * 10 + n % 10;
    }
  }

  /** A numeral never has a smaller value than its leading digit. */
  lemma {:induction false} LeadingDigitBound(s: string)
    requires s != [] && AllDigits(s)
    ensures DigitsValue(s) >= s[0] as int - '0' as int
    decreases |s|
  {
    if |s| > 1 {
      var p := s[..|s| - 1];
      assert p[0] == s[0];
      LeadingDigitBound(p);
    }
  }

  /** The other direction of the round trip: a numeral without leading zeros is what
      `DecimalString` prints for the value `ParseInt` reads from it. */
  lemma {:induction false} PrintParsedNumeral(s: string)
    requires ParseInt(s).Some?
    requires |s| == 1 || s[0] != '0'
    ensures DecimalString(ParseInt(s).value) == s
    decreases |s|
  {
    var v := DigitsValue(s);
    var d := s[|s| - 1] as int - '0' as int;
    var p := s[..|s| - 1];
    if |s| == 1 {
      assert p == [] && DigitsValue(p) == 0;
      assert v == DigitsValue(p) * 10 + d;
      assert s == [s[0]];
    } else {
      assert p[0] == s[0];
      assert ParseInt(p).Some?;
      LeadingDigitBound(p);
      PrintParsedNumeral(p);
      assert v == DigitsValue(p) * 10 + d && DigitsValue(p) >= 1;
      assert v / 10 == DigitsValue(p) && v % 10 == d;
      assert s == p + [s[|s| - 1]];
    }
  }

  /** A digit string contains no space. */
  lemma DigitsHaveNoSpace(s: string)
    requires AllDigits(s)
    ensures ' ' !in s
  {
  }

  /** Any of the four prefixes followed by the numeral of `n` normalises to the number `n`. */
  lemma {:induction false} PrefixedNumeral(p: string, n: nat)
    requires p in AddressPrefixes
    ensures NormalizedAddress(p + DecimalString(n)) == Number(n)
  {
    DigitsHaveNoSpace(DecimalString(n));
    PrefixPrecedence(p, DecimalString(n));
    ParseDecimalString(n);
  }

  /** The well-formed addresses of the unit test normalise to 0, 6, 17 and 80. */
  lemma ExtractAddressesExample()
    ensures NormalizedAddress("Input 0") == Number(0)
    ensures NormalizedAddress("Coil 6") == Number(6)
    ensures NormalizedAddress("Holding Reg 17") == Number(17)
    ensures NormalizedAddress("Input Reg 80") == Number(80)
  {
    PrefixedNumeral("Input ", 0);
    assert "Input " + DecimalString(0) == "Input 0";
    PrefixedNumeral("Coil ", 6);
    assert "Coil " + DecimalString(6) == "Coil 6";
    PrefixedNumeral("Holding Reg ", 17);
    assert DecimalString(17) == DecimalString(1) + "7";
    assert "Holding Reg " + DecimalString(17) == "Holding Reg 17";
    PrefixedNumeral("Input Reg ", 80);
    assert DecimalString(80) == DecimalString(8) + "0";
    assert "Input Reg " + DecimalString(80) == "Input Reg 80";
  }

  /** A string in which none of the four prefixes occurs is left as it is by the stripping,
      shown here for "Holding " followed by any space-free `d` such as "Reg17". */
  lemma {:induction false} HoldingWithoutSpaceKept(x: string, d: string)
    requires x == "Holding " && ' ' !in d
    ensures StripPrefixes(x + d, AddressPrefixes) == x + d
  {
    StripAddressPrefixes(x + d);
    var q1, q2, q3, q4 := "Input Reg ", "Holding Reg ", "Input ", "Coil ";
    assert q1[|q1| - 1] == ' ' && q2[|q2| - 1] == ' ' && q3[|q3| - 1] == ' ' && q4[|q4| - 1] == ' ';
    RemoveAllShort(x, q1);
    RemoveAllShort(x, q2);
    RemoveAllMissingFirst(x, q3);
    RemoveAllMissingFirst(x, q4);
    RemoveAllKeepsSuffix(x, d, q1);
    RemoveAllKeepsSuffix(x, d, q2);
    RemoveAllKeepsSuffix(x, d, q3);
    RemoveAllKeepsSuffix(x, d, q4);
  }

  /** "Holding Reg17" of the unit test (no space before the numeral) matches no prefix
      at all and is kept whole. */
  lemma UnmatchedAddressExample()
    ensures NormalizedAddress("Holding Reg17") == Text("Holding Reg17")
  {
    HoldingWithoutSpaceKept("Holding ", "Reg17");
    assert "Holding " + "Reg17" == "Holding Reg17";
    assert !IsDigit("Holding Reg17"[0]);
  }

  /** The other malformed addresses of the unit test do not fail either; each keeps its
      stripped text. "Input Reg" (no trailing space) loses "Input " and keeps "Reg". */
  lemma InvalidAddressesExample()
    ensures NormalizedAddress("Input p") == Text("p")
    ensures NormalizedAddress("Coil a") == Text("a")
    ensures NormalizedAddress("Input Reg") == Text("Reg")
  {

    PrefixPrecedence("Input ", "p");
    assert "Input " + "p" == "Input p";
    assert !IsDigit("p"[0]);
    PrefixPrecedence("Coil ", "a");
    assert "Coil " + "a" == "Coil a";
    assert !IsDigit("a"[0]);
    PrefixPrecedence("Input ", "Reg");
    assert "Input " + "Reg" == "Input Reg";
    assert !IsDigit("Reg"[0]);
  }

  // ---------------------------------------------------------------------------
  // Operation resolution
  // ---------------------------------------------------------------------------

  /** The fixed Modbus unit identifier (`UNIT = 0x1`). */
  const Unit: nat := 0x1

  /** The fixed number of points per read. */
  const Length: nat := 1

  /** What `evaluate_reader` returns: the read operation with its unit and length. */
  datatype Reader = Reader(readType: ReadOp, unit: nat, length: nat)

  /** What `evaluate_writer` returns: the write operation with its unit. */
  datatype Writer = Writer(writeType: WriteOp, unit: nat)

  /** `evaluate_reader`: `None` stands for the ValueError("Tag type error") it raises.
      Inputs are read from the read-only tables, outputs from the writable ones;
      Bool tags from the bit tables, Real tags from the register tables. */
  function EvaluateReader(typ: string, dataType: string): (r: Option<Reader>)
    ensures r.Some? <==> (typ == "Input" || typ == "Output") && (dataType == "Bool" || dataType == "Real")
    ensures r.Some? ==> r.value.unit == 1 && r.value.length == 1
    ensures r.Some? ==> (IsBitTable(ReadTable(r.value.readType)) <==> dataType == "Bool")
    ensures r.Some? ==> (IsReadOnly(ReadTable(r.value.readType)) <==> typ == "Input")
  {
    var readType: Option<ReadOp> := None;
    var readType1 := if typ == "Input" && dataType == "Bool" then Some(ReadDiscreteInputs) else readType;
    var readType2 := if typ == "Output" && dataType == "Bool" then Some(ReadCoils) else readType1;
    var readType3 := if typ == "Input" && dataType == "Real" then Some(ReadInputRegisters) else readType2;
    var readType4 := if typ == "Output" && dataType == "Real" then Some(ReadHoldingRegisters) else readType3;
    if readType4.None? then None else Some(Reader(readType4.value, Unit, Length))
  }

  /** `evaluate_writer`: `None` stands for the ValueError("Tag type error") it raises.
      Only outputs are writable; Bool tags go to the coils, Real tags to the holding registers. */
  function EvaluateWriter(typ: string, dataType: string): (r: Option<Writer>)
    ensures r.Some? <==> typ == "Output" && (dataType == "Bool" || dataType == "Real")
    ensures r.Some? ==> r.value.unit == 1 && !IsReadOnly(WriteTable(r.value.writeType))
    ensures r.Some? ==> (IsBitTable(WriteTable(r.value.writeType)) <==> dataType == "Bool")
  {
    var writeType: Option<WriteOp> := None;
    var writeType1 := if typ == "Output" && dataType == "Bool" then Some(WriteCoil) else writeType;
    var writeType2 := if typ == "Output" && dataType == "Real" then Some(WriteRegister) else writeType1;
    if writeType2.None? then None else Some(Writer(writeType2.value, Unit))
  }

  /** The four reader cases and the rejected empty Type of the unit tests. */
  lemma EvaluateReaderTable()
    ensures EvaluateReader("Input", "Bool") == Some(Reader(ReadDiscreteInputs, 1, 1))
    ensures EvaluateReader("Output", "Bool") == Some(Reader(ReadCoils, 1, 1))
    ensures EvaluateReader("Input", "Real") == Some(Reader(ReadInputRegisters, 1, 1))
    ensures EvaluateReader("Output", "Real") == Some(Reader(ReadHoldingRegisters, 1, 1))
    ensures EvaluateReader("", "Real") == None
  {
  }

  /** The two writer cases of the unit tests; every Input tag is rejected. */
  lemma EvaluateWriterTable(dataType: string)
    ensures EvaluateWriter("Output", "Bool") == Some(Writer(WriteCoil, 1))
    ensures EvaluateWriter("Output", "Real") == Some(Writer(WriteRegister, 1))
    ensures EvaluateWriter("Input", dataType) == None
  {
  }

  /** Whatever tag can be written can be read back from the very table the write changes. */
  lemma WrittenTableIsReadBack(typ: string, dataType: string)
    requires EvaluateWriter(typ, dataType).Some?
    ensures EvaluateReader(typ, dataType).Some?
    ensures ReadTable(EvaluateReader(typ, dataType).value.readType) ==
            WriteTable(EvaluateWriter(typ, dataType).value.writeType)
  {
  }
}
