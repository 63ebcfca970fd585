/**
 * Identifiers and barcodes. Named counters live in the store and are bumped by one
 * atomic upsert-and-increment; a barcode is the type's prefix, the library's code and
 * a sequence value, followed by the check digit of those three.
 */
module SequenceGenerator {
  import opened Common
  import opened Store
  import CheckDigitCalculator
  import OutputFormatter

  /** `BarcodeType`: what a barcode is printed for, with the counter that numbers it. */
  datatype BarcodeType = CardBarcode | MediaBarcode

  function CounterId(t: BarcodeType): string
  {
    match t
    case CardBarcode => "cardId"
    case MediaBarcode => "mediaId"
  }

  const PatronCounter := "patronId"
  const LoanCounter := "loanId"
  const FineCounter := "fineId"
  const InvoiceCounter := "invoiceId"

  /** The configured library code and barcode prefixes. */
  datatype BarcodeConfig = BarcodeConfig(
    libraryIdCode: string,
    mediaBarcodePrefix: string,
    cardBarcodePrefix: string)

  /** `getPrefixForType`. */
  function PrefixForType(cfg: BarcodeConfig, t: BarcodeType): (prefix: string)
    ensures t == CardBarcode ==> prefix == cfg.cardBarcodePrefix
    ensures t == MediaBarcode ==> prefix == cfg.mediaBarcodePrefix
  {
    match t
    case CardBarcode => cfg.cardBarcodePrefix
    case MediaBarcode => cfg.mediaBarcodePrefix
  }

  /** The barcode before its check digit. */
  function Unchecked(cfg: BarcodeConfig, t: BarcodeType, sequenceValue: int): string
  {
    PrefixForType(cfg, t) + cfg.libraryIdCode + IntToString(sequenceValue)
  }

  /**
   * `generateBarcode`: the unchecked barcode followed by the decimal text of its check
   * digit, which is a single digit whenever the unchecked barcode is alphanumeric.
   */
  function GenerateBarcode(cfg: BarcodeConfig, t: BarcodeType, sequenceValue: int): (barcode: string)
    ensures var u := Unchecked(cfg, t, sequenceValue);
      |barcode| > |u| && barcode[..|u|] == u
    ensures var u := Unchecked(cfg, t, sequenceValue);
      CheckDigitCalculator.AllAlphanumeric(u) ==>
        |barcode| == |u| + 1 && barcode[|u|] == DigitChar(CheckDigitCalculator.CheckDigit(u))
  {
    var u := Unchecked(cfg, t, sequenceValue);
    var checkDigit := CheckDigitCalculator.CheckDigit(u);
    assert (u + IntToString(checkDigit))[..|u|] == u;
    u + IntToString(checkDigit)
  }

  /** The current value of a counter; an absent counter counts as 0. */
  function CounterValue(db: Db, name: string): int
  {
    if name in db.counters then db.counters[name] else 0
  }

  /**
   * `getNextSequenceValue(name)`: the counter `name` goes up by one (starting from 0
   * when absent) and its new value is returned; all else is untouched. When the store
   * returns no counter the call fails and nothing changes.
   */
  function NextSequenceValue(db: Db, name: string): (out: (Db, Result<int>))
    ensures db.counterStoreFails ==> out.0 == db
    ensures db.counterStoreFails ==> out.1 == Err(General(SequenceGenerationFailed,
      "Failed to generate sequence value for: " + name, InternalServerError))
    ensures !db.counterStoreFails ==> out.1 == Ok(CounterValue(db, name) + 1)
    ensures !db.counterStoreFails ==> out.0 == db.(counters := db.counters[name := CounterValue(db, name) + 1])
  {
    if db.counterStoreFails then
      (db, Err(General(SequenceGenerationFailed, "Failed to generate sequence value for: " + name,
        InternalServerError)))
    else
      var value := CounterValue(db, name) + 1;
      (db.(counters := db.counters[name := value]), Ok(value))
  }

  method GetNextSequenceValue(lib: Library, name: string) returns (r: Result<int>)
    modifies lib
    ensures (lib.Snapshot(), r) == NextSequenceValue(old(lib.Snapshot()), name)
  {
    if lib.counterStoreFails {
      return Err(General(SequenceGenerationFailed, "Failed to generate sequence value for: " + name,
        InternalServerError));
    }
    var value := (if name in lib.counters then lib.counters[name] else 0) + 1;
    lib.counters := lib.counters[name := value];
    r := Ok(value);
  }

  /** `getNextSequenceValue(BarcodeType)`: the type's own counter. */
  method GetNextSequenceValueForType(lib: Library, t: BarcodeType) returns (r: Result<int>)
    modifies lib
    ensures (lib.Snapshot(), r) == NextSequenceValue(old(lib.Snapshot()), CounterId(t))
  {
    r := GetNextSequenceValue(lib, CounterId(t));
  }

  method GetNextSequenceValueForPatron(lib: Library) returns (r: Result<int>)
    modifies lib
    ensures (lib.Snapshot(), r) == NextSequenceValue(old(lib.Snapshot()), PatronCounter)
  {
    r := GetNextSequenceValue(lib, PatronCounter);
  }

  method GetNextSequenceValueForLoan(lib: Library) returns (r: Result<int>)
    modifies lib
    ensures (lib.Snapshot(), r) == NextSequenceValue(old(lib.Snapshot()), LoanCounter)
  {
    r := GetNextSequenceValue(lib, LoanCounter);
  }

  method GetNextSequenceValueForFine(lib: Library) returns (r: Result<int>)
    modifies lib
    ensures (lib.Snapshot(), r) == NextSequenceValue(old(lib.Snapshot()), FineCounter)
  {
    r := GetNextSequenceValue(lib, FineCounter);
  }

  method GetNextSequenceValueForInvoice(lib: Library) returns (r: Result<int>)
    modifies lib
    ensures (lib.Snapshot(), r) == NextSequenceValue(old(lib.Snapshot()), InvoiceCounter)
  {
    r := GetNextSequenceValue(lib, InvoiceCounter);
  }

  /** Two draws from the same counter give consecutive, increasing values. */
  lemma ConsecutiveDraws(db: Db, name: string)
    requires !db.counterStoreFails
    ensures var (db1, r1) := NextSequenceValue(db, name);
      var (db2, r2) := NextSequenceValue(db1, name);
      r1.Ok? && r2.Ok? && r2.value == r1.value + 1
  {}

  /** A draw from one counter leaves every other counter as it was. */
  lemma DrawLeavesOtherCounters(db: Db, name: string, other: string)
    requires other != name
    ensures CounterValue(NextSequenceValue(db, name).0, other) == CounterValue(db, other)
  {}

  /**
   * With a one-character prefix, a four-character library code and an eight-digit
   * sequence value, all alphanumeric, a barcode has the 14 characters the display form
   * needs, and its four display groups are exactly prefix, code, sequence and check digit.
   */
  lemma BarcodeDisplayGroups(cfg: BarcodeConfig, t: BarcodeType, sequenceValue: int)
    requires |PrefixForType(cfg, t)| == 1 && |cfg.libraryIdCode| == 4
    requires CheckDigitCalculator.AllAlphanumeric(PrefixForType(cfg, t) + cfg.libraryIdCode)
    requires 10000000 <= sequenceValue < 100000000
    ensures var u := Unchecked(cfg, t, sequenceValue);
      OutputFormatter.FormatBarcodeId(Some(GenerateBarcode(cfg, t, sequenceValue))) ==
        Ok(PrefixForType(cfg, t) + "-" + cfg.libraryIdCode + "-" + IntToString(sequenceValue) + "-" +
          [DigitChar(CheckDigitCalculator.CheckDigit(u))])
  {
    var prefix, code, digits := PrefixForType(cfg, t), cfg.libraryIdCode, IntToString(sequenceValue);
    var u := Unchecked(cfg, t, sequenceValue);
    NatToStringLength(sequenceValue, 7);
    assert u == prefix + code + digits;
    assert CheckDigitCalculator.AllAlphanumeric(u) by {
      forall i | 0 <= i < |u|
        ensures CheckDigitCalculator.IsAlphanumeric(u[i])
      {
        if i >= 5 {
          assert u[i] == digits[i - 5];
        } else {
          assert u[i] == (prefix + code)[i];
        }
      }
    }
    var b := GenerateBarcode(cfg, t, sequenceValue);
    assert |b| == 14;
    assert b == u + [DigitChar(CheckDigitCalculator.CheckDigit(u))];
    assert !OutputFormatter.HasLineTerminator(b) by {
      forall i | 0 <= i < 14
        ensures !OutputFormatter.IsLineTerminator(b[i])
      {
        if i < 13 {
          assert b[i] == u[i];
          assert CheckDigitCalculator.IsAlphanumeric(u[i]);
        }
      }
    }
    OutputFormatter.FormatBarcodeIdGroups(b);
    assert b[..1] == prefix;
    assert b[1..5] == code;
    assert b[5..13] == digits;
  }

  /** Media number 1000 of library "123" with prefix "MED" is barcode MED12310009. */
  lemma MediaBarcodeExample(cfg: BarcodeConfig)
    requires cfg == BarcodeConfig("123", "MED", "CRD")
    ensures GenerateBarcode(cfg, MediaBarcode, 1000) == "MED12310009"
  {
    MediaBarcodeDigit(cfg);
    assert "MED1231000" + [DigitChar(9)] == "MED12310009";
  }

  lemma MediaBarcodeDigit(cfg: BarcodeConfig)
    requires cfg == BarcodeConfig("123", "MED", "CRD")
    ensures Unchecked(cfg, MediaBarcode, 1000) == "MED1231000"
    ensures GenerateBarcode(cfg, MediaBarcode, 1000) == "MED1231000" + [DigitChar(9)]
  {
    Thousands();
    assert Unchecked(cfg, MediaBarcode, 1000) == "MED1231000";
    CheckDigitOfMED1231000();
    BarcodeOfDigit(cfg, MediaBarcode, 1000, 9);
  }

  /** Card number 2000 of library "123" with prefix "CRD" is barcode CRD12320002. */
  lemma CardBarcodeExample(cfg: BarcodeConfig)
    requires cfg == BarcodeConfig("123", "MED", "CRD")
    ensures GenerateBarcode(cfg, CardBarcode, 2000) == "CRD12320002"
  {
    CardBarcodeDigit(cfg);
    assert "CRD1232000" + [DigitChar(2)] == "CRD12320002";
  }

  lemma CardBarcodeDigit(cfg: BarcodeConfig)
    requires cfg == BarcodeConfig("123", "MED", "CRD")
    ensures Unchecked(cfg, CardBarcode, 2000) == "CRD1232000"
    ensures GenerateBarcode(cfg, CardBarcode, 2000) == "CRD1232000" + [DigitChar(2)]
  {
    Thousands();
    assert Unchecked(cfg, CardBarcode, 2000) == "CRD1232000";
    CheckDigitOfCRD1232000();
    BarcodeOfDigit(cfg, CardBarcode, 2000, 2);
  }

  lemma BarcodeOfDigit(cfg: BarcodeConfig, t: BarcodeType, sequenceValue: int, d: nat)
    requires d < 10 && CheckDigitCalculator.CheckDigit(Unchecked(cfg, t, sequenceValue)) == d
    ensures GenerateBarcode(cfg, t, sequenceValue) == Unchecked(cfg, t, sequenceValue) + [DigitChar(d)]
  {}

  lemma CheckDigitOfMED1231000()
    ensures CheckDigitCalculator.CheckDigit("MED1231000") == 9
  {
    var s := "MED1231000";
    assert "MED1" + "231000" == s;
    CheckDigitCalculator.WeightedSumOfBlock("MED1", "231000");
    SumOfMED1();
    SumOf231000();
    assert CheckDigitCalculator.WeightedSum(s) == 244;
    assert CheckDigitCalculator.DigitForSum(244) == 9 by {
      assert JavaRem(244, 11) == 2;
    }
  }

  lemma CheckDigitOfCRD1232000()
    ensures CheckDigitCalculator.CheckDigit("CRD1232000") == 2
  {
    var s := "CRD1232000";
    assert "CRD1" + "232000" == s;
    CheckDigitCalculator.WeightedSumOfBlock("CRD1", "232000");
    SumOfCRD1();
    SumOf232000();
    assert CheckDigitCalculator.WeightedSum(s) == 251;
    assert CheckDigitCalculator.DigitForSum(251) == 2 by {
      assert JavaRem(251, 11) == 9;
    }
  }

  lemma Thousands()
    ensures IntToString(1000) == "1000" && IntToString(2000) == "2000"
  {
    assert NatToString(1) == "1" && NatToString(2) == "2";
    assert NatToString(10) == "10" && NatToString(20) == "20";
    assert NatToString(100) == "100" && NatToString(200) == "200";
  }

  lemma SumOfMED1()
    ensures CheckDigitCalculator.WeightedSum("MED1") == 22 * 5 + 14 * 4 + 13 * 3 + 1 * 2
  {
    var s := "MED1";
    assert s[1..] == "ED1" && s[2..] == "D1" && s[3..] == "1";
  }

  lemma SumOfCRD1()
    ensures CheckDigitCalculator.WeightedSum("CRD1") == 12 * 5 + 27 * 4 + 13 * 3 + 1 * 2
  {
    var s := "CRD1";
    assert s[1..] == "RD1" && s[2..] == "D1" && s[3..] == "1";
  }

  lemma SumOf231000()
    ensures CheckDigitCalculator.WeightedSum("231000") == 2 * 7 + 3 * 6 + 1 * 5
  {
    var s := "231000";
    assert s[1..] == "31000" && s[2..] == "1000" && s[3..] == "000" && s[4..] == "00" && s[5..] == "0";
  }

  lemma SumOf232000()
    ensures CheckDigitCalculator.WeightedSum("232000") == 2 * 7 + 3 * 6 + 2 * 5
  {
    var s := "232000";
    assert s[1..] == "32000" && s[2..] == "2000" && s[3..] == "000" && s[4..] == "00" && s[5..] == "0";
  }
}
