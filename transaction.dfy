/**
 * The transaction record of data/transaction.go: its two string-typed status
 * enumerations, the record itself, the `T%05d` identifier, and its text form
 * (Stringify/Parse).
 */
module Transactions {
  import opened Wrappers
  import opened Decimal
  import opened JsonCodec

  /** `TransactionStatus` is a Go string type: any name is a value; three are named. */
  datatype TransactionStatus = TransactionStatus(name: string)

  /** `ReadStatus` is a second Go string type with two named values. */
  datatype ReadStatus = ReadStatus(name: string)

  const Pending := TransactionStatus("Pending")
  const Processed := TransactionStatus("Processed")
  const Failed := TransactionStatus("Failed")

  const ReadPending := ReadStatus("Pending")
  const ReadProcessed := ReadStatus("Processed")

  /** A float64 amount: a finite number (stood for by an integer) or one of the IEEE special values. */
  datatype Amount = Finite(value: int) | NaN | PosInf | NegInf

  /** A `time.Time`, as an opaque count of ticks; the zero time is tick 0. */
  datatype Instant = Instant(ticks: int)

  const ZeroInstant := Instant(0)

  /** The five fields of a `Transaction` as one value. */
  datatype Record = Record(
    id: string,
    amount: Amount,
    status: TransactionStatus,
    checkReadStatus: ReadStatus,
    createdAt: Instant)

  /** The zero value `Transaction{}`: every field at its zero. */
  const EmptyRecord := Record("", Finite(0), TransactionStatus(""), ReadStatus(""), ZeroInstant)

  /** Names within each enumeration are distinct, and the read statuses reuse the names Pending and Processed. */
  lemma StatusNames()
    ensures Pending != Processed && Processed != Failed && Pending != Failed
    ensures ReadPending != ReadProcessed
    ensures Pending.name == ReadPending.name && Processed.name == ReadProcessed.name
  {
  }

  // ---------------------------------------------------------------------------
  // Identifiers: fmt.Sprintf("T%05d", rand.Intn(10000000))

  /** The identifier draw is `rand.Intn(10000000)`: below this bound. */
  const IdDrawBound: nat := 10_000_000

  const IdWidth: nat := 5

  /** The `%05d` verb on a non-negative number: its digits, zero-padded on the left to five. */
  function PadDigits(n: nat): string {
    ZeroPad(Digits(n), IdWidth)
  }

  /** `%05d` writes at least five digits, and they read back as the number. */
  lemma PadDigitsValue(n: nat)
    ensures |PadDigits(n)| >= IdWidth && AllDigits(PadDigits(n))
    ensures Value(PadDigits(n)) == n
  {
    var d := Digits(n);
    ValueOfDigits(n);
    ZeroPadIsZeros(d, IdWidth);
    if |d| < IdWidth {
      ValueIgnoresLeadingZeros(IdWidth - |d|, d);
    }
  }

  /** Below the draw bound, `%05d` writes at most seven digits. */
  lemma PadDigitsBounded(n: nat)
    requires n < IdDrawBound
    ensures |PadDigits(n)| <= 7
  {
    DigitsLength(n, 7);
    ZeroPadIsZeros(Digits(n), IdWidth);
  }

  /** The identifier a draw produces: 'T', then the draw written with `%05d`. */
  function GenerateTransactionId(draw: nat): (id: string)
    ensures |id| >= 1 + IdWidth
    ensures id[0] == 'T'
  {
    "T" + PadDigits(draw)
  }

  /** A drawn identifier is 'T' and five to seven digits: six to eight characters. */
  lemma GeneratedIdLength(draw: nat)
    requires draw < IdDrawBound
    ensures 6 <= |GenerateTransactionId(draw)| <= 8
  {
    PadDigitsBounded(draw);
  }

  /** Reads an identifier back: 'T' followed by at least one digit. */
  function ParseTransactionId(id: string): Option<nat> {
    if |id| >= 2 && id[0] == 'T' && AllDigits(id[1..]) then Some(Value(id[1..])) else None
  }

  lemma ParseGeneratedId(draw: nat)
    ensures ParseTransactionId(GenerateTransactionId(draw)) == Some(draw)
  {
    PadDigitsValue(draw);
    assert GenerateTransactionId(draw)[1..] == PadDigits(draw);
  }

  /** Distinct draws give distinct identifiers. */
  lemma GeneratedIdsDistinct(a: nat, b: nat)
    requires a != b
    ensures GenerateTransactionId(a) != GenerateTransactionId(b)
  {
    ParseGeneratedId(a);
    ParseGeneratedId(b);
  }

  /** The record NewTransaction builds from an amount and an identifier draw. */
  function NewRecord(amount: Amount, idDraw: nat): (r: Record)
    ensures |r.id| >= 1 + IdWidth && r.id[0] == 'T'
    ensures r.amount == amount && r.status == Pending && r.checkReadStatus == ReadPending
    ensures r.createdAt == ZeroInstant
    ensures Marshalable(r) <==> amount.Finite?
  {
    Record(GenerateTransactionId(idDraw), amount, Pending, ReadPending, ZeroInstant)
  }

  /**
   * A new transaction carries an identifier that reads back as its draw, the
   * given amount, both statuses pending and the zero time; it can be written
   * exactly when its amount is finite.
   */
  lemma NewRecordFields(amount: Amount, idDraw: nat)
    ensures var r := NewRecord(amount, idDraw);
      && ParseTransactionId(r.id) == Some(idDraw)
      && r.amount == amount && r.status == Pending && r.checkReadStatus == ReadPending
      && r.createdAt == ZeroInstant
      && (Marshalable(r) <==> amount.Finite?)
  {
    ParseGeneratedId(idDraw);
  }

  // ---------------------------------------------------------------------------
  // Text form: json.Marshal / json.Unmarshal on the tagged struct

  // The separators before each value; the field names are the struct's json tags.
  const IdKey := "{\"id\":"
  const AmountKey := ",\"amount\":"
  const StatusKey := ",\"status\":"
  const ReadStatusKey := ",\"read_status\":"
  const CreatedAtKey := ",\"created_at\":"
  const Closing := "}"

  /** The five keys Encoding writes are pairwise distinct. */
  lemma FieldNamesDistinct()
    ensures |{IdKey, AmountKey, StatusKey, ReadStatusKey, CreatedAtKey}| == 5
  {
  }

  /** json.Marshal fails on NaN and the infinities and succeeds otherwise. */
  predicate Marshalable(r: Record) {
    r.amount.Finite?
  }

  function Encoding(r: Record): string
    requires Marshalable(r)
  {
    IdKey + (EncodeString(r.id) +
    (AmountKey + (FormatInt(r.amount.value) +
    (StatusKey + (EncodeString(r.status.name) +
    (ReadStatusKey + (EncodeString(r.checkReadStatus.name) +
    (CreatedAtKey + (FormatInt(r.createdAt.ticks) + Closing)))))))))
  }

  function Marshal(r: Record): (text: Option<string>)
    ensures text.Some? <==> Marshalable(r)
  {
    if Marshalable(r) then Some(Encoding(r)) else None
  }

  /** The reader of Encoding's text; anything it accepts has a finite amount and so can be written again. */
  function Unmarshal(s: string): (r: Option<Record>)
    ensures r.Some? ==> Marshalable(r.value)
  {
    var a :- StripPrefix(IdKey, s);
    var id :- DecodeString(a);
    var b :- StripPrefix(AmountKey, id.1);
    var amount :- DecodeInt(b);
    var c :- StripPrefix(StatusKey, amount.1);
    var status :- DecodeString(c);
    var d :- StripPrefix(ReadStatusKey, status.1);
    var read :- DecodeString(d);
    var e :- StripPrefix(CreatedAtKey, read.1);
    var created :- DecodeInt(e);
    if created.1 == Closing then
      Some(Record(id.0, Finite(amount.0), TransactionStatus(status.0), ReadStatus(read.0), Instant(created.0)))
    else None
  }

  /** Every record that marshals reads back unchanged. */
  lemma UnmarshalMarshal(r: Record)
    requires Marshalable(r)
    ensures Unmarshal(Encoding(r)) == Some(r)
  {
    var s9 := FormatInt(r.createdAt.ticks) + Closing;
    var s8 := CreatedAtKey + s9;
    var s7 := EncodeString(r.checkReadStatus.name) + s8;
    var s6 := ReadStatusKey + s7;
    var s5 := EncodeString(r.status.name) + s6;
    var s4 := StatusKey + s5;
    var s3 := FormatInt(r.amount.value) + s4;
    var s2 := AmountKey + s3;
    var s1 := EncodeString(r.id) + s2;
    assert Encoding(r) == IdKey + s1;
    StripWritten(IdKey, s1);
    DecodeEncodeString(r.id, s2);
    StripWritten(AmountKey, s3);
    assert s4[0] == ',';
    DecodeFormatInt(r.amount.value, s4);
    StripWritten(StatusKey, s5);
    DecodeEncodeString(r.status.name, s6);
    StripWritten(ReadStatusKey, s7);
    DecodeEncodeString(r.checkReadStatus.name, s8);
    StripWritten(CreatedAtKey, s9);
    DecodeFormatInt(r.createdAt.ticks, Closing);
  }

  /** Unmarshal accepts only what Marshal writes: each accepted text is the marshalling of the record it yields. */
  lemma MarshalUnmarshal(s: string)
    requires Unmarshal(s).Some?
    ensures Marshal(Unmarshal(s).value) == Some(s)
  {
    var a := StripPrefix(IdKey, s).value;
    var id := DecodeString(a).value;
    DecodedStringIsEncoded(a);
    var b := StripPrefix(AmountKey, id.1).value;
    var amount := DecodeInt(b).value;
    DecodedIntIsFormatted(b);
    var c := StripPrefix(StatusKey, amount.1).value;
    var status := DecodeString(c).value;
    DecodedStringIsEncoded(c);
    var d := StripPrefix(ReadStatusKey, status.1).value;
    var read := DecodeString(d).value;
    DecodedStringIsEncoded(d);
    var e := StripPrefix(CreatedAtKey, read.1).value;
    var created := DecodeInt(e).value;
    DecodedIntIsFormatted(e);
  }

  /** The string Stringify produces for a record: its marshalling, or "" when marshalling fails. */
  function RecordText(r: Record): (s: string)
    ensures s == "" <==> !Marshalable(r)
    ensures Marshalable(r) ==> Unmarshal(s) == Some(r)
    ensures Unmarshal(s).Some? ==> Unmarshal(s) == Some(r)
  {
    if Marshalable(r) then
      UnmarshalMarshal(r);
      Encoding(r)
    else
      assert Unmarshal("").None?;
      ""
  }

  // ---------------------------------------------------------------------------
  // The struct, updated in place by UpdateStatus and Parse

  class Transaction {
    var id: string
    var amount: Amount
    var status: TransactionStatus
    var checkReadStatus: ReadStatus
    var createdAt: Instant

    function Snapshot(): Record
      reads this
    {
      Record(id, amount, status, checkReadStatus, createdAt)
    }

    /** NewTransaction: a fresh identifier, the given amount, both statuses pending, the zero time. */
    constructor New(amount: Amount, idDraw: nat)
      ensures Snapshot() == NewRecord(amount, idDraw)
      ensures id == GenerateTransactionId(idDraw)
    {
      id := GenerateTransactionId(idDraw);
      this.amount := amount;
      status := Pending;
      checkReadStatus := ReadPending;
      createdAt := ZeroInstant;
    }

    /** The zero value `data.Transaction{}`. */
    constructor Empty()
      ensures Snapshot() == EmptyRecord
    {
      id := "";
      amount := Finite(0);
      status := TransactionStatus("");
      checkReadStatus := ReadStatus("");
      createdAt := ZeroInstant;
    }

    /** Sets the status and nothing else. */
    method UpdateStatus(status: TransactionStatus)
      modifies this
      ensures Snapshot() == old(Snapshot()).(status := status)
    {
      this.status := status;
    }

    function Stringify(): (s: string)
      reads this
      ensures s == RecordText(Snapshot())
    {
      RecordText(Snapshot())
    }

    /**
     * Fills the record from its text. On success every field is replaced by
     * the decoded one; on failure the record is left as it was.
     */
    method Parse(data: string) returns (ok: bool)
      modifies this
      ensures ok <==> Unmarshal(data).Some?
      ensures ok ==> Snapshot() == Unmarshal(data).value
      ensures !ok ==> Snapshot() == old(Snapshot())
    {
      var decoded := Unmarshal(data);
      ok := decoded.Some?;
      if ok {
        var r := decoded.value;
        id, amount, status, checkReadStatus, createdAt :=
          r.id, r.amount, r.status, r.checkReadStatus, r.createdAt;
      }
    }
  }
}
