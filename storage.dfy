/**
 * The key-value store behind `IStorage` (configs/storage.go). The cache is a
 * map; whether each call to the underlying service succeeds is an explicit
 * input; a ghost log records every Save, Get and Delete issued, so that the
 * handlers can state which calls they make.
 */
module Storage {
  import opened Wrappers
  import opened Decimal

  datatype StoreError = ReadFailed | WriteFailed | DeleteFailed

  datatype StoreCall = SaveCall(key: string, value: string) | GetCall(key: string) | DeleteCall(key: string)

  /** The calls a handler issues and the entries it leaves behind. */
  datatype StoreEffect = StoreEffect(calls: seq<StoreCall>, entries: map<string, string>)

  /** The (saved, processed, failed) triple of GetStats, each an int32. */
  datatype StoreStats = StoreStats(saved: int, processed: int, failed: int)

  const ProcessedCounterKey := "processed"
  const FailedCounterKey := "failed"

  const Int32Modulus: int := 0x1_0000_0000
  const MinInt32: int := -0x8000_0000
  const MaxInt32: int := 0x7fff_ffff
  const MinInt64: int := -0x8000_0000_0000_0000
  const MaxInt64: int := 0x7fff_ffff_ffff_ffff

  /** Go's `int32(x)` conversion: keeps the low 32 bits, read as two's complement. */
  function Int32(x: int): (r: int)
    ensures MinInt32 <= r <= MaxInt32
    ensures (x - r) % Int32Modulus == 0
    ensures MinInt32 <= x <= MaxInt32 ==> r == x
  {
    (x - MinInt32) % Int32Modulus + MinInt32
  }

  /** `strconv.ParseInt(s, 10, 64)`: an optional sign, then one or more digits, within int64. */
  function ParseInt64(s: string): (r: Option<int>)
    ensures r.Some? ==> MinInt64 <= r.value <= MaxInt64
  {
    var negative := s != [] && s[0] == '-';
    var body := if s != [] && (s[0] == '-' || s[0] == '+') then s[1..] else s;
    if body == [] || !AllDigits(body) then None
    else
      var v: int := if negative then -(Value(body) as int) else Value(body);
      if MinInt64 <= v <= MaxInt64 then Some(v) else None
  }

  lemma ParseNegative(m: nat)
    requires 0 < m <= -MinInt64
    ensures ParseInt64("-" + Digits(m)) == Some(-(m as int))
  {
    assert ("-" + Digits(m))[1..] == Digits(m);
    ValueOfDigits(m);
  }

  lemma ParseNonNegative(m: nat)
    requires m <= MaxInt64
    ensures ParseInt64(Digits(m)) == Some(m as int)
  {
    ValueOfDigits(m);
  }

  /** Every int64 written in decimal parses back to itself. */
  lemma ParseFormattedInt64(x: int)
    requires MinInt64 <= x <= MaxInt64
    ensures ParseInt64(FormatInt(x)) == Some(x)
  {
    if x < 0 {
      ParseNegative(-x);
    } else {
      ParseNonNegative(x);
    }
  }

  /** A counter value read as `Int64()` and narrowed to int32; a value that does not parse counts as 0. */
  function CounterValue(entries: map<string, string>, key: string): (c: int)
    requires key in entries
    ensures MinInt32 <= c <= MaxInt32
    ensures ParseInt64(entries[key]).None? ==> c == 0
    ensures ParseInt64(entries[key]).Some? && MinInt32 <= ParseInt64(entries[key]).value <= MaxInt32 ==>
      c == ParseInt64(entries[key]).value
  {
    match ParseInt64(entries[key])
    case Some(v) => Int32(v)
    case None => 0
  }

  /** A counter holding the decimal text of an int32 reads back as that number. */
  lemma CounterReadsWritten(entries: map<string, string>, key: string, x: int)
    requires MinInt32 <= x <= MaxInt32
    ensures CounterValue(entries[key := FormatInt(x)], key) == x
  {
    ParseFormattedInt64(x);
  }

  class Store {
    var entries: map<string, string>
    ghost var calls: seq<StoreCall>

    constructor (initial: map<string, string>)
      ensures entries == initial && calls == []
    {
      entries := initial;
      calls := [];
    }

    /** Writes `value` under `key` when the service call succeeds; otherwise reports WriteFailed and changes nothing. */
    method Save(key: string, value: string, succeeds: bool) returns (err: Option<StoreError>)
      modifies this
      ensures calls == old(calls) + [SaveCall(key, value)]
      ensures succeeds ==> err == None && entries == old(entries)[key := value]
      ensures !succeeds ==> err == Some(WriteFailed) && entries == old(entries)
    {
      calls := calls + [SaveCall(key, value)];
      if succeeds {
        entries := entries[key := value];
        err := None;
      } else {
        err := Some(WriteFailed);
      }
    }

    /** Reads `key`; a failed call and a missing key both report ReadFailed. */
    method Get(key: string, succeeds: bool) returns (r: Result<string, StoreError>)
      modifies this
      ensures calls == old(calls) + [GetCall(key)] && entries == old(entries)
      ensures r.Success? <==> succeeds && key in entries
      ensures r.Success? ==> r.value == entries[key]
      ensures r.Failure? ==> r.error == ReadFailed
    {
      calls := calls + [GetCall(key)];
      if succeeds && key in entries {
        r := Success(entries[key]);
      } else {
        r := Failure(ReadFailed);
      }
    }

    /** Removes `key` when the service call succeeds (a missing key is no error). */
    method Delete(key: string, succeeds: bool) returns (err: Option<StoreError>)
      modifies this
      ensures calls == old(calls) + [DeleteCall(key)]
      ensures succeeds ==> err == None && entries == old(entries) - {key}
      ensures !succeeds ==> err == Some(DeleteFailed) && entries == old(entries)
    {
      calls := calls + [DeleteCall(key)];
      if succeeds {
        entries := entries - {key};
        err := None;
      } else {
        err := Some(DeleteFailed);
      }
    }

    /**
     * GetStats: the number of keys, then the two counter keys, each best
     * effort. `sizeSucceeds` is the outcome of the key count and
     * `pipelineSucceeds` that of the connection for the pipelined counter
     * reads. The pipeline reports the first failing command, and reading a
     * missing key fails, so the counters are read only when both keys exist.
     */
    function GetStats(sizeSucceeds: bool, pipelineSucceeds: bool): (s: StoreStats)
      reads this
      ensures MinInt32 <= s.saved <= MaxInt32 && MinInt32 <= s.processed <= MaxInt32 && MinInt32 <= s.failed <= MaxInt32
      ensures sizeSucceeds && |entries| <= MaxInt32 ==> s.saved == |entries|
      ensures !sizeSucceeds ==> s.saved == 0
      ensures !pipelineSucceeds || ProcessedCounterKey !in entries || FailedCounterKey !in entries ==>
        s.processed == 0 && s.failed == 0
      ensures pipelineSucceeds && ProcessedCounterKey in entries && FailedCounterKey in entries ==>
        s.processed == CounterValue(entries, ProcessedCounterKey) && s.failed == CounterValue(entries, FailedCounterKey)
    {
      var saved := if sizeSucceeds then Int32(|entries|) else 0;
      if pipelineSucceeds && ProcessedCounterKey in entries && FailedCounterKey in entries then
        StoreStats(saved, CounterValue(entries, ProcessedCounterKey), CounterValue(entries, FailedCounterKey))
      else
        StoreStats(saved, 0, 0)
    }
  }
}
