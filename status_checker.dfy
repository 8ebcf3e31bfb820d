/**
 * StatusCheckActor (models/status_checker.go): given a transaction
 * identifier, reads the stored value and, only when it does not parse,
 * saves a Failed record. As in the code, that record is the zero record
 * with its status forced to Failed, so it is saved under the zero record's
 * empty identifier, and the read status is never touched.
 */
module StatusChecking {
  import opened Wrappers
  import opened Transactions
  import opened Storage
  import opened Messages

  /** What a failed parse leaves in the local record, once its status is forced to Failed. */
  const Repaired := EmptyRecord.(status := Failed)

  /** The effect of one identifier message, given the outcomes of its Get and its Save. */
  function CheckStatus(entries: map<string, string>, id: string, getSucceeds: bool, saveSucceeds: bool): (e: StoreEffect)
    ensures 1 <= |e.calls| <= 2 && e.calls[0] == GetCall(id)
    ensures |e.calls| == 2 <==> getSucceeds && id in entries && Unmarshal(entries[id]).None?
    ensures |e.calls| == 2 ==> e.calls[1] == SaveCall(Repaired.id, RecordText(Repaired))
    ensures |e.calls| == 1 || !saveSucceeds ==> e.entries == entries
    ensures |e.calls| == 2 && saveSucceeds ==> e.entries == entries[Repaired.id := RecordText(Repaired)]
  {
    if !getSucceeds || id !in entries then StoreEffect([GetCall(id)], entries)
    else if Unmarshal(entries[id]).Some? then StoreEffect([GetCall(id)], entries)
    else
      var text := RecordText(Repaired);
      StoreEffect([GetCall(id), SaveCall(Repaired.id, text)],
                  if saveSucceeds then entries[Repaired.id := text] else entries)
  }

  /** The repaired record is saved under "", reads back as Failed, and its read status is not ReadProcessed. */
  lemma RepairedRecord()
    ensures Repaired.id == ""
    ensures Unmarshal(RecordText(Repaired)) == Some(Repaired)
    ensures Repaired.status == Failed
    ensures Repaired.checkReadStatus != ReadProcessed
  {
    assert Marshalable(Repaired);
  }

  /**
   * Whatever the handler writes is the repaired record under "": never under
   * the requested identifier (unless that is ""), never with ReadProcessed,
   * and every other entry stays as it was.
   */
  lemma CheckStatusWrites(entries: map<string, string>, id: string, getSucceeds: bool, saveSucceeds: bool)
    ensures var e := CheckStatus(entries, id, getSucceeds, saveSucceeds);
      && (forall k :: k in entries && k != "" ==> k in e.entries && e.entries[k] == entries[k])
      && (forall k :: k in e.entries && k != "" ==> k in entries)
      && ("" in e.entries && ("" !in entries || e.entries[""] != entries[""]) ==>
            e.entries[""] == RecordText(Repaired))
      && (id != "" && id in entries ==> e.entries[id] == entries[id])
  {
    var e := CheckStatus(entries, id, getSucceeds, saveSucceeds);
    if |e.calls| == 2 && saveSucceeds {
      assert e.entries == entries[Repaired.id := RecordText(Repaired)];
    } else {
      assert e.entries == entries;
    }
  }

  /**
   * A transaction the transaction handler saved successfully passes the
   * check untouched: its value parses, so nothing is written, and its read
   * status stays what it was (ReadPending for a new transaction).
   */
  lemma SavedTransactionNotRepaired(r: Record, entries: map<string, string>, saveSucceeds: bool)
    requires Marshalable(r)
    ensures var stored := entries[r.id := RecordText(r)];
      && CheckStatus(stored, r.id, true, saveSucceeds) == StoreEffect([GetCall(r.id)], stored)
      && Unmarshal(stored[r.id]) == Some(r)
  {
  }

  /**
   * A transaction that could not be marshalled was saved as "". The check
   * then repairs it under the key "", so the entry under its own identifier
   * stays "" while the Failed record lands elsewhere.
   */
  lemma UnmarshalableTransactionRepairedElsewhere(r: Record, entries: map<string, string>)
    requires !Marshalable(r) && r.id != ""
    ensures var stored := entries[r.id := RecordText(r)];
      var e := CheckStatus(stored, r.id, true, true);
      && |e.calls| == 2
      && e.entries[r.id] == ""
      && Unmarshal(e.entries[""]) == Some(Repaired)
  {
    var stored := entries[r.id := RecordText(r)];
    assert stored[r.id] == "";
    assert Unmarshal("").None?;
    RepairedRecord();
  }

  class StatusCheckActor {
    const storage: Store

    constructor (storage: Store)
      ensures this.storage == storage
    {
      this.storage := storage;
    }

    /**
     * The handler's local record: a zero transaction filled from `data`; when
     * that fails, the record forced to Failed and its text, to be saved
     * under the record's own (empty) identifier.
     */
    static method ParseOrRepair(data: string) returns (parsed: bool, key: string, text: string)
      ensures parsed <==> Unmarshal(data).Some?
      ensures !parsed ==> key == Repaired.id && text == RecordText(Repaired)
    {
      var transaction := new Transaction.Empty();
      parsed := transaction.Parse(data);
      key, text := "", "";
      if !parsed {
        transaction.status := Failed;
        assert transaction.Snapshot() == Repaired;
        key, text := transaction.id, transaction.Stringify();
      }
    }

    /**
     * Receive: an identifier message reads the store (a failed read ends the
     * handler), parses the value into a zero record, and only when parsing
     * fails forces that record to Failed and saves it under its own
     * identifier. Every other message touches nothing.
     */
    method Receive(msg: Message, getSucceeds: bool, saveSucceeds: bool)
      modifies storage
      ensures msg.IdMessage? ==>
        var e := CheckStatus(old(storage.entries), msg.id, getSucceeds, saveSucceeds);
        storage.entries == e.entries && storage.calls == old(storage.calls) + e.calls
      ensures !msg.IdMessage? ==>
        storage.entries == old(storage.entries) && storage.calls == old(storage.calls)
      ensures IsLifecycle(msg) ==> storage.entries == old(storage.entries) && storage.calls == old(storage.calls)
    {
      if msg.IdMessage? {
        var transactionId := msg.id;
        ghost var entries := storage.entries;
        var stored := storage.Get(transactionId, getSucceeds);
        if stored.Failure? {
          return;
        }
        var parsed, key, text := ParseOrRepair(stored.value);
        if !parsed {
          ghost var calls := storage.calls;
          var err := storage.Save(key, text, saveSucceeds);
          assert calls + [SaveCall(key, text)] == old(storage.calls) + [GetCall(transactionId), SaveCall(key, text)];
          if err.Some? {
            return;
          }
        }
      }
    }

    /** GetResults hands back the store's statistics unchanged. */
    function GetResults(sizeSucceeds: bool, pipelineSucceeds: bool): (s: StoreStats)
      reads storage
      ensures s == storage.GetStats(sizeSucceeds, pipelineSucceeds)
    {
      storage.GetStats(sizeSucceeds, pipelineSucceeds)
    }
  }
}
