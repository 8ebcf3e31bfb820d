/**
 * TransactionActor (models/transaction_processor.go): settles a pending
 * transaction as Processed or Failed and saves it under its identifier.
 * The random failure draw and the outcome of the save are inputs.
 */
module TransactionProcessing {
  import opened Wrappers
  import opened Transactions
  import opened Storage
  import opened Messages

  /** The terminal status the failure draw selects (`rand.Float32() < 0.05`). */
  function Settled(failureDraw: bool): (s: TransactionStatus)
    ensures s == Processed || s == Failed
    ensures s != Pending
    ensures s == Failed <==> failureDraw
  {
    if failureDraw then Failed else Processed
  }

  /** One transaction message: the record with its new status, and the single save it attempts. */
  function ProcessRecord(r: Record, entries: map<string, string>, failureDraw: bool, saveSucceeds: bool): (out: (Record, StoreEffect))
    ensures out.0 == r.(status := Settled(failureDraw))
    ensures out.1.calls == [SaveCall(r.id, RecordText(out.0))]
    ensures forall k :: k in entries && k != r.id ==> k in out.1.entries && out.1.entries[k] == entries[k]
    ensures forall k :: k in out.1.entries && k != r.id ==> k in entries
    ensures saveSucceeds ==> r.id in out.1.entries && out.1.entries[r.id] == RecordText(out.0)
    ensures !saveSucceeds ==> out.1.entries == entries
  {
    var settled := r.(status := Settled(failureDraw));
    var text := RecordText(settled);
    (settled, StoreEffect([SaveCall(r.id, text)], if saveSucceeds then entries[r.id := text] else entries))
  }

  /**
   * After a successful save of a record that marshals, the stored value
   * reads back as that record with a terminal status and its other fields
   * as they were.
   */
  lemma StoredTransactionReadsBack(r: Record, entries: map<string, string>, failureDraw: bool)
    requires Marshalable(r)
    ensures var out := ProcessRecord(r, entries, failureDraw, true);
      && r.id in out.1.entries
      && Unmarshal(out.1.entries[r.id]).Some?
      && var stored := Unmarshal(out.1.entries[r.id]).value;
      && stored.status != Pending
      && (stored.status == Failed <==> failureDraw)
      && stored.id == r.id && stored.amount == r.amount
      && stored.checkReadStatus == r.checkReadStatus && stored.createdAt == r.createdAt
  {
    var out := ProcessRecord(r, entries, failureDraw, true);
    assert Marshalable(out.0);
  }

  class TransactionActor {
    const storage: Store

    constructor (storage: Store)
      ensures this.storage == storage
    {
      this.storage := storage;
    }

    /**
     * Receive: a transaction message is settled in place and saved under its
     * identifier (a failed save ends the handler); every other message,
     * lifecycle notifications included, touches neither the store nor any
     * record.
     */
    method Receive(msg: Message, failureDraw: bool, saveSucceeds: bool)
      modifies storage, Payload(msg)
      ensures msg.TransactionMessage? ==>
        var out := ProcessRecord(old(msg.transaction.Snapshot()), old(storage.entries), failureDraw, saveSucceeds);
        && msg.transaction.Snapshot() == out.0
        && storage.entries == out.1.entries
        && storage.calls == old(storage.calls) + out.1.calls
      ensures !msg.TransactionMessage? ==>
        storage.entries == old(storage.entries) && storage.calls == old(storage.calls)
      ensures IsLifecycle(msg) ==> storage.entries == old(storage.entries) && storage.calls == old(storage.calls)
    {
      match msg
      case TransactionMessage(transaction) =>
        if failureDraw {
          transaction.UpdateStatus(Failed);
        } else {
          transaction.UpdateStatus(Processed);
        }
        var err := storage.Save(transaction.id, transaction.Stringify(), saveSucceeds);
        if err.Some? {
          return;
        }
      case _ =>
    }
  }
}
