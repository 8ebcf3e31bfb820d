/**
 * The messages an actor's Receive can be handed: the runtime's lifecycle
 * notifications, the two payload types of this pipeline, and anything else.
 */
module Messages {
  import opened Transactions

  datatype Message =
    | Started
    | Stopping
    | Stopped
    | Restarting
    | TransactionMessage(transaction: Transaction)  // a *data.Transaction
    | IdMessage(id: string)                         // a transaction ID string
    | OtherMessage

  predicate IsLifecycle(msg: Message) {
    msg.Started? || msg.Stopping? || msg.Stopped? || msg.Restarting?
  }

  /** The objects a message hands over by reference. */
  function Payload(msg: Message): set<object> {
    if msg.TransactionMessage? then {msg.transaction} else {}
  }
}
