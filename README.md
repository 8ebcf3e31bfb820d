# go-actor-model-sample in Dafny

This project models the transaction pipeline of go-actor-model-sample. Each
batch cycle spawns two pools of actors:

- the transaction actors, which settle each new transaction as Processed or
  Failed and save it in a key-value store;
- the status-check actors, which read a transaction back by its identifier
  and repair the stored value when it does not parse.

The cycle creates one transaction per item, each with a `T%05d` identifier.
Item i's transaction goes to slot `i % P` of the transaction pool, and its
identifier to slot `i % Q` of the status-check pool.

Modules, in dependency order:

- `Wrappers`: `Option` and `Result`.
- `Decimal`: decimal digits, `%05d` padding and reading numbers back.
- `JsonCodec`: the string and integer tokens of the JSON text.
- `Transactions` (data/transaction.go):
  - the record and its statuses;
  - the identifier;
  - Stringify/Parse, whose round trip is proved in both directions;
  - the `Transaction` class, updated in place.
- `Storage` (configs/storage.go): the `IStorage` store as a class over a map,
  with a ghost log of the calls issued; also the int32/int64 conversions of
  `GetStats`.
- `Messages`: what `ctx.Message()` can be.
- `TransactionProcessing` (models/transaction_processor.go).
- `StatusChecking` (models/status_checker.go).
- `Worker` (worker.go):
  - the actor system as a log of spawns and sends;
  - the pools, filled slot by slot;
  - the dispatch loop;
  - round-robin arithmetic and per-actor load.

Each imperative handler is a method whose `ensures` ties the new store (and
record) to a pure function: `ProcessRecord` for the transaction actor and
`CheckStatus` for the status-check actor. Lemmas about those functions state
what the handlers promise.

## Model

| member | source | states |
|---|---|---|
| Decimal.ValueOfDigits | data/transaction.go:66 | Reading back the decimal digits written for n yields n |
| Decimal.DigitsOfValue | data/transaction.go:66 | Every digit string without superfluous leading zeros is the decimal text of the number it denotes |
| Decimal.DigitsInjective | data/transaction.go:66 | Two numbers with the same decimal text are equal |
| Decimal.ZeroPadIsZeros | data/transaction.go:66 | `%05d` padding adds exactly width − length zeros on the left of a shorter text and leaves a longer one untouched (no truncation) |
| Decimal.ValueIgnoresLeadingZeros | data/transaction.go:66 | Leading zeros do not change the number a digit string denotes |
| Decimal.DigitsLength | data/transaction.go:66 | A number below 10^k has at most k digits |
| Decimal.DigitRunOf | data/transaction.go:60 | A digit string followed by a non-digit is read as exactly that digit run |
| JsonCodec.DecodeEncodeString | data/transaction.go:50-60 | Reading a written string literal gives back the string and what follows it |
| JsonCodec.DecodedStringIsEncoded | data/transaction.go:59-61 | Whatever the string reader accepts is a written string literal followed by the rest |
| JsonCodec.DecodeDigits | data/transaction.go:50-60 | Reading the digits of m before a non-digit gives back m |
| JsonCodec.DecodedNatIsDigits | data/transaction.go:59-61 | Whatever the natural-number reader accepts is the canonical digits of its value |
| JsonCodec.DecodeNegative | data/transaction.go:50-60 | A minus sign before the digits of m > 0 reads back as −m |
| JsonCodec.DecodeNonNegative | data/transaction.go:50-60 | The digits of m, not preceded by a sign, read back as m |
| JsonCodec.DecodeFormatInt | data/transaction.go:50-60 | Reading a written integer gives it back when no digit follows |
| JsonCodec.DecodedIntIsFormatted | data/transaction.go:59-61 | Whatever the integer reader accepts is a written integer followed by a non-digit or nothing |
| JsonCodec.StripPrefix | data/transaction.go:60 | Succeeds exactly when the literal is a prefix, and then returns what follows it |
| JsonCodec.StripWritten | data/transaction.go:50-60 | Stripping a literal just written returns the rest unchanged |
| Transactions.StatusNames | data/transaction.go:15-22 | The three transaction statuses are distinct, the two read statuses are distinct, and the read statuses reuse the names "Pending" and "Processed" |
| Transactions.PadDigitsValue | data/transaction.go:66 | `%05d` writes at least five digits, and they read back as the number |
| Transactions.PadDigitsBounded | data/transaction.go:66 | For a draw below 10,000,000, `%05d` writes at most seven digits |
| Transactions.GenerateTransactionId | data/transaction.go:64-67 | An identifier starts with 'T' and has at least six characters |
| Transactions.GeneratedIdLength | data/transaction.go:64-67 | For a draw from `rand.Intn(10000000)`, the identifier has 6 to 8 characters |
| Transactions.ParseGeneratedId | data/transaction.go:64-67 | The identifier reads back as the draw it was made from |
| Transactions.GeneratedIdsDistinct | data/transaction.go:64-67 | Distinct draws give distinct identifiers, so identifiers collide exactly when draws do |
| Transactions.NewRecordFields | data/transaction.go:35-42 | A new transaction has the drawn identifier, the given amount, Pending, read status Pending and the zero time; it marshals exactly when its amount is finite |
| Transactions.NewRecord | data/transaction.go:35-42 | NewTransaction's value: an identifier starting with 'T' of at least six characters, the given amount, both statuses Pending, the zero time; it marshals exactly when the amount is finite |
| Transactions.FieldNamesDistinct | data/transaction.go:25-31 | The five keys written for the struct's json tags are pairwise distinct |
| Transactions.Marshal | data/transaction.go:49-57 | Marshalling succeeds exactly when the amount is finite (json.Marshal rejects NaN and ±Inf) |
| Transactions.UnmarshalMarshal | data/transaction.go:49-61 | Every record that marshals is read back unchanged by Unmarshal |
| Transactions.Unmarshal | data/transaction.go:59-61 | `json.Unmarshal` on the stand-in codec: every record it yields has a finite amount, so it can be written again (MarshalUnmarshal gives the exact text) |
| Transactions.MarshalUnmarshal | data/transaction.go:59-61 | Unmarshal accepts only text Marshal writes: an accepted text is the marshalling of the record it yields |
| Transactions.RecordText | data/transaction.go:49-57 | Stringify gives "" exactly when marshalling fails; otherwise its text reads back as the record, and any text that parses reads back as the record |
| Transactions.Transaction.New | data/transaction.go:35-42 | NewTransaction fills the struct with the new record: the drawn identifier, the amount, both statuses Pending, the zero time |
| Transactions.Transaction.Empty | models/status_checker.go:47 | `data.Transaction{}` is the zero record |
| Transactions.Transaction.UpdateStatus | data/transaction.go:45-47 | Sets the status and leaves every other field unchanged |
| Transactions.Transaction.Stringify | data/transaction.go:49-57 | Returns the text of the struct's current contents |
| Transactions.Transaction.Parse | data/transaction.go:59-61 | Succeeds exactly when the text unmarshals; on success the struct holds the decoded record, on failure it is unchanged |
| Storage.Int32 | configs/storage.go:83 | Go's `int32(x)`: the result is in int32 range, congruent to x modulo 2^32, and equal to x when x is in range |
| Storage.ParseInt64 | configs/storage.go:96 | `strconv.ParseInt(s, 10, 64)`: any value it yields is in int64 range |
| Storage.ParseFormattedInt64 | configs/storage.go:96-100 | Every int64 written in decimal parses back to itself |
| Storage.CounterValue | configs/storage.go:96-101 | A counter reads as an int32; an unparsable value counts 0, and an in-range value counts as itself |
| Storage.CounterReadsWritten | configs/storage.go:96-101 | A counter holding the decimal text of an int32 reads back as that number |
| Storage.Store.constructor | configs/storage.go:50-52 | A new store holds the given entries and has issued no calls |
| Storage.Store.Save | configs/storage.go:54-61 | Logs one Save; on success writes the key, on failure returns WriteFailed and changes nothing |
| Storage.Store.Get | configs/storage.go:63-70 | Logs one Get and changes nothing; returns the stored value exactly when the call succeeds and the key exists, else ReadFailed |
| Storage.Store.Delete | configs/storage.go:72-78 | Logs one Delete; on success removes the key, on failure returns DeleteFailed and changes nothing |
| Storage.Store.GetStats | configs/storage.go:80-105 | Saved is the key count narrowed to int32, or 0 when the count fails; the two counters are read only when the pipeline succeeds and both keys exist, else both are 0; every field is in int32 range |
| TransactionProcessing.Settled | models/transaction_processor.go:41-45 | The new status is Failed exactly when the failure draw holds, otherwise Processed, and never Pending |
| TransactionProcessing.ProcessRecord | models/transaction_processor.go:39-51 | Only the status changes; exactly one Save is attempted, under the record's own identifier with its text; a failed Save leaves the store as it was; no other key changes |
| TransactionProcessing.StoredTransactionReadsBack | models/transaction_processor.go:39-51 | After a successful save of a record that marshals, the stored value reads back as that record, now Processed or Failed, with its other fields unchanged |
| TransactionProcessing.TransactionActor.constructor | models/transaction_processor.go:21-23 | The actor keeps the store it is given |
| TransactionProcessing.TransactionActor.Receive | models/transaction_processor.go:25-55 | A transaction message settles the shared record in place and performs ProcessRecord's store effect; lifecycle and other messages touch neither the store nor the call log |
| StatusChecking.CheckStatus | models/status_checker.go:39-56 | One Get of the identifier first. A second call, a Save, happens exactly when the read succeeds and the value does not parse. It writes the repaired record's text under the repaired record's key, and a successful Save leaves the store as before with that one entry set. Otherwise, or when that Save fails, the store is unchanged |
| StatusChecking.RepairedRecord | models/status_checker.go:47-50 | The repaired record is saved under the empty key, reads back as itself, is Failed, and does not have read status Processed |
| StatusChecking.CheckStatusWrites | models/status_checker.go:39-56 | When parsing fails on a syntax error (the only failure modelled), the handler never changes a non-empty key, including the requested identifier; any change to the "" entry is the repaired record's text |
| StatusChecking.SavedTransactionNotRepaired | models/status_checker.go:47-56 | A transaction that was saved with its text passes the check with a single Get and no write |
| StatusChecking.UnmarshalableTransactionRepairedElsewhere | models/status_checker.go:47-50 | A transaction saved as "" (because it did not marshal) is repaired under "", so its own entry stays "" |
| StatusChecking.StatusCheckActor.constructor | models/status_checker.go:21-23 | The actor keeps the store it is given |
| StatusChecking.StatusCheckActor.ParseOrRepair | models/status_checker.go:47-50 | Parsing into a zero record succeeds exactly when the text unmarshals; otherwise the result is the Failed zero record's text and its empty identifier |
| StatusChecking.StatusCheckActor.Receive | models/status_checker.go:25-60 | An identifier message performs exactly CheckStatus's calls and store effect; lifecycle notifications and every other message touch neither the store nor the call log |
| StatusChecking.StatusCheckActor.GetResults | models/status_checker.go:62-64 | Returns exactly the store's GetStats triple |
| Worker.ActorSystem.constructor | worker.go:73-75 | A new actor system has no actors and no messages |
| Worker.ActorSystem.Spawn | worker.go:84-87 | Spawning appends one actor and returns the next address |
| Worker.ActorSystem.Send | worker.go:106 | Sending appends one envelope to the log and nothing else |
| Worker.Slot | worker.go:106 | The round-robin slot is always below the pool size |
| Worker.SlotIsMod | worker.go:106-109 | Counting off items round by round is Euclidean division: slot `i % p` and round `i / p` |
| Worker.SlotLoad | worker.go:98-111 | Among n items, a slot receives at most n |
| Worker.SlotLoadExact | worker.go:98-111 | Among n items, slot s receives n / p items, plus one when s < n % p |
| Worker.DefaultPoolLoad | worker.go:24-29 | With 100,000 items and pools of 100, each slot of either pool receives exactly 1,000 items |
| Worker.NewRecords | worker.go:98-105 | One new record per item |
| Worker.NewRecordsAt | worker.go:104-105 | Item i becomes NewTransaction(amounts[i]) with the i-th draw |
| Worker.NewRecordIds | worker.go:105-109 | The identifier of item i is the one generated from its draw |
| Worker.Routing | worker.go:98-111 | The dispatch of n items sends exactly 2n messages |
| Worker.RoutingStep | worker.go:98-111 | One more item appends its transaction message and then its identifier message |
| Worker.RoutingAt | worker.go:106-109 | Message 2i carries item i's transaction to transaction slot i % P; message 2i + 1 carries its identifier to status slot i % Q |
| Worker.PoolRouting | worker.go:79-109 | With pools filled in spawn order, item i goes to actor i % P and its identifier to actor P + i % Q |
| Worker.Received | worker.go:98-111 | An actor receives at most as many messages as were sent |
| Worker.ReceivedAppend | worker.go:98-111 | The messages an actor receives from two logs add up |
| Worker.TransactionActorLoad | worker.go:98-111 | In a round-robin log, transaction actor s receives exactly SlotLoad(n, P, s) messages |
| Worker.StatusActorLoad | worker.go:98-111 | In a round-robin log, status-check actor P + s receives exactly SlotLoad(n, Q, s) messages |
| Worker.DefaultCycleLoad | worker.go:24-29 | With the constants of worker.go, each of the 200 actors receives exactly 1,000 messages |
| Worker.TransactionWorkerService.constructor | worker.go:36-41 | The service keeps its two processors |
| Worker.TransactionWorkerService.SpawnPool | worker.go:83-88 | Spawns `size` actors sharing one behaviour; slot i of the new array names the i-th; earlier actors and sends are untouched |
| Worker.TransactionWorkerService.SpawnPools | worker.go:79-94 | Both arrays have their pool size; slot i of each names its i-th actor; each transaction actor is backed by the one transaction processor and each status-check actor by the one status-check processor |
| Worker.TransactionWorkerService.DispatchOne | worker.go:100-110 | Creates a fresh transaction holding NewRecord; sends it, then its identifier; spawns nothing |
| Worker.TransactionWorkerService.Dispatch | worker.go:96-113 | The send log grows by exactly the round-robin routing of the new transactions, in item order; records are NewRecords of the inputs; no actor is spawned |
| Worker.TransactionWorkerService.ProcessTransactions | worker.go:71-113 | A cycle has P + Q actors, the first P backed by the transaction processor and the rest by the status-check processor. It sends 2N messages: item i's transaction to actor i % P, then its generated identifier to actor P + i % Q. The log is a round-robin log |

## Left out

- The actor runtime, goroutines, `sync.WaitGroup` and delivery: the dispatch
  loop is sequential in item order, and the model records the messages sent,
  not their processing. Each handler is modelled for one message against a
  given store.
- Worker.TransactionWorkerService.ProcessTransactions: stops at the barrier
  (worker.go:113). The `GetResults` call after it (worker.go:116) is
  `StatusCheckActor.GetResults`. Delivery is not modelled, so no
  post-processing statistics are stated for a cycle.
- Worker.TransactionWorkerService.Dispatch: `records` are the transactions'
  contents when created, not their current contents, and freshness is stated
  per item by DispatchOne only. Once a transaction is sent, the transaction
  actor updates it concurrently.
- The race in worker.go:106-109, reading `transaction.ID` after the
  transaction is sent, cannot change the identifier. The transaction actor
  only writes the status, so the identifier message carries the generated
  identifier.
- Randomness becomes parameters:
  - the identifier draw (`rand.Intn(10000000)`, from the package-level
    source; see the notes on reseeding below);
  - the failure draw (`rand.Float32() < 0.05`);
  - the amount (`rand.Float64() * 100`).

  The 5% failure rate is statistical and not stated.
- float64 amounts become `Amount`: an integer for a finite value, or NaN or
  ±Inf. Floating-point arithmetic and decimal rendering of fractions are not
  modelled. `time.Time` becomes a tick count, so `time.Time`'s own marshalling
  failures (years outside 0–9999) are not modelled.
- `encoding/json` is replaced by a concrete JSON-shaped codec:
  - fixed key order;
  - only `\"` and `\\` escapes;
  - integers for the amount and the time.

  Its two round-trip properties are proved. JSON's other accepted forms
  (whitespace, reordered or missing keys, unicode escapes) and the partial
  fills `json.Unmarshal` performs on type errors are not modelled. A failed
  Parse leaves the record unchanged.
- StatusChecking.CheckStatus: the repair is always saved under the empty key
  "", because partial fills are not modelled. Go saves under a non-empty
  decoded identifier when the stored text is valid JSON with a type error
  after the `id` field. Text the program writes never has that form.
  CheckStatusWrites and the README statements about the repair key hold
  only for the syntax-error case the model covers.
- Storage.Store: Redis transport, the 2-minute TTL, logging and error text
  are not modelled. Each call's success is a parameter, and `DBSize`
  becomes the number of entries.
- Tracing spans (`OtelTracer`, `initTracer`), cron scheduling
  (`StartWorkerService`), `main.go` and all logging are not modelled.
- actor_utils.go is not part of this model. It redeclares the pool sizes in
  the same package with other values, so the pool sizes are parameters here
  and the worker.go constants appear only in DefaultPoolLoad and
  DefaultCycleLoad.

### Notes on the code's behaviour

- Identifiers: the comment at data/transaction.go:63 calls the identifier
  "unique", but `T%05d` of a draw below 10,000,000 gives 5 to 7 digits, and
  two transactions get the same identifier exactly when their draws are equal
  (GeneratedIdsDistinct).
- The comment at data/transaction.go:28 names the statuses Pending,
  Completed and Failed. The constants (data/transaction.go:16-18) are
  Pending, Processed and Failed, and the model uses the constants.
- Nothing in the code sets `created_at`: every record keeps the zero time.
  Nothing sets `read_status` after creation either: it stays Pending.
- The identifier message is sent by the dispatch loop (worker.go:109), not by
  the transaction actor.
- The status-check actor saves only when parsing fails. The value it saves is
  the zero record with its status forced to Failed, under that record's `ID`.
  When `json.Unmarshal` fails on a syntax error, `ID` is still empty, so the
  save goes under the key "". This covers everything the program itself
  writes, including the "" stored for a transaction that does not marshal.
  The requested identifier's own entry is then left as it was
  (CheckStatusWrites, UnmarshalableTransactionRepairedElsewhere). When the text
  is valid JSON with a type error after `id`, Go has already filled `ID`, so
  the save goes under the decoded identifier; the model does not cover this
  case (see StatusChecking.CheckStatus under "## Left out").
- The barrier (`wg.Wait`) waits only for the sends, not for the actors'
  processing.
- GetStats reads its counters through one pipeline. The pipeline reports the
  first failing command, and reading a missing key fails. So when either
  counter key is missing, both counters read 0.
- The reseeding lines have no effect. data/transaction.go:65 and
  worker.go:103 each build a clock-seeded `*rand.Rand` and discard it.
  data/transaction.go:66 and worker.go:104 then call the package-level
  `rand.Intn` and `rand.Float64`, which this code never seeds.
