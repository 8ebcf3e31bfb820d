/**
 * The batch cycle of worker.go (processTransactions): two pools of actors
 * spawned over one shared processor each, and round-robin dispatch of a
 * batch of new transactions, item i going to slot i mod pool size.
 * Goroutines and message delivery are not modelled: the dispatch is the
 * sequence of sends in item order, recorded by the actor system.
 */
module Worker {
  import opened Transactions
  import opened Messages
  import opened TransactionProcessing
  import opened StatusChecking

  /** The constants of worker.go; the methods below take the pool sizes as parameters. */
  const TransactionActorPoolSize: nat := 100
  const StatusCheckActorPoolSize: nat := 100
  const NumTransactions: nat := 100_000

  /** An actor's address: its position in the order of spawning. */
  datatype Pid = Pid(index: nat)

  /** The processor instance an actor's producer hands back. */
  datatype Behaviour =
    | RunsTransactions(transactionActor: TransactionActor)
    | RunsStatusChecks(statusCheckActor: StatusCheckActor)

  datatype Envelope = Envelope(target: Pid, message: Message)

  /** The actor system as far as the cycle uses it: the actors spawned and the messages sent, in order. */
  class ActorSystem {
    var actors: seq<Behaviour>
    var sent: seq<Envelope>

    constructor ()
      ensures actors == [] && sent == []
    {
      actors := [];
      sent := [];
    }

    method Spawn(behaviour: Behaviour) returns (pid: Pid)
      modifies this
      ensures pid == Pid(|old(actors)|)
      ensures actors == old(actors) + [behaviour] && sent == old(sent)
    {
      pid := Pid(|actors|);
      actors := actors + [behaviour];
    }

    method Send(target: Pid, message: Message)
      modifies this
      ensures sent == old(sent) + [Envelope(target, message)] && actors == old(actors)
    {
      sent := sent + [Envelope(target, message)];
    }
  }

  // ---------------------------------------------------------------------------
  // Round-robin load

  /** The slot `i % p` of item i, counted off round by round. */
  function Slot(i: nat, p: nat): (s: nat)
    requires p > 0
    ensures s < p
    decreases i
  {
    if i < p then i else Slot(i - p, p)
  }

  /** The number of full rounds `i / p` before item i. */
  function Round(i: nat, p: nat): nat
    requires p > 0
    decreases i
  {
    if i < p then 0 else Round(i - p, p) + 1
  }

  /** How many of the items 0 .. n-1 round-robin routing sends to slot s. */
  function SlotLoad(n: nat, p: nat, s: nat): (c: nat)
    requires p > 0
    ensures c <= n
  {
    if n == 0 then 0 else SlotLoad(n - 1, p, s) + (if Slot(n - 1, p) == s then 1 else 0)
  }

  lemma MulGrows(p: nat, k: int)
    requires p > 0 && k > 0
    ensures p * k >= p
  {
    assert p * k == p * (k - 1) + p;
  }

  /** Division with remainder has one answer. */
  lemma DivModUnique(m: nat, p: nat, q: int, r: int)
    requires p > 0 && 0 <= r < p && m == p * q + r
    ensures m / p == q && m % p == r
  {
    var q0, r0 := m / p, m % p;
    assert p * q0 + r0 == p * q + r;
    var k := q - q0;
    assert p * k == r0 - r;
    if k > 0 {
      MulGrows(p, k);
      assert false;
    } else if k < 0 {
      MulGrows(p, -k);
      assert false;
    }
  }

  lemma {:induction false} RoundsAndSlot(i: nat, p: nat)
    requires p > 0
    ensures i == p * Round(i, p) + Slot(i, p)
    decreases i
  {
    if i >= p {
      RoundsAndSlot(i - p, p);
      assert p * (Round(i - p, p) + 1) == p * Round(i - p, p) + p;
    }
  }

  /** Counting off round by round is Euclidean division: the slot is `i % p`, the round `i / p`. */
  lemma SlotIsMod(i: nat, p: nat)
    requires p > 0
    ensures Slot(i, p) == i % p && Round(i, p) == i / p
  {
    RoundsAndSlot(i, p);
    DivModUnique(i, p, Round(i, p), Slot(i, p));
  }

  /** The item after the last slot of a round opens the next round at slot 0. */
  lemma {:induction false} SlotStep(n: nat, p: nat)
    requires p > 0
    ensures Slot(n, p) == p - 1 ==> Slot(n + 1, p) == 0 && Round(n + 1, p) == Round(n, p) + 1
    ensures Slot(n, p) < p - 1 ==> Slot(n + 1, p) == Slot(n, p) + 1 && Round(n + 1, p) == Round(n, p)
    decreases n
  {
    if n >= p {
      SlotStep(n - p, p);
    }
  }

  lemma {:induction false} SlotLoadRounds(n: nat, p: nat, s: nat)
    requires p > 0 && s < p
    ensures SlotLoad(n, p, s) == Round(n, p) + (if s < Slot(n, p) then 1 else 0)
    decreases n
  {
    if n > 0 {
      SlotLoadRounds(n - 1, p, s);
      SlotStep(n - 1, p);
    }
  }

  /** Every slot gets n / p items, and the first n % p slots one more. */
  lemma SlotLoadExact(n: nat, p: nat, s: nat)
    requires p > 0 && s < p
    ensures SlotLoad(n, p, s) == n / p + (if s < n % p then 1 else 0)
  {
    SlotLoadRounds(n, p, s);
    SlotIsMod(n, p);
  }

  /** With the constants of worker.go, each of the 100 slots of either pool receives exactly 1,000 transactions. */
  lemma DefaultPoolLoad(s: nat)
    requires s < TransactionActorPoolSize
    ensures SlotLoad(NumTransactions, TransactionActorPoolSize, s) == 1_000
    ensures SlotLoad(NumTransactions, StatusCheckActorPoolSize, s) == 1_000
  {
    SlotLoadExact(NumTransactions, TransactionActorPoolSize, s);
    SlotLoadExact(NumTransactions, StatusCheckActorPoolSize, s);
  }

  // ---------------------------------------------------------------------------
  // The cycle

  /** The records NewTransaction builds for each amount and draw, in order. */
  function NewRecords(amounts: seq<Amount>, idDraws: seq<nat>): (r: seq<Record>)
    requires |idDraws| == |amounts|
    ensures |r| == |amounts|
    decreases |amounts|
  {
    if amounts == [] then []
    else
      var n := |amounts| - 1;
      NewRecords(amounts[..n], idDraws[..n]) + [NewRecord(amounts[n], idDraws[n])]
  }

  lemma NewRecordsStep(amounts: seq<Amount>, idDraws: seq<nat>, i: nat)
    requires |idDraws| == |amounts| && i < |amounts|
    ensures NewRecords(amounts[..i + 1], idDraws[..i + 1]) ==
      NewRecords(amounts[..i], idDraws[..i]) + [NewRecord(amounts[i], idDraws[i])]
  {
    assert amounts[..i + 1][..i] == amounts[..i];
    assert idDraws[..i + 1][..i] == idDraws[..i];
  }

  /** Item i of the batch becomes NewTransaction(amounts[i]) with the i-th draw. */
  lemma {:induction false} NewRecordsAt(amounts: seq<Amount>, idDraws: seq<nat>, i: nat)
    requires |idDraws| == |amounts| && i < |amounts|
    ensures NewRecords(amounts, idDraws)[i] == NewRecord(amounts[i], idDraws[i])
    decreases |amounts|
  {
    var n := |amounts| - 1;
    if i < n {
      NewRecordsAt(amounts[..n], idDraws[..n], i);
    }
  }

  /** The identifier of item i is the one drawn for it. */
  lemma NewRecordIds(amounts: seq<Amount>, idDraws: seq<nat>)
    requires |idDraws| == |amounts|
    ensures forall i :: 0 <= i < |amounts| ==> NewRecords(amounts, idDraws)[i].id == GenerateTransactionId(idDraws[i])
  {
    forall i | 0 <= i < |amounts|
      ensures NewRecords(amounts, idDraws)[i].id == GenerateTransactionId(idDraws[i])
    {
      NewRecordsAt(amounts, idDraws, i);
    }
  }

  /**
   * The messages the dispatch loop sends for items 0 .. |transactions| - 1,
   * in order; `records` are the transactions' contents.
   */
  function Routing(transactionPids: seq<Pid>, statusPids: seq<Pid>,
                   transactions: seq<Transaction>, records: seq<Record>): (r: seq<Envelope>)
    requires |transactionPids| > 0 && |statusPids| > 0 && |records| == |transactions|
    ensures |r| == 2 * |transactions|
    decreases |transactions|
  {
    if transactions == [] then []
    else
      var n := |transactions| - 1;
      Routing(transactionPids, statusPids, transactions[..n], records[..n])
      + [Envelope(transactionPids[n % |transactionPids|], TransactionMessage(transactions[n])),
         Envelope(statusPids[n % |statusPids|], IdMessage(records[n].id))]
  }

  lemma RoutingStep(transactionPids: seq<Pid>, statusPids: seq<Pid>,
                    transactions: seq<Transaction>, records: seq<Record>, transaction: Transaction, record: Record)
    requires |transactionPids| > 0 && |statusPids| > 0 && |records| == |transactions|
    ensures Routing(transactionPids, statusPids, transactions + [transaction], records + [record]) ==
      Routing(transactionPids, statusPids, transactions, records) +
      [Envelope(transactionPids[|transactions| % |transactionPids|], TransactionMessage(transaction)),
       Envelope(statusPids[|transactions| % |statusPids|], IdMessage(record.id))]
  {
    assert (transactions + [transaction])[..|transactions|] == transactions;
    assert (records + [record])[..|records|] == records;
  }

  /** Item i's transaction goes to transaction slot i mod P, then its identifier to status slot i mod Q. */
  lemma {:induction false} RoutingAt(transactionPids: seq<Pid>, statusPids: seq<Pid>,
                                     transactions: seq<Transaction>, records: seq<Record>, i: nat)
    requires |transactionPids| > 0 && |statusPids| > 0 && |records| == |transactions|
    requires i < |transactions|
    ensures var r := Routing(transactionPids, statusPids, transactions, records);
      && r[2 * i] == Envelope(transactionPids[i % |transactionPids|], TransactionMessage(transactions[i]))
      && r[2 * i + 1] == Envelope(statusPids[i % |statusPids|], IdMessage(records[i].id))
    decreases |transactions|
  {
    var n := |transactions| - 1;
    if i < n {
      RoutingAt(transactionPids, statusPids, transactions[..n], records[..n], i);
    }
  }

  lemma SliceAppend<T>(s: seq<T>, base: nat, t: seq<T>)
    requires base <= |s|
    ensures (s + t)[..base] == s[..base] && (s + t)[base..] == s[base..] + t
  {
  }

  /**
   * With pools whose slot k names the k-th actor of its pool, item i's
   * transaction goes to actor i % P of the transaction pool and the
   * identifier drawn for it to actor i % Q of the status-check pool.
   */
  lemma PoolRouting(transactionPids: seq<Pid>, statusPids: seq<Pid>,
                    transactions: seq<Transaction>, records: seq<Record>)
    requires |transactionPids| > 0 && |statusPids| > 0 && |records| == |transactions|
    requires forall k :: 0 <= k < |transactionPids| ==> transactionPids[k] == Pid(k)
    requires forall k :: 0 <= k < |statusPids| ==> statusPids[k] == Pid(|transactionPids| + k)
    ensures var r := Routing(transactionPids, statusPids, transactions, records);
      forall i :: 0 <= i < |transactions| ==>
        && r[2 * i] == Envelope(Pid(i % |transactionPids|), TransactionMessage(transactions[i]))
        && r[2 * i + 1] == Envelope(Pid(|transactionPids| + i % |statusPids|), IdMessage(records[i].id))
  {
    forall i | 0 <= i < |transactions|
      ensures var r := Routing(transactionPids, statusPids, transactions, records);
        && r[2 * i] == Envelope(Pid(i % |transactionPids|), TransactionMessage(transactions[i]))
        && r[2 * i + 1] == Envelope(Pid(|transactionPids| + i % |statusPids|), IdMessage(records[i].id))
    {
      RoutingAt(transactionPids, statusPids, transactions, records, i);
      SlotIsMod(i, |transactionPids|);
      SlotIsMod(i, |statusPids|);
    }
  }

  /** How many of the envelopes in `sent` are addressed to `target`. */
  function Received(sent: seq<Envelope>, target: Pid): (c: nat)
    ensures c <= |sent|
  {
    if sent == [] then 0
    else Received(sent[..|sent| - 1], target) + (if sent[|sent| - 1].target == target then 1 else 0)
  }

  lemma {:induction false} ReceivedAppend(a: seq<Envelope>, b: seq<Envelope>, target: Pid)
    ensures Received(a + b, target) == Received(a, target) + Received(b, target)
    decreases |b|
  {
    if b != [] {
      var n := |b| - 1;
      assert (a + b)[..|a + b| - 1] == a + b[..n];
      ReceivedAppend(a, b[..n], target);
    } else {
      assert a + b == a;
    }
  }

  lemma ReceivedPair(first: Envelope, second: Envelope, target: Pid)
    ensures Received([first, second], target) ==
      (if first.target == target then 1 else 0) + (if second.target == target then 1 else 0)
  {
    assert [first, second][..1] == [first];
    assert [first][..0] == [];
  }

  /**
   * The shape of the cycle's send log: for each item i, first a message to
   * actor i % P of the transaction pool, then one to actor P + i % Q of the
   * status-check pool.
   */
  predicate RoundRobinLog(sent: seq<Envelope>, P: nat, Q: nat, n: nat)
    requires P > 0 && Q > 0
  {
    && |sent| == 2 * n
    && forall i :: 0 <= i < n ==> sent[2 * i].target == Pid(i % P) && sent[2 * i + 1].target == Pid(P + i % Q)
  }

  lemma RoundRobinLogPrefix(sent: seq<Envelope>, P: nat, Q: nat, n: nat)
    requires P > 0 && Q > 0 && n > 0 && RoundRobinLog(sent, P, Q, n)
    ensures RoundRobinLog(sent[..2 * n - 2], P, Q, n - 1)
    ensures sent == sent[..2 * n - 2] + [sent[2 * n - 2], sent[2 * n - 1]]
  {
    assert sent[2 * (n - 1)] == sent[2 * n - 2];
  }

  /** Under round-robin routing, each transaction actor receives exactly the items of its slot. */
  lemma {:induction false} TransactionActorLoad(sent: seq<Envelope>, P: nat, Q: nat, n: nat, s: nat)
    requires P > 0 && Q > 0 && s < P && RoundRobinLog(sent, P, Q, n)
    ensures Received(sent, Pid(s)) == SlotLoad(n, P, s)
    decreases n
  {
    if n > 0 {
      var prev := sent[..2 * n - 2];
      RoundRobinLogPrefix(sent, P, Q, n);
      TransactionActorLoad(prev, P, Q, n - 1, s);
      SlotIsMod(n - 1, P);
      assert sent[2 * (n - 1)].target == Pid(Slot(n - 1, P)) && sent[2 * (n - 1) + 1].target != Pid(s);
      ReceivedAppend(prev, [sent[2 * n - 2], sent[2 * n - 1]], Pid(s));
      ReceivedPair(sent[2 * n - 2], sent[2 * n - 1], Pid(s));
    }
  }

  /** Under round-robin routing, each status-check actor receives exactly the items of its slot. */
  lemma {:induction false} StatusActorLoad(sent: seq<Envelope>, P: nat, Q: nat, n: nat, s: nat)
    requires P > 0 && Q > 0 && s < Q && RoundRobinLog(sent, P, Q, n)
    ensures Received(sent, Pid(P + s)) == SlotLoad(n, Q, s)
    decreases n
  {
    if n > 0 {
      var prev := sent[..2 * n - 2];
      RoundRobinLogPrefix(sent, P, Q, n);
      StatusActorLoad(prev, P, Q, n - 1, s);
      SlotIsMod(n - 1, Q);
      assert sent[2 * (n - 1)].target != Pid(P + s) && sent[2 * (n - 1) + 1].target == Pid(P + Slot(n - 1, Q));
      ReceivedAppend(prev, [sent[2 * n - 2], sent[2 * n - 1]], Pid(P + s));
      ReceivedPair(sent[2 * n - 2], sent[2 * n - 1], Pid(P + s));
    }
  }

  /** With the constants of worker.go, each of the 200 actors receives exactly 1,000 messages. */
  lemma DefaultCycleLoad(sent: seq<Envelope>, s: nat)
    requires s < TransactionActorPoolSize
    requires RoundRobinLog(sent, TransactionActorPoolSize, StatusCheckActorPoolSize, NumTransactions)
    ensures Received(sent, Pid(s)) == 1_000
    ensures Received(sent, Pid(TransactionActorPoolSize + s)) == 1_000
  {
    TransactionActorLoad(sent, TransactionActorPoolSize, StatusCheckActorPoolSize, NumTransactions, s);
    StatusActorLoad(sent, TransactionActorPoolSize, StatusCheckActorPoolSize, NumTransactions, s);
    DefaultPoolLoad(s);
  }

  class TransactionWorkerService {
    const transactionProcessor: TransactionActor
    const statusCheckProcessor: StatusCheckActor

    constructor (transactionProcessor: TransactionActor, statusCheckProcessor: StatusCheckActor)
      ensures this.transactionProcessor == transactionProcessor
      ensures this.statusCheckProcessor == statusCheckProcessor
    {
      this.transactionProcessor := transactionProcessor;
      this.statusCheckProcessor := statusCheckProcessor;
    }

    /** Spawns `size` actors with one behaviour; slot i of the array names the i-th of them. */
    static method SpawnPool(system: ActorSystem, behaviour: Behaviour, size: nat) returns (pids: array<Pid>)
      modifies system
      ensures fresh(pids) && pids.Length == size
      ensures system.sent == old(system.sent)
      ensures |system.actors| == |old(system.actors)| + size
      ensures system.actors[..|old(system.actors)|] == old(system.actors)
      ensures forall k :: |old(system.actors)| <= k < |system.actors| ==> system.actors[k] == behaviour
      ensures forall i :: 0 <= i < size ==> pids[i] == Pid(|old(system.actors)| + i)
    {
      var start := |system.actors|;
      pids := new Pid[size];
      for i := 0 to size
        invariant |system.actors| == start + i
        invariant system.actors[..start] == old(system.actors) && system.sent == old(system.sent)
        invariant forall k :: start <= k < |system.actors| ==> system.actors[k] == behaviour
        invariant forall j :: 0 <= j < i ==> pids[j] == Pid(start + j)
      {
        ghost var before := system.actors;
        var pid := system.Spawn(behaviour);
        assert forall k :: 0 <= k < |before| ==> system.actors[k] == before[k];
        pids[i] := pid;
      }
    }

    /**
     * Fills both pool arrays slot by slot with newly spawned actors: slot i
     * of each array names its own actor, and every actor of a pool is backed
     * by the service's one processor of that role.
     */
    method SpawnPools(system: ActorSystem, transactionPoolSize: nat, statusPoolSize: nat)
      returns (transactionPids: array<Pid>, statusPids: array<Pid>)
      modifies system
      ensures fresh(transactionPids) && fresh(statusPids)
      ensures transactionPids.Length == transactionPoolSize && statusPids.Length == statusPoolSize
      ensures system.sent == old(system.sent)
      ensures |system.actors| == |old(system.actors)| + transactionPoolSize + statusPoolSize
      ensures system.actors[..|old(system.actors)|] == old(system.actors)
      ensures forall i :: 0 <= i < transactionPoolSize ==> transactionPids[i] == Pid(|old(system.actors)| + i)
      ensures forall i :: 0 <= i < statusPoolSize ==>
        statusPids[i] == Pid(|old(system.actors)| + transactionPoolSize + i)
      ensures forall k :: |old(system.actors)| <= k < |old(system.actors)| + transactionPoolSize ==>
        system.actors[k] == RunsTransactions(transactionProcessor)
      ensures forall k :: |old(system.actors)| + transactionPoolSize <= k < |system.actors| ==>
        system.actors[k] == RunsStatusChecks(statusCheckProcessor)
    {
      ghost var start := |system.actors|;
      transactionPids := SpawnPool(system, RunsTransactions(transactionProcessor), transactionPoolSize);
      ghost var middle := system.actors;
      statusPids := SpawnPool(system, RunsStatusChecks(statusCheckProcessor), statusPoolSize);
      assert forall k :: 0 <= k < |middle| ==> system.actors[k] == middle[k];
    }

    /** One item of the dispatch loop: a new transaction to one actor, its identifier to another. */
    static method DispatchOne(system: ActorSystem, transactionPid: Pid, statusPid: Pid, amount: Amount, idDraw: nat)
      returns (transaction: Transaction)
      modifies system
      ensures fresh(transaction) && transaction.Snapshot() == NewRecord(amount, idDraw)
      ensures system.actors == old(system.actors)
      ensures system.sent == old(system.sent) +
        [Envelope(transactionPid, TransactionMessage(transaction)), Envelope(statusPid, IdMessage(transaction.id))]
    {
      transaction := new Transaction.New(amount, idDraw);
      system.Send(transactionPid, TransactionMessage(transaction));
      system.Send(statusPid, IdMessage(transaction.id));
    }

    /**
     * The dispatch loop: item i becomes a new transaction, sent to slot
     * i % P of the transaction pool, and then its identifier, sent to slot
     * i % Q of the status-check pool. `records` are what the transactions
     * hold when created; once sent, the actors may change them concurrently.
     */
    static method Dispatch(system: ActorSystem, transactionPids: seq<Pid>, statusPids: seq<Pid>,
                           amounts: seq<Amount>, idDraws: seq<nat>)
      returns (transactions: seq<Transaction>, ghost records: seq<Record>)
      requires |transactionPids| > 0 && |statusPids| > 0
      requires |idDraws| == |amounts|
      modifies system
      ensures system.actors == old(system.actors)
      ensures |transactions| == |amounts| && records == NewRecords(amounts, idDraws)
      ensures system.sent == old(system.sent) + Routing(transactionPids, statusPids, transactions, records)
    {
      transactions := [];
      records := [];
      var base := |system.sent|;
      for i := 0 to |amounts|
        invariant |transactions| == i
        invariant system.actors == old(system.actors)
        invariant records == NewRecords(amounts[..i], idDraws[..i])
        invariant base <= |system.sent|
        invariant system.sent[..base] == old(system.sent)
        invariant system.sent[base..] == Routing(transactionPids, statusPids, transactions, records)
      {
        ghost var before := system.sent;
        var transaction := DispatchOne(system, transactionPids[i % |transactionPids|],
                                       statusPids[i % |statusPids|], amounts[i], idDraws[i]);
        ghost var record := transaction.Snapshot();
        SliceAppend(before, base, [Envelope(transactionPids[i % |transactionPids|], TransactionMessage(transaction)),
                                   Envelope(statusPids[i % |statusPids|], IdMessage(transaction.id))]);
        RoutingStep(transactionPids, statusPids, transactions, records, transaction, record);
        NewRecordsStep(amounts, idDraws, i);
        transactions := transactions + [transaction];
        records := records + [record];
      }
      assert amounts[..|amounts|] == amounts && idDraws[..|idDraws|] == idDraws;
      assert system.sent == system.sent[..base] + system.sent[base..];
    }

    /**
     * One cycle up to the barrier: a fresh actor system, both pools, and the
     * dispatch of one new transaction per amount. Every transaction message
     * goes to an actor backed by the transaction processor, and every
     * identifier message to one backed by the status-check processor.
     */
    method ProcessTransactions(transactionPoolSize: nat, statusPoolSize: nat,
                               amounts: seq<Amount>, idDraws: seq<nat>)
      returns (system: ActorSystem, transactions: seq<Transaction>)
      requires transactionPoolSize > 0 && statusPoolSize > 0
      requires |idDraws| == |amounts|
      ensures fresh(system)
      ensures |system.actors| == transactionPoolSize + statusPoolSize
      ensures |transactions| == |amounts| && |system.sent| == 2 * |amounts|
      ensures forall i :: 0 <= i < |amounts| ==>
        && system.sent[2 * i] == Envelope(Pid(i % transactionPoolSize), TransactionMessage(transactions[i]))
        && system.sent[2 * i + 1] ==
             Envelope(Pid(transactionPoolSize + i % statusPoolSize), IdMessage(GenerateTransactionId(idDraws[i])))
      ensures RoundRobinLog(system.sent, transactionPoolSize, statusPoolSize, |amounts|)
      ensures forall k :: 0 <= k < transactionPoolSize ==> system.actors[k] == RunsTransactions(transactionProcessor)
      ensures forall k :: transactionPoolSize <= k < |system.actors| ==>
        system.actors[k] == RunsStatusChecks(statusCheckProcessor)
    {
      system := new ActorSystem();
      var transactionPool, statusPool := SpawnPools(system, transactionPoolSize, statusPoolSize);
      var transactionPids, statusPids := transactionPool[..], statusPool[..];
      assert forall k :: 0 <= k < |transactionPids| ==> transactionPids[k] == Pid(k);
      assert forall k :: 0 <= k < |statusPids| ==> statusPids[k] == Pid(|transactionPids| + k);
      ghost var pools := system.actors;
      ghost var records;
      transactions, records := Dispatch(system, transactionPids, statusPids, amounts, idDraws);
      PoolRouting(transactionPids, statusPids, transactions, records);
      NewRecordIds(amounts, idDraws);
      assert system.actors == pools;
    }
  }
}
