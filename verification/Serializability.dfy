/** What holds in every state that interleaved transactions can reach. */
module Serializability {
  import opened Wrappers
  import opened Text
  import opened Ledger
  import opened Conservation
  import opened Transactions

  // ---------------------------------------------------------------- serialisability

  lemma {:induction false} ReachableInv(db: Db, events: seq<Event>)
    ensures Inv(Exec(Quiet(db), events))
  {
    if events != [] {
      ReachableInv(db, events[..|events| - 1]);
      NextKeeps(Exec(Quiet(db), events[..|events| - 1]), events[|events| - 1]);
    }
  }

  predicate Committing(s: State, ev: Event) {
    ev.Advance? && ev.id in s.txs && s.txs[ev.id].pc.Ready?
  }

  /** Only the commit step shows anything to the other transactions. */
  lemma {:induction false} OnlyCommitsShow(s: State, ev: Event)
    ensures if Committing(s, ev) then Next(s, ev) == Commit(s, ev.id)
            else && Next(s, ev).committed == s.committed
                 && Next(s, ev).history == s.history && Next(s, ev).replies == s.replies
  {
  }

  /** The tables and the replies are those of the committed calls run one at a time in commit order. */
  lemma {:induction false} Serializable(db: Db, events: seq<Event>)
    ensures var s := Exec(Quiet(db), events);
            s.committed == Run(db, s.history) && s.replies == Replies(db, s.history)
  {
    if events != [] {
      var s := Exec(Quiet(db), events[..|events| - 1]);
      var ev := events[|events| - 1];
      Serializable(db, events[..|events| - 1]);
      OnlyCommitsShow(s, ev);
      if Committing(s, ev) {
        ReachableInv(db, events[..|events| - 1]);
        CommitIsAtomic(s, ev.id);
        RunSnoc(db, s.history, s.txs[ev.id].op);
      }
    }
  }

  /** Hence the money invariants hold at every instant of every interleaving, also between commits. */
  lemma {:induction false} InterleavingsSound(db: Db, events: seq<Event>)
    requires Sound(db)
    ensures Sound(Exec(Quiet(db), events).committed)
  {
    var s := Exec(Quiet(db), events);
    Serializable(db, events);
    RunSound(db, s.history);
  }

  /** And no balance is ever negative, given the deposit handler's positive credits. */
  lemma {:induction false} InterleavingsNeverNegative(db: Db, events: seq<Event>)
    requires Sound(db) && NeverNegative(db)
    requires forall op <- Started(events) :: FromHandler(op)
    ensures NeverNegative(Exec(Quiet(db), events).committed)
  {
    var s := Exec(Quiet(db), events);
    Serializable(db, events);
    forall op <- s.history ensures FromHandler(op) {
      CommitsComeFromStarts(db, events, op);
      assert op in multiset(s.history) && op in multiset(Started(events));
    }
    RunNeverNegative(db, s.history);
  }

  /** How often a request was paid for: the reserve entries of its trail. */
  function HoldCount(trail: seq<Movement>): nat {
    if trail == [] then 0 else (if trail[0].kind == Reserve then 1 else 0) + HoldCount(trail[1..])
  }

  lemma {:induction false} ExpectedHolds(res: Reservation)
    ensures HoldCount(Expected(res)) == 1
  {
    var back := Movement(res.consumer, Release, res.reserved);
    var debit := Movement(res.consumer, Debit, -res.charged);
    assert HoldCount([debit]) == 0 == HoldCount([back]);
    assert [back, debit][1..] == [debit];
    match res.status
    case Reserved =>
    case Released => assert Expected(res)[1..] == [back];
    case Finalized => assert Expected(res)[1..] == [back, debit];
  }

  /** Racing Reserves of one request id deduct at most once, whoever they are for. */
  lemma {:induction false} RacingReservesDeductOnce(db: Db, events: seq<Event>, request: string)
    requires Sound(db)
    ensures var now := Exec(Quiet(db), events).committed;
            HoldCount(Trail(now.ledger, request)) == if request in now.reservations then 1 else 0
  {
    InterleavingsSound(db, events);
    var now := Exec(Quiet(db), events).committed;
    assert Trail(now.ledger, request) == ExpectedTrail(now.reservations, request);
    if request in now.reservations {
      ExpectedHolds(now.reservations[request]);
    }
  }

  // ---------------------------------------------------------------- nothing is committed twice or out of thin air

  function Started(events: seq<Event>): seq<Op> {
    if events == [] then []
    else
      var ev := events[|events| - 1];
      Started(events[..|events| - 1]) + (if ev.Start? then [ev.op] else [])
  }

  function Running(s: State, op: Op): set<TxId> {
    set id | id in s.txs && s.txs[id].op == op
  }

  function StepsLeft(pc: Pc): nat {
    match pc
    case Begin => 9
    case FindReservation => 8
    case UpsertConsumer => 8
    case InsertFingerprint => 7
    case EnsureBalance => 6
    case LockBalance => 5
    case BalanceRead(_) => 4
    case ReservationLocked(_) => 3
    case InsertReservation(_) => 2
    case SettleRead(_, _) => 2
    case LockSeenBalance => 2
    case Ready(_) => 1
  }

  /** A statement moves its own transaction on or ends it, and leaves the others alone. */
  lemma {:induction false} StatementMoves(s: State, id: TxId)
    requires id in s.txs && Blocker(s, id).None?
    ensures var next := Statement(s, id).txs;
            if id in next
            then && next == s.txs[id := next[id]]
                 && next[id].op == s.txs[id].op && StepsLeft(next[id].pc) < StepsLeft(s.txs[id].pc)
            else next == s.txs - {id}
  {
    match s.txs[id].pc
    case Begin =>
    case FindReservation =>
    case ReservationLocked(_) =>
    case InsertFingerprint =>
    case LockSeenBalance =>
    case EnsureBalance =>
    case BalanceRead(_) =>
    case InsertReservation(_) =>
    case Ready(_) =>
    case _ =>
  }

  lemma {:induction false} StatementAdvances(s: State, id: TxId)
    requires id in s.txs && Blocker(s, id).None?
    ensures var next := Statement(s, id).txs;
            if id in next
            then && next - {id} == s.txs - {id}
                 && next[id].op == s.txs[id].op && StepsLeft(next[id].pc) < StepsLeft(s.txs[id].pc)
            else next == s.txs - {id}
  {
    StatementMoves(s, id);
  }

  lemma {:induction false} StepsKeepOps(s: State, ev: Event)
    requires !ev.Start?
    ensures forall id <- Next(s, ev).txs :: id in s.txs && Next(s, ev).txs[id].op == s.txs[id].op
  {
    var next := Next(s, ev);
    if ev.Advance? && next != s {
      StatementAdvances(s, ev.id);
      forall id <- next.txs | id != ev.id ensures id in s.txs && next.txs[id].op == s.txs[id].op {
        assert id in next.txs - {ev.id} ==> (next.txs - {ev.id})[id] == next.txs[id];
      }
    }
  }

  lemma {:induction false} NextAccounts(s: State, ev: Event, op: Op)
    ensures multiset(Next(s, ev).history)[op] + |Running(Next(s, ev), op)|
         <= multiset(s.history)[op] + |Running(s, op)| + (if ev.Start? && ev.op == op then 1 else 0)
  {
    OnlyCommitsShow(s, ev);
    if Committing(s, ev) {
      CommitEnds(s, ev.id, op);
    } else {
      RunningGrows(s, ev, op);
    }
  }

  /** A committing transaction moves from the running ones to the history. */
  lemma {:induction false} CommitEnds(s: State, id: TxId, op: Op)
    requires id in s.txs && s.txs[id].pc.Ready?
    ensures |Running(Commit(s, id), op)| == |Running(s, op)| - (if s.txs[id].op == op then 1 else 0)
  {
    if s.txs[id].op == op {
      assert Running(Commit(s, id), op) == Running(s, op) - {id};
    } else {
      assert Running(Commit(s, id), op) == Running(s, op);
    }
  }

  lemma {:induction false} RunningGrows(s: State, ev: Event, op: Op)
    ensures |Running(Next(s, ev), op)| <= |Running(s, op)| + (if ev.Start? && ev.op == op then 1 else 0)
  {
    var next := Next(s, ev);
    if ev.Start? {
      assert Running(next, op) <= Running(s, op) + (if ev.op == op then {ev.id} else {});
    } else {
      StepsKeepOps(s, ev);
      assert Running(next, op) <= Running(s, op);
    }
    Subsets(Running(next, op), Running(s, op), ev.id);
  }

  lemma {:induction false} Subsets(a: set<TxId>, b: set<TxId>, id: TxId)
    ensures a <= b ==> |a| <= |b|
    ensures a <= b + {id} ==> |a| <= |b| + 1
  {
    if a <= b {
      assert b == a + (b - a);
    }
    if a <= b + {id} {
      assert b + {id} == a + (b + {id} - a);
    }
  }

  /** Each started call is committed at most once, and nothing else is committed. */
  lemma {:induction false} CommitsComeFromStarts(db: Db, events: seq<Event>, op: Op)
    ensures var s := Exec(Quiet(db), events);
            multiset(s.history)[op] + |Running(s, op)| <= multiset(Started(events))[op]
  {
    if events != [] {
      CommitsComeFromStarts(db, events[..|events| - 1], op);
      NextAccounts(Exec(Quiet(db), events[..|events| - 1]), events[|events| - 1], op);
    }
  }

  // ---------------------------------------------------------------- why a transaction is turned away

  /** The reservation this Reserve wants was committed by a racing Reserve after its own lookup missed it. */
  predicate LostRace(s: State, tx: Tx) {
    tx.op.ReserveOp? && !tx.pc.FindReservation? && !tx.pc.ReservationLocked? && Visible(s, tx.op)
  }

  /**
   * A transaction that ends without committing is one whose call, run alone at that moment, would be refused,
   * or a Reserve that lost a race to another Reserve of the same request and consumer.
   */
  lemma {:induction false} RollbacksAreJustified(db: Db, events: seq<Event>, id: TxId)
    requires var s := Exec(Quiet(db), events);
             id in s.txs && !s.txs[id].pc.Ready? && id !in Next(s, Advance(id)).txs
    ensures var s := Exec(Quiet(db), events);
            Refused(Apply(s.committed, s.txs[id].op).reply) || LostRace(s, s.txs[id])
  {
    var s := Exec(Quiet(db), events);
    ReachableInv(db, events);
    match s.txs[id].op
    case ReserveOp(_, _, _) => ReserveTurnedAway(s, id);
    case TopupOp(_, _, _) => TopupTurnedAway(s, id);
    case _ => OthersTurnedAway(s, id);
  }

  lemma {:induction false} ReserveTurnedAway(s: State, id: TxId)
    requires id in s.txs && Relies(s.committed, s.locks, id, s.txs[id]) && s.txs[id].op.ReserveOp?
    requires !s.txs[id].pc.Ready? && id !in Next(s, Advance(id)).txs
    ensures Refused(Apply(s.committed, s.txs[id].op).reply) || LostRace(s, s.txs[id])
  {
  }

  lemma {:induction false} TopupTurnedAway(s: State, id: TxId)
    requires id in s.txs && Relies(s.committed, s.locks, id, s.txs[id]) && s.txs[id].op.TopupOp?
    requires !s.txs[id].pc.Ready? && id !in Next(s, Advance(id)).txs
    ensures Refused(Apply(s.committed, s.txs[id].op).reply)
  {
  }

  lemma {:induction false} OthersTurnedAway(s: State, id: TxId)
    requires id in s.txs && Relies(s.committed, s.locks, id, s.txs[id])
    requires !s.txs[id].op.ReserveOp? && !s.txs[id].op.TopupOp?
    requires !s.txs[id].pc.Ready? && id !in Next(s, Advance(id)).txs
    ensures Refused(Apply(s.committed, s.txs[id].op).reply)
  {
  }

  // ---------------------------------------------------------------- no deadlock

  /** The lock order: consumer, fingerprint or reservation, balance, and the reservation key last. */
  function Rank(locks: Locks, id: TxId, tx: Tx): nat {
    match tx.pc
    case Begin => 0
    case UpsertConsumer => 0
    case InsertFingerprint => 1
    case FindReservation => 1
    case ReservationLocked(_) => 2
    case LockSeenBalance => 2
    case EnsureBalance => 2
    case LockBalance => if BalanceRow(Party(tx.op)) in locks && locks[BalanceRow(Party(tx.op))] == id then 3 else 2
    case SettleRead(_, _) => 4
    case BalanceRead(_) => 4
    case InsertReservation(_) => 5
    case Ready(_) => 6
  }

  /** How far a transaction must have come to hold a lock on a row. */
  lemma {:induction false} HolderRank(locks: Locks, row: Row, id: TxId, tx: Tx)
    requires row in locks && locks[row] == id && Fits(row, tx)
    ensures Rank(locks, id, tx) >= match row
      case ConsumerRow(_) => 1
      case FingerprintRow(_) => 2
      case ReservationRow(_) => 2
      case BalanceRow(_) => 3
  {
  }

  function WaitRow(op: Op, pc: Pc): Row {
    match pc
    case FindReservation => ReservationRow(Request(op))
    case InsertReservation(_) => ReservationRow(Request(op))
    case UpsertConsumer => ConsumerRow(Party(op))
    case InsertFingerprint => FingerprintRow(Fingerprint(op))
    case _ => BalanceRow(Party(op))
  }

  lemma {:induction false} WaitsForRow(s: State, id: TxId)
    requires id in s.txs && Blocker(s, id).Some?
    ensures OtherHolder(s, WaitRow(s.txs[id].op, s.txs[id].pc), id) == Blocker(s, id)
  {
  }

  lemma {:induction false} WaitsUpwards(s: State, id: TxId)
    requires Inv(s) && id in s.txs && Blocker(s, id).Some?
    ensures var other := Blocker(s, id).value;
            other in s.txs && Rank(s.locks, id, s.txs[id]) < Rank(s.locks, other, s.txs[other])
  {
    WaitsForRow(s, id);
    var row := WaitRow(s.txs[id].op, s.txs[id].pc);
    HolderRank(s.locks, row, s.locks[row], s.txs[s.locks[row]]);
  }

  predicate WaitChain(s: State, chain: seq<TxId>) {
    forall i :: 0 <= i < |chain| ==>
      chain[i] in s.txs && (i + 1 < |chain| ==> Blocker(s, chain[i]) == Some(chain[i + 1]))
  }

  lemma {:induction false} ChainClimbs(s: State, chain: seq<TxId>)
    requires Inv(s) && |chain| >= 2 && WaitChain(s, chain)
    ensures Rank(s.locks, chain[0], s.txs[chain[0]])
          < Rank(s.locks, chain[|chain| - 1], s.txs[chain[|chain| - 1]])
  {
    assert Blocker(s, chain[0]) == Some(chain[1]);
    WaitsUpwards(s, chain[0]);
    if |chain| > 2 {
      ChainClimbs(s, chain[1..]);
    }
  }

  /** In no reachable state is there a cycle of transactions each waiting for the next. */
  lemma {:induction false} NoWaitCycle(db: Db, events: seq<Event>, chain: seq<TxId>)
    requires |chain| >= 2 && WaitChain(Exec(Quiet(db), events), chain)
    ensures chain[0] != chain[|chain| - 1]
  {
    ReachableInv(db, events);
    ChainClimbs(Exec(Quiet(db), events), chain);
  }

  lemma {:induction false} Runnable(s: State, id: TxId) returns (next: TxId)
    requires Inv(s) && id in s.txs
    ensures next in s.txs && Blocker(s, next).None?
    decreases 6 - Rank(s.locks, id, s.txs[id])
  {
    if Blocker(s, id).None? {
      next := id;
    } else {
      WaitsUpwards(s, id);
      next := Runnable(s, Blocker(s, id).value);
    }
  }

  ghost function Work(txs: map<TxId, Tx>): nat
    decreases |txs|
  {
    if txs == map[] then 0
    else
      var id :| id in txs;
      StepsLeft(txs[id].pc) + Work(txs - {id})
  }

  lemma {:induction false} WorkWithout(txs: map<TxId, Tx>, id: TxId)
    requires id in txs
    ensures Work(txs) == StepsLeft(txs[id].pc) + Work(txs - {id})
    decreases |txs|
  {
    var first :| first in txs && Work(txs) == StepsLeft(txs[first].pc) + Work(txs - {first});
    if first != id {
      WorkWithout(txs - {first}, id);
      WorkWithout(txs - {id}, first);
      assert txs - {first} - {id} == txs - {id} - {first};
    }
  }

  lemma {:induction false} StatementProgresses(s: State, id: TxId)
    requires id in s.txs && Blocker(s, id).None?
    ensures Work(Statement(s, id).txs) < Work(s.txs)
  {
    StatementAdvances(s, id);
    WorkWithout(s.txs, id);
    if id in Statement(s, id).txs {
      WorkWithout(Statement(s, id).txs, id);
    }
  }

  lemma {:induction false} CanAdvance(db: Db, events: seq<Event>) returns (id: TxId)
    requires Exec(Quiet(db), events).txs != map[]
    ensures Work(Exec(Quiet(db), events + [Advance(id)]).txs) < Work(Exec(Quiet(db), events).txs)
  {
    var s := Exec(Quiet(db), events);
    ReachableInv(db, events);
    var some :| some in s.txs;
    id := Runnable(s, some);
    StatementProgresses(s, id);
    assert (events + [Advance(id)])[..|events|] == events;
  }

  lemma {:induction false} Regroup(events: seq<Event>, ev: Event, rest: seq<Event>)
    ensures events + ([ev] + rest) == (events + [ev]) + rest
  {
  }

  /** From every reachable state all running transactions can finish: some schedule drains the system. */
  lemma {:induction false} CanDrain(db: Db, events: seq<Event>) returns (more: seq<Event>)
    ensures Exec(Quiet(db), events + more).txs == map[]
    ensures forall ev <- more :: ev.Advance?
    decreases Work(Exec(Quiet(db), events).txs)
  {
    if Exec(Quiet(db), events).txs == map[] {
      more := [];
      assert events + more == events;
    } else {
      var id := CanAdvance(db, events);
      var ev := Advance(id);
      var rest := CanDrain(db, events + [ev]);
      more := [ev] + rest;
      Regroup(events, ev, rest);
    }
  }
}
