/**
 * The same four money calls as concurrent transactions under READ COMMITTED: one statement per step, private
 * writes until commit, row locks held until commit or rollback, and key conflicts found at insert.
 */
module Transactions {
  import opened Wrappers
  import opened Text
  import opened Ledger
  import opened Conservation

  type TxId = nat

  /** A row that a transaction can lock, or whose uncommitted insert makes an insert of the same key wait. */
  datatype Row =
    | ConsumerRow(consumer: string)
    | FingerprintRow(fingerprint: string)
    | ReservationRow(request: string)
    | BalanceRow(consumer: string)

  /** What a transaction has read, under locks, when only its commit is left. */
  datatype Plan =
    | Replay(res: Reservation, balance: int)
    | Settle(res: Reservation, balance: int)
    | Hold(balance: int)
    | Top(balance: int)
    | Seen(balance: int)

  datatype Pc =
    | Begin
    | FindReservation
    | ReservationLocked(res: Reservation)
    | SettleRead(res: Reservation, balance: int)
    | UpsertConsumer
    | InsertFingerprint
    | LockSeenBalance
    | EnsureBalance
    | LockBalance
    | BalanceRead(balance: int)
    | InsertReservation(balance: int)
    | Ready(plan: Plan)

  datatype Tx = Tx(op: Op, pc: Pc)

  type Locks = map<Row, TxId>

  datatype State = State(
    committed: Db,
    txs: map<TxId, Tx>,
    locks: Locks,
    history: seq<Op>,
    replies: seq<Reply>)

  datatype Event = Start(id: TxId, op: Op) | Advance(id: TxId) | Cancel(id: TxId)

  predicate IsMoney(op: Op) {
    op.ReserveOp? || op.FinalizeOp? || op.CreditOp? || op.TopupOp?
  }

  function Party(op: Op): string {
    if op.TopupOp? then TrimSpace(op.consumer) else op.consumer
  }

  function Fingerprint(op: Op): string {
    if op.TopupOp? then TrimSpace(op.fingerprint) else ""
  }

  function Request(op: Op): string {
    if op.ReserveOp? || op.FinalizeOp? then op.request else ""
  }

  // ---------------------------------------------------------------- the writes of a transaction

  datatype Writes = Writes(
    ensurePrepaid: bool,
    balance: Option<int>,
    entries: seq<Entry>,
    reservation: Option<Reservation>,
    topup: Option<Topup>)

  const NOTHING := Writes(false, None, [], None, None)

  function WritesOf(op: Op, plan: Plan): Writes {
    var c := Party(op);
    match op
    case ReserveOp(_, request, amount) =>
      if !plan.Hold? then NOTHING
      else
        var after := plan.balance - amount;
        Writes(false, Some(after), [Entry(c, Reserve, -amount, ReserveReference(request), after)],
               Some(Reservation(c, amount, 0, Reserved)), None)
    case FinalizeOp(_, request, actual, success) =>
      if !plan.Settle? || plan.res.status != Reserved then NOTHING
      else
        var charge := SettledCharge(plan.res.reserved, actual, success);
        var released := plan.balance + plan.res.reserved;
        var release := [Entry(c, Release, plan.res.reserved, ReleaseReference(request), released)];
        var debit := if charge > 0 then [Entry(c, Debit, -charge, DebitReference(request), released - charge)] else [];
        var status := if charge > 0 then Finalized else Released;
        Writes(false, Some(released - charge), release + debit,
               Some(plan.res.(charged := charge, status := status)), None)
    case CreditOp(_, amount, note) =>
      if !plan.Top? then NOTHING
      else
        var after := plan.balance + amount;
        Writes(false, Some(after), [Entry(c, Credit, amount, note, after)], None, None)
    case TopupOp(_, _, amount) =>
      if !plan.Top? then NOTHING.(ensurePrepaid := true)
      else
        var after := plan.balance + amount;
        Writes(true, Some(after), [Entry(c, Credit, amount, TopupReference(Fingerprint(op)), after)],
               None, Some(Topup(c, amount)))
    case _ => NOTHING
  }

  function ReplyOf(op: Op, plan: Plan): Reply {
    var after := if WritesOf(op, plan).balance.Some? then WritesOf(op, plan).balance.value else plan.balance;
    match op
    case ReserveOp(_, _, amount) => Decision(true, if plan.Replay? then plan.res.reserved else amount, after)
    case FinalizeOp(_, _, _, _) => Settled(after)
    case TopupOp(_, _, _) => Recorded(plan.Top?, after)
    case _ => Done
  }

  function Flush(db: Db, op: Op, w: Writes): Db {
    Db(
      if w.ensurePrepaid then EnsurePrepaid(db.consumers, Party(op)) else db.consumers,
      db.apiKeys,
      if w.balance.Some? then db.balances[Party(op) := w.balance.value] else db.balances,
      db.ledger + w.entries,
      if w.reservation.Some? then db.reservations[Request(op) := w.reservation.value] else db.reservations,
      if w.topup.Some? then db.topups[Fingerprint(op) := w.topup.value] else db.topups)
  }

  // ---------------------------------------------------------------- waiting

  function OtherHolder(s: State, row: Row, id: TxId): Option<TxId> {
    if row in s.locks && s.locks[row] != id then Some(s.locks[row]) else None
  }

  predicate Visible(s: State, op: Op) {
    Request(op) in s.committed.reservations && s.committed.reservations[Request(op)].consumer == op.consumer
  }

  /** An insert of a reservation waits for a transaction that has written that key, not for a mere row lock. */
  predicate WroteReservation(s: State, row: Row, holder: TxId) {
    holder in s.txs && s.txs[holder].pc.Ready?
    && WritesOf(s.txs[holder].op, s.txs[holder].pc.plan).reservation.Some?
  }

  /** The transaction that the next statement of this one has to wait for. */
  function Blocker(s: State, id: TxId): Option<TxId>
    requires id in s.txs
  {
    var op := s.txs[id].op;
    match s.txs[id].pc
    case FindReservation =>
      if Visible(s, op) then OtherHolder(s, ReservationRow(Request(op)), id) else None
    case UpsertConsumer => OtherHolder(s, ConsumerRow(Party(op)), id)
    case InsertFingerprint => OtherHolder(s, FingerprintRow(Fingerprint(op)), id)
    case EnsureBalance =>
      if Party(op) in s.committed.balances then None else OtherHolder(s, BalanceRow(Party(op)), id)
    case ReservationLocked(_) => OtherHolder(s, BalanceRow(Party(op)), id)
    case LockSeenBalance =>
      if Party(op) in s.committed.balances then OtherHolder(s, BalanceRow(Party(op)), id) else None
    case LockBalance => OtherHolder(s, BalanceRow(Party(op)), id)
    case InsertReservation(_) =>
      var holder := OtherHolder(s, ReservationRow(Request(op)), id);
      if holder.Some? && WroteReservation(s, ReservationRow(Request(op)), holder.value) then holder else None
    case _ => None
  }

  // ---------------------------------------------------------------- steps

  function Unlock(locks: Locks, id: TxId): Locks {
    map row | row in locks && locks[row] != id :: locks[row]
  }

  function Rollback(s: State, id: TxId): State {
    s.(txs := s.txs - {id}, locks := Unlock(s.locks, id))
  }

  function Goto(s: State, id: TxId, pc: Pc): State
    requires id in s.txs
  {
    s.(txs := s.txs[id := s.txs[id].(pc := pc)])
  }

  function LockAndGoto(s: State, id: TxId, row: Row, pc: Pc): State
    requires id in s.txs
  {
    Goto(s.(locks := s.locks[row := id]), id, pc)
  }

  function Commit(s: State, id: TxId): State
    requires id in s.txs && s.txs[id].pc.Ready?
  {
    var tx := s.txs[id];
    State(
      Flush(s.committed, tx.op, WritesOf(tx.op, tx.pc.plan)),
      s.txs - {id},
      Unlock(s.locks, id),
      s.history + [tx.op],
      s.replies + [ReplyOf(tx.op, tx.pc.plan)])
  }

  /** The next statement of a transaction that does not have to wait. */
  function Statement(s: State, id: TxId): State
    requires id in s.txs && Blocker(s, id).None?
  {
    var op := s.txs[id].op;
    var c := Party(op);
    match s.txs[id].pc
    case Begin =>
      (match op
       case ReserveOp(_, _, amount) => if amount <= 0 then Rollback(s, id) else Goto(s, id, FindReservation)
       case FinalizeOp(_, _, _, _) => Goto(s, id, FindReservation)
       case TopupOp(_, _, amount) =>
         if c == "" || Fingerprint(op) == "" || amount <= 0 then Rollback(s, id) else Goto(s, id, UpsertConsumer)
       case _ => Goto(s, id, EnsureBalance))
    case FindReservation =>
      if Visible(s, op) then
        LockAndGoto(s, id, ReservationRow(Request(op)), ReservationLocked(s.committed.reservations[Request(op)]))
      else if op.FinalizeOp? then Rollback(s, id)
      else Goto(s, id, EnsureBalance)
    case ReservationLocked(res) =>
      if c !in s.committed.balances then Rollback(s, id)
      else
        var balance := s.committed.balances[c];
        var found := if op.FinalizeOp? then SettleRead(res, balance) else Ready(Replay(res, balance));
        LockAndGoto(s, id, BalanceRow(c), found)
    case SettleRead(res, balance) => Goto(s, id, Ready(Settle(res, balance)))
    case UpsertConsumer => LockAndGoto(s, id, ConsumerRow(c), InsertFingerprint)
    case InsertFingerprint =>
      if Fingerprint(op) in s.committed.topups then Goto(s, id, LockSeenBalance)
      else LockAndGoto(s, id, FingerprintRow(Fingerprint(op)), EnsureBalance)
    case LockSeenBalance =>
      if c !in s.committed.balances then Rollback(s, id)
      else LockAndGoto(s, id, BalanceRow(c), Ready(Seen(s.committed.balances[c])))
    case EnsureBalance =>
      if c in s.committed.balances then Goto(s, id, LockBalance)
      else if !op.TopupOp? && c !in s.committed.consumers then Rollback(s, id)
      else LockAndGoto(s, id, BalanceRow(c), LockBalance)
    case LockBalance => LockAndGoto(s, id, BalanceRow(c), BalanceRead(Balance(s.committed, c)))
    case BalanceRead(balance) =>
      if !op.ReserveOp? then Goto(s, id, Ready(Top(balance)))
      else if balance < op.amount then Rollback(s, id)
      else Goto(s, id, InsertReservation(balance))
    case InsertReservation(balance) =>
      if Request(op) in s.committed.reservations then Rollback(s, id)
      else LockAndGoto(s, id, ReservationRow(Request(op)), Ready(Hold(balance)))
    case Ready(_) => Commit(s, id)
  }

  function Next(s: State, ev: Event): State {
    match ev
    case Start(id, op) => if id in s.txs || !IsMoney(op) then s else s.(txs := s.txs[id := Tx(op, Begin)])
    case Advance(id) => if id !in s.txs || Blocker(s, id).Some? then s else Statement(s, id)
    case Cancel(id) => if id in s.txs then Rollback(s, id) else s
  }

  function Exec(s: State, events: seq<Event>): State {
    if events == [] then s else Next(Exec(s, events[..|events| - 1]), events[|events| - 1])
  }

  function Quiet(db: Db): State {
    State(db, map[], map[], [], [])
  }

  // ---------------------------------------------------------------- what each transaction can rely on

  predicate Holds(locks: Locks, id: TxId, row: Row) {
    row in locks && locks[row] == id
  }

  predicate OwnsReservation(db: Db, locks: Locks, id: TxId, op: Op, res: Reservation) {
    && (op.ReserveOp? || op.FinalizeOp?)
    && Holds(locks, id, ReservationRow(Request(op)))
    && Request(op) in db.reservations
    && db.reservations[Request(op)] == res
    && res.consumer == op.consumer
  }

  predicate OwnsBalance(db: Db, locks: Locks, id: TxId, op: Op, balance: int) {
    && Holds(locks, id, BalanceRow(Party(op)))
    && balance == Balance(db, Party(op))
  }

  /** The validated arguments, and a top-up's locks on its consumer and fingerprint. */
  predicate Prepared(db: Db, locks: Locks, id: TxId, op: Op) {
    match op
    case ReserveOp(_, _, amount) => amount > 0
    case CreditOp(_, _, _) => true
    case TopupOp(_, _, amount) =>
      && amount > 0 && Party(op) != "" && Fingerprint(op) != ""
      && Holds(locks, id, ConsumerRow(Party(op)))
      && Holds(locks, id, FingerprintRow(Fingerprint(op)))
      && Fingerprint(op) !in db.topups
    case _ => false
  }

  predicate CanHaveAccount(db: Db, op: Op) {
    op.TopupOp? || HasAccount(db, Party(op))
  }

  predicate Relies(db: Db, locks: Locks, id: TxId, tx: Tx) {
    var op := tx.op;
    var c := Party(op);
    match tx.pc
    case Begin => IsMoney(op)
    case FindReservation => op.FinalizeOp? || (op.ReserveOp? && op.amount > 0)
    case ReservationLocked(res) => OwnsReservation(db, locks, id, op, res) && (op.ReserveOp? ==> op.amount > 0)
    case SettleRead(res, balance) =>
      && op.FinalizeOp? && OwnsReservation(db, locks, id, op, res)
      && OwnsBalance(db, locks, id, op, balance) && c in db.balances
    case UpsertConsumer => op.TopupOp? && op.amount > 0 && c != "" && Fingerprint(op) != ""
    case InsertFingerprint =>
      op.TopupOp? && op.amount > 0 && c != "" && Fingerprint(op) != "" && Holds(locks, id, ConsumerRow(c))
    case LockSeenBalance =>
      op.TopupOp? && op.amount > 0 && c != "" && Fingerprint(op) != "" && Holds(locks, id, ConsumerRow(c))
      && Fingerprint(op) in db.topups
    case EnsureBalance => Prepared(db, locks, id, op)
    case LockBalance =>
      Prepared(db, locks, id, op) && CanHaveAccount(db, op)
      && (c in db.balances || Holds(locks, id, BalanceRow(c)))
    case BalanceRead(balance) =>
      Prepared(db, locks, id, op) && CanHaveAccount(db, op) && OwnsBalance(db, locks, id, op, balance)
    case InsertReservation(balance) =>
      op.ReserveOp? && op.amount > 0 && balance >= op.amount
      && CanHaveAccount(db, op) && OwnsBalance(db, locks, id, op, balance)
    case Ready(plan) =>
      && OwnsBalance(db, locks, id, op, plan.balance)
      && (match plan
          case Replay(res, _) =>
            op.ReserveOp? && op.amount > 0 && OwnsReservation(db, locks, id, op, res) && c in db.balances
          case Settle(res, _) => op.FinalizeOp? && OwnsReservation(db, locks, id, op, res) && c in db.balances
          case Hold(balance) =>
            && op.ReserveOp? && op.amount > 0 && balance >= op.amount && CanHaveAccount(db, op)
            && Holds(locks, id, ReservationRow(Request(op)))
            && Request(op) !in db.reservations
          case Top(_) => !op.ReserveOp? && Prepared(db, locks, id, op) && CanHaveAccount(db, op)
          case Seen(_) =>
            && op.TopupOp? && op.amount > 0 && c != "" && Fingerprint(op) != ""
            && Holds(locks, id, ConsumerRow(c))
            && Fingerprint(op) in db.topups && c in db.balances)
  }

  /** At which program points a transaction can hold a lock on a row. */
  predicate Fits(row: Row, tx: Tx) {
    match row
    case ConsumerRow(c) => tx.op.TopupOp? && !tx.pc.Begin? && !tx.pc.UpsertConsumer?
    case FingerprintRow(f) =>
      tx.op.TopupOp? && (tx.pc.EnsureBalance? || tx.pc.LockBalance? || tx.pc.BalanceRead? || tx.pc.Ready?)
    case ReservationRow(r) =>
      (tx.op.ReserveOp? || tx.op.FinalizeOp?) && r == Request(tx.op)
      && (tx.pc.ReservationLocked? || tx.pc.SettleRead? || tx.pc.Ready?)
    case BalanceRow(c) =>
      c == Party(tx.op)
      && (tx.pc.LockBalance? || tx.pc.BalanceRead? || tx.pc.InsertReservation? || tx.pc.SettleRead? || tx.pc.Ready?)
  }

  ghost predicate Inv(s: State) {
    && (forall id <- s.txs :: Relies(s.committed, s.locks, id, s.txs[id]))
    && (forall row <- s.locks :: s.locks[row] in s.txs && Fits(row, s.txs[s.locks[row]]))
  }

  // ---------------------------------------------------------------- commits are atomic

  /** The buffered writes are exactly what the call would do alone, run at this moment. */
  predicate CommitsAtomically(db: Db, tx: Tx)
    requires tx.pc.Ready?
  {
    Apply(db, tx.op) == Outcome(Flush(db, tx.op, WritesOf(tx.op, tx.pc.plan)), ReplyOf(tx.op, tx.pc.plan))
  }

  lemma {:induction false} CommitIsAtomic(s: State, id: TxId)
    requires id in s.txs && s.txs[id].pc.Ready? && Relies(s.committed, s.locks, id, s.txs[id])
    ensures CommitsAtomically(s.committed, s.txs[id])
  {
    match s.txs[id].op
    case FinalizeOp(_, _, _, _) => FinalizeIsAtomic(s, id);
    case TopupOp(_, _, _) => TopupIsAtomic(s, id);
    case _ =>
  }

  lemma {:induction false} FinalizeIsAtomic(s: State, id: TxId)
    requires id in s.txs && s.txs[id].pc.Ready? && s.txs[id].op.FinalizeOp?
    requires Relies(s.committed, s.locks, id, s.txs[id])
    ensures CommitsAtomically(s.committed, s.txs[id])
  {
  }

  lemma {:induction false} TopupIsAtomic(s: State, id: TxId)
    requires id in s.txs && s.txs[id].pc.Ready? && Relies(s.committed, s.locks, id, s.txs[id]) && s.txs[id].op.TopupOp?
    ensures CommitsAtomically(s.committed, s.txs[id])
  {
  }

  // ---------------------------------------------------------------- the invariant

  /** What one transaction relies on survives when its locks do and the rows under them do. */
  ghost predicate Undisturbed(db: Db, locks: Locks, next: Db, nextLocks: Locks, id: TxId) {
    && (forall row :: Holds(locks, id, row) ==> Holds(nextLocks, id, row))
    && (forall c <- db.consumers :: c in next.consumers)
    && (forall c <- db.balances :: c in next.balances)
    && (forall f <- db.topups :: f in next.topups)
    && (forall c :: Holds(locks, id, BalanceRow(c)) ==> Balance(next, c) == Balance(db, c))
    && (forall f :: Holds(locks, id, FingerprintRow(f)) && f in next.topups ==> f in db.topups)
    && (forall r :: Holds(locks, id, ReservationRow(r)) ==>
          && (r in db.reservations <==> r in next.reservations)
          && (r in db.reservations ==> next.reservations[r] == db.reservations[r]))
  }

  lemma {:induction false} ReliesStable(db: Db, locks: Locks, next: Db, nextLocks: Locks, id: TxId, tx: Tx)
    requires Relies(db, locks, id, tx) && Undisturbed(db, locks, next, nextLocks, id)
    ensures Relies(next, nextLocks, id, tx)
  {
  }

  lemma {:induction false} OthersKeep(s: State, next: State, id: TxId)
    requires Inv(s)
    requires next.txs.Keys <= s.txs.Keys
    requires forall other <- next.txs ::
               other != id ==> && next.txs[other] == s.txs[other]
                               && Undisturbed(s.committed, s.locks, next.committed, next.locks, other)
    requires id in next.txs ==> Relies(next.committed, next.locks, id, next.txs[id])
    requires forall row <- next.locks ::
               next.locks[row] in next.txs && Fits(row, next.txs[next.locks[row]])
    ensures Inv(next)
  {
    forall other <- next.txs ensures Relies(next.committed, next.locks, other, next.txs[other]) {
      if other != id {
        ReliesStable(s.committed, s.locks, next.committed, next.locks, other, s.txs[other]);
      }
    }
  }

  lemma {:induction false} RollbackKeeps(s: State, id: TxId)
    requires Inv(s) && id in s.txs
    ensures Inv(Rollback(s, id))
  {
    OthersKeep(s, Rollback(s, id), id);
  }

  lemma {:induction false} CommitKeeps(s: State, id: TxId)
    requires Inv(s) && id in s.txs && s.txs[id].pc.Ready?
    ensures Inv(Commit(s, id))
  {
    var next := Commit(s, id);
    assert Relies(s.committed, s.locks, id, s.txs[id]);
    forall other <- next.txs | other != id
      ensures Undisturbed(s.committed, s.locks, next.committed, next.locks, other)
    {
      CommitUndisturbs(s, id, other);
    }
    OthersKeep(s, next, id);
  }

  /** A commit only touches rows whose locks the committing transaction holds. */
  lemma {:induction false} CommitUndisturbs(s: State, id: TxId, other: TxId)
    requires id in s.txs && s.txs[id].pc.Ready? && Relies(s.committed, s.locks, id, s.txs[id]) && other != id
    ensures Undisturbed(s.committed, s.locks, Commit(s, id).committed, Commit(s, id).locks, other)
  {
    var tx := s.txs[id];
    var w := WritesOf(tx.op, tx.pc.plan);
    assert w.reservation.Some? ==> Holds(s.locks, id, ReservationRow(Request(tx.op)));
    assert w.topup.Some? ==> Holds(s.locks, id, FingerprintRow(Fingerprint(tx.op)));
    assert Holds(s.locks, id, BalanceRow(Party(tx.op)));
  }

  lemma {:induction false} GotoKeeps(s: State, id: TxId, pc: Pc)
    requires Inv(s) && id in s.txs
    requires Relies(s.committed, s.locks, id, Tx(s.txs[id].op, pc))
    requires forall row :: Fits(row, s.txs[id]) && Holds(s.locks, id, row) ==> Fits(row, Tx(s.txs[id].op, pc))
    ensures Inv(Goto(s, id, pc))
  {
  }

  lemma {:induction false} LockUndisturbs(db: Db, locks: Locks, row: Row, id: TxId, other: TxId)
    requires other != id && (row in locks ==> locks[row] == id)
    ensures Undisturbed(db, locks, db, locks[row := id], other)
  {
  }

  lemma {:induction false} LockAndGotoKeeps(s: State, id: TxId, row: Row, pc: Pc)
    requires Inv(s) && id in s.txs && OtherHolder(s, row, id).None?
    requires Relies(s.committed, s.locks[row := id], id, Tx(s.txs[id].op, pc))
    requires Fits(row, Tx(s.txs[id].op, pc))
    requires forall held :: Fits(held, s.txs[id]) && Holds(s.locks, id, held) ==> Fits(held, Tx(s.txs[id].op, pc))
    ensures Inv(LockAndGoto(s, id, row, pc))
  {
    var next := LockAndGoto(s, id, row, pc);
    forall other <- next.txs | other != id
      ensures Undisturbed(s.committed, s.locks, next.committed, next.locks, other)
    {
      LockUndisturbs(s.committed, s.locks, row, id, other);
    }
    OthersKeep(s, next, id);
  }

  lemma {:induction false} BeginKeeps(s: State, id: TxId)
    requires Inv(s) && id in s.txs && Blocker(s, id).None?
    requires s.txs[id].pc.Begin? || s.txs[id].pc.FindReservation?
    ensures Inv(Statement(s, id))
  {
    var op := s.txs[id].op;
    var c := Party(op);
    assert Relies(s.committed, s.locks, id, s.txs[id]);
    match s.txs[id].pc
    case Begin =>
      RollbackKeeps(s, id);
      if op.CreditOp? {
        GotoKeeps(s, id, EnsureBalance);
      } else if op.TopupOp? {
        if Statement(s, id) != Rollback(s, id) { GotoKeeps(s, id, UpsertConsumer); }
      } else if Statement(s, id) != Rollback(s, id) {
        GotoKeeps(s, id, FindReservation);
      }
    case FindReservation =>
      if Visible(s, op) {
        LockAndGotoKeeps(s, id, ReservationRow(Request(op)), ReservationLocked(s.committed.reservations[Request(op)]));
      } else if op.FinalizeOp? {
        RollbackKeeps(s, id);
      } else {
        GotoKeeps(s, id, EnsureBalance);
      }
  }

  lemma {:induction false} FoundKeeps(s: State, id: TxId)
    requires Inv(s) && id in s.txs && Blocker(s, id).None?
    requires s.txs[id].pc.ReservationLocked? || s.txs[id].pc.SettleRead?
    ensures Inv(Statement(s, id))
  {
    var op := s.txs[id].op;
    var c := Party(op);
    assert Relies(s.committed, s.locks, id, s.txs[id]);
    match s.txs[id].pc
    case ReservationLocked(res) =>
      if c !in s.committed.balances {
        RollbackKeeps(s, id);
      } else {
        var balance := s.committed.balances[c];
        var found := if op.FinalizeOp? then SettleRead(res, balance) else Ready(Replay(res, balance));
        LockAndGotoKeeps(s, id, BalanceRow(c), found);
      }
    case SettleRead(res, balance) => GotoKeeps(s, id, Ready(Settle(res, balance)));
  }

  lemma {:induction false} UpsertKeeps(s: State, id: TxId)
    requires Inv(s) && id in s.txs && Blocker(s, id).None?
    requires s.txs[id].pc.UpsertConsumer?
    ensures Inv(Statement(s, id))
  {
    var op := s.txs[id].op;
    var c := Party(op);
    assert Relies(s.committed, s.locks, id, s.txs[id]);
    LockAndGotoKeeps(s, id, ConsumerRow(c), InsertFingerprint);
  }

  lemma {:induction false} NewFingerprintKeeps(s: State, id: TxId)
    requires Inv(s) && id in s.txs && Blocker(s, id).None?
    requires s.txs[id].pc.InsertFingerprint? && Fingerprint(s.txs[id].op) !in s.committed.topups
    ensures Inv(Statement(s, id))
  {
    assert Relies(s.committed, s.locks, id, s.txs[id]);
    LockAndGotoKeeps(s, id, FingerprintRow(Fingerprint(s.txs[id].op)), EnsureBalance);
  }

  lemma {:induction false} FingerprintKeeps(s: State, id: TxId)
    requires Inv(s) && id in s.txs && Blocker(s, id).None?
    requires s.txs[id].pc.InsertFingerprint?
    ensures Inv(Statement(s, id))
  {
    var op := s.txs[id].op;
    var c := Party(op);
    assert Relies(s.committed, s.locks, id, s.txs[id]);
    if Fingerprint(op) in s.committed.topups {
      GotoKeeps(s, id, LockSeenBalance);
    } else {
      NewFingerprintKeeps(s, id);
    }
  }

  lemma {:induction false} SeenKeeps(s: State, id: TxId)
    requires Inv(s) && id in s.txs && Blocker(s, id).None?
    requires s.txs[id].pc.LockSeenBalance?
    ensures Inv(Statement(s, id))
  {
    var op := s.txs[id].op;
    var c := Party(op);
    assert Relies(s.committed, s.locks, id, s.txs[id]);
    if c !in s.committed.balances {
      RollbackKeeps(s, id);
    } else {
      LockAndGotoKeeps(s, id, BalanceRow(c), Ready(Seen(s.committed.balances[c])));
    }
  }

  lemma {:induction false} BalanceKeeps(s: State, id: TxId)
    requires Inv(s) && id in s.txs && Blocker(s, id).None?
    requires s.txs[id].pc.EnsureBalance? || s.txs[id].pc.LockBalance?
    ensures Inv(Statement(s, id))
  {
    var op := s.txs[id].op;
    var c := Party(op);
    assert Relies(s.committed, s.locks, id, s.txs[id]);
    match s.txs[id].pc
    case EnsureBalance =>
      if c in s.committed.balances {
        GotoKeeps(s, id, LockBalance);
      } else if !op.TopupOp? && c !in s.committed.consumers {
        RollbackKeeps(s, id);
      } else {
        LockAndGotoKeeps(s, id, BalanceRow(c), LockBalance);
      }
    case LockBalance => LockAndGotoKeeps(s, id, BalanceRow(c), BalanceRead(Balance(s.committed, c)));
  }

  lemma {:induction false} DecideKeeps(s: State, id: TxId)
    requires Inv(s) && id in s.txs && Blocker(s, id).None?
    requires s.txs[id].pc.BalanceRead? || s.txs[id].pc.InsertReservation?
    ensures Inv(Statement(s, id))
  {
    var op := s.txs[id].op;
    var c := Party(op);
    assert Relies(s.committed, s.locks, id, s.txs[id]);
    match s.txs[id].pc
    case BalanceRead(balance) =>
      if !op.ReserveOp? {
        GotoKeeps(s, id, Ready(Top(balance)));
      } else if balance < op.amount {
        RollbackKeeps(s, id);
      } else {
        GotoKeeps(s, id, InsertReservation(balance));
      }
    case InsertReservation(balance) =>
      if Request(op) in s.committed.reservations {
        RollbackKeeps(s, id);
      } else {
        PendingInsertBlocks(s, id);
        LockAndGotoKeeps(s, id, ReservationRow(Request(op)), Ready(Hold(balance)));
      }
  }

  lemma {:induction false} StatementKeeps(s: State, id: TxId)
    requires Inv(s) && id in s.txs && Blocker(s, id).None?
    ensures Inv(Statement(s, id))
  {
    match s.txs[id].pc
    case Begin | FindReservation => BeginKeeps(s, id);
    case ReservationLocked(_) | SettleRead(_, _) => FoundKeeps(s, id);
    case UpsertConsumer => UpsertKeeps(s, id);
    case InsertFingerprint => FingerprintKeeps(s, id);
    case LockSeenBalance => SeenKeeps(s, id);
    case EnsureBalance | LockBalance => BalanceKeeps(s, id);
    case BalanceRead(_) | InsertReservation(_) => DecideKeeps(s, id);
    case Ready(_) => CommitKeeps(s, id);
  }

  /** A lock on a reservation key that is not committed yet belongs to a transaction that has inserted it. */
  lemma {:induction false} PendingInsertBlocks(s: State, id: TxId)
    requires Inv(s) && id in s.txs && s.txs[id].pc.InsertReservation?
    requires Request(s.txs[id].op) !in s.committed.reservations && Blocker(s, id).None?
    ensures OtherHolder(s, ReservationRow(Request(s.txs[id].op)), id).None?
  {
  }

  lemma {:induction false} NextKeeps(s: State, ev: Event)
    requires Inv(s)
    ensures Inv(Next(s, ev))
  {
    match ev
    case Start(id, op) =>
      var next := Next(s, ev);
      if next != s {
        forall other <- next.txs ensures Relies(next.committed, next.locks, other, next.txs[other]) {
          if other != id {
            ReliesStable(s.committed, s.locks, next.committed, next.locks, other, s.txs[other]);
          }
        }
      }
    case Advance(id) =>
      if Next(s, ev) != s {
        StatementKeeps(s, id);
      }
    case Cancel(id) =>
      if id in s.txs {
        RollbackKeeps(s, id);
      }
  }
}
