/**
 * Billing over interleaved transactions: each hold, settlement and deposit is a running transaction of the step
 * machine, and a session opens and closes when its transaction commits.
 */
module Sessions {
  import opened Wrappers
  import opened Ledger
  import opened Conservation
  import opened Pricing
  import B = Billing
  import S = Serializability
  import T = Transactions

  /** What a handler is waiting for. */
  datatype Pending =
    | Admission(id: string, who: B.Principal, req: ChatRequest)
    | Settlement(session: B.Session, completion: int, success: bool)
    | Funding(op: Op)

  function OpOf(cfg: Config, p: Pending): Op {
    match p
    case Admission(id, who, req) => ReserveOp(who.consumer, id, B.RequestHold(cfg, req))
    case Settlement(session, completion, success) => B.SettleOp(cfg, session, completion, success)
    case Funding(op) => op
  }

  function EventOf(p: Pending): B.Event {
    match p
    case Admission(id, who, req) => B.Arrive(id, Some(who), req)
    case Settlement(session, completion, success) => B.Complete(session.id, completion, success)
    case Funding(op) => B.Deposit(op)
  }

  /** trace lists the billing events in the order in which their transactions committed. */
  datatype Floor = Floor(
    state: T.State,
    pending: map<T.TxId, Pending>,
    open: map<string, B.Session>,
    trace: seq<B.Event>)

  datatype Action = Submit(tx: T.TxId, p: Pending) | Proceed(tx: T.TxId) | Abort(tx: T.TxId)

  predicate AdmissionRuns(f: Floor, id: string) {
    exists tx <- f.state.txs :: tx in f.pending && f.pending[tx].Admission? && f.pending[tx].id == id
  }

  /** Holds are for prepaid consumers under fresh ids, settlements for sessions that are open when they start. */
  predicate Allowed(f: Floor, p: Pending) {
    match p
    case Admission(id, who, _) =>
      who.kind == Prepaid && id !in f.state.committed.reservations && !AdmissionRuns(f, id)
    case Settlement(session, _, _) => session.id in f.open && f.open[session.id] == session
    case Funding(op) => op.CreditOp? || op.TopupOp?
  }

  function Opened(open: map<string, B.Session>, p: Pending, reply: Reply): map<string, B.Session> {
    match p
    case Admission(id, who, req) =>
      if reply.Decision? && reply.approved then open[id := B.Session(who.consumer, id, reply.reserved, req)] else open
    case Settlement(session, _, _) => open - {session.id}
    case Funding(_) => open
  }

  function CommitFloor(f: Floor, tx: T.TxId): Floor
    requires tx in f.state.txs && f.state.txs[tx].pc.Ready? && tx in f.pending
  {
    var t := f.state.txs[tx];
    Floor(
      T.Commit(f.state, tx), f.pending,
      Opened(f.open, f.pending[tx], T.ReplyOf(t.op, t.pc.plan)),
      f.trace + [EventOf(f.pending[tx])])
  }

  function Step(cfg: Config, f: Floor, a: Action): Floor {
    match a
    case Submit(tx, p) =>
      if tx in f.state.txs || !Allowed(f, p) then f
      else f.(state := T.Next(f.state, T.Start(tx, OpOf(cfg, p))), pending := f.pending[tx := p])
    case Proceed(tx) =>
      if S.Committing(f.state, T.Advance(tx)) && tx in f.pending then CommitFloor(f, tx)
      else f.(state := T.Next(f.state, T.Advance(tx)))
    case Abort(tx) => f.(state := T.Next(f.state, T.Cancel(tx)))
  }

  function Work(cfg: Config, db: Db, actions: seq<Action>): Floor {
    if actions == [] then Floor(T.Quiet(db), map[], map[], [])
    else Step(cfg, Work(cfg, db, actions[..|actions| - 1]), actions[|actions| - 1])
  }

  // ---------------------------------------------------------------- the invariant

  /** Whatever commits in the meantime, a running transaction still fits the open sessions and the tables. */
  predicate Standing(committed: Db, open: map<string, B.Session>, p: Pending) {
    match p
    case Admission(id, who, _) => who.kind == Prepaid && id !in committed.reservations
    case Settlement(session, _, _) =>
      if session.id in open then open[session.id] == session
      else && session.id in committed.reservations
           && committed.reservations[session.id].consumer == session.consumer
           && committed.reservations[session.id].status != Reserved
    case Funding(op) => op.CreditOp? || op.TopupOp?
  }

  ghost predicate Tracked(cfg: Config, f: Floor) {
    && (forall tx <- f.state.txs ::
          && tx in f.pending && f.state.txs[tx].op == OpOf(cfg, f.pending[tx])
          && Standing(f.state.committed, f.open, f.pending[tx]))
    && (forall tx <- f.state.txs, ty <- f.state.txs ::
          tx != ty && f.pending[tx].Admission? && f.pending[ty].Admission? ==> f.pending[tx].id != f.pending[ty].id)
  }

  /** The committed tables and the open sessions are those of the atomic run of the trace. */
  ghost predicate Follows(cfg: Config, db: Db, f: Floor) {
    && B.Serve(cfg, db, f.trace).db == f.state.committed
    && B.Serve(cfg, db, f.trace).open == f.open
  }

  ghost predicate FreshTrace(db: Db, f: Floor) {
    && B.FreshIds(db, f.trace)
    && (forall r <- db.reservations :: r in f.state.committed.reservations)
    && (forall i :: 0 <= i < |f.trace| && f.trace[i].Arrive? ==> f.trace[i].id in f.state.committed.reservations)
  }

  ghost predicate Agrees(cfg: Config, db: Db, f: Floor) {
    T.Inv(f.state) && Tracked(cfg, f) && Follows(cfg, db, f) && FreshTrace(db, f)
  }

  // ---------------------------------------------------------------- commits

  /** What a commit does to the tables is what its billing event does in the atomic run. */
  lemma {:induction false} CommitFollows(cfg: Config, db: Db, f: Floor, tx: T.TxId)
    requires Agrees(cfg, db, f) && tx in f.state.txs && f.state.txs[tx].pc.Ready?
    ensures var after := CommitFloor(f, tx);
            && Follows(cfg, db, after)
            && after.state.committed == Apply(f.state.committed, OpOf(cfg, f.pending[tx])).db
  {
    var g := B.Serve(cfg, db, f.trace);
    assert T.Relies(f.state.committed, f.state.locks, tx, f.state.txs[tx]);
    T.CommitIsAtomic(f.state, tx);
    B.ServeSnoc(cfg, db, f.trace, EventOf(f.pending[tx]));
    EventFollows(cfg, g, f.pending[tx], T.ReplyOf(f.state.txs[tx].op, f.state.txs[tx].pc.plan));
  }

  lemma {:induction false} EventFollows(cfg: Config, g: B.Gateway, p: Pending, reply: Reply)
    requires Standing(g.db, g.open, p) && Apply(g.db, OpOf(cfg, p)).reply == reply
    ensures B.Next(cfg, g, EventOf(p)).db == Apply(g.db, OpOf(cfg, p)).db
    ensures B.Next(cfg, g, EventOf(p)).open == Opened(g.open, p, reply)
  {
    if p.Settlement? && p.session.id !in g.open {
      assert g.open - {p.session.id} == g.open;
    }
  }

  /** Another running transaction keeps its standing when one commits. */
  lemma {:induction false} CommitKeepsStanding(cfg: Config, g: B.Gateway, p: Pending, q: Pending)
    requires Sound(g.db) && B.OpenOnHold(g) && Standing(g.db, g.open, p) && Standing(g.db, g.open, q)
    requires p.Admission? && q.Admission? ==> p.id != q.id
    ensures var next := B.Next(cfg, g, EventOf(p)); Standing(next.db, next.open, q)
  {
    var op := OpOf(cfg, p);
    EventFollows(cfg, g, p, Apply(g.db, op).reply);
    B.OnlyReservesAddRows(g.db, op);
    StepProgresses(g.db, op);
    if p.Settlement? && q.Settlement? && p.session.id == q.session.id && p.session.id in g.open {
      B.SettlementCharges(cfg, g, p.session.id, p.completion, p.success);
    }
  }

  lemma {:induction false} CommitAgrees(cfg: Config, db: Db, f: Floor, tx: T.TxId)
    requires Sound(db) && B.NoHolds(db)
    requires Agrees(cfg, db, f) && tx in f.state.txs && f.state.txs[tx].pc.Ready?
    ensures Agrees(cfg, db, CommitFloor(f, tx))
  {
    var after := CommitFloor(f, tx);
    var g := B.Serve(cfg, db, f.trace);
    var p := f.pending[tx];
    T.CommitKeeps(f.state, tx);
    CommitFollows(cfg, db, f, tx);
    B.ServeConsistent(cfg, db, f.trace);
    B.ServeSnoc(cfg, db, f.trace, EventOf(p));
    forall ty <- after.state.txs ensures Standing(after.state.committed, after.open, f.pending[ty]) {
      CommitKeepsStanding(cfg, g, p, f.pending[ty]);
    }
    CommitKeepsTrace(cfg, db, f, tx);
  }

  lemma {:induction false} CommitKeepsTrace(cfg: Config, db: Db, f: Floor, tx: T.TxId)
    requires Agrees(cfg, db, f) && tx in f.state.txs && f.state.txs[tx].pc.Ready?
    ensures FreshTrace(db, CommitFloor(f, tx))
  {
    var p := f.pending[tx];
    var op := OpOf(cfg, p);
    CommitFollows(cfg, db, f, tx);
    StepProgresses(f.state.committed, op);
    if p.Admission? {
      AdmissionAddsRow(cfg, f, tx);
    }
    FreshGrows(db, f.trace, EventOf(p));
  }

  lemma {:induction false} FreshGrows(db: Db, trace: seq<B.Event>, ev: B.Event)
    requires B.FreshIds(db, trace)
    requires ev.Arrive? ==> && ev.id !in db.reservations
                            && forall i :: 0 <= i < |trace| && trace[i].Arrive? ==> trace[i].id != ev.id
    ensures B.FreshIds(db, trace + [ev])
  {
  }

  lemma {:induction false} AdmissionAddsRow(cfg: Config, f: Floor, tx: T.TxId)
    requires T.Inv(f.state) && Tracked(cfg, f) && tx in f.state.txs && f.state.txs[tx].pc.Ready?
    requires f.pending[tx].Admission?
    ensures f.pending[tx].id in T.Commit(f.state, tx).committed.reservations
  {
    assert T.Relies(f.state.committed, f.state.locks, tx, f.state.txs[tx]);
  }

  // ---------------------------------------------------------------- the other steps

  /** Steps that show nothing to others change at most which transactions run and how far they are. */
  lemma {:induction false} QuietAgrees(cfg: Config, db: Db, f: Floor, next: T.State)
    requires Agrees(cfg, db, f) && T.Inv(next) && next.committed == f.state.committed
    requires forall tx <- next.txs :: tx in f.state.txs && next.txs[tx].op == f.state.txs[tx].op
    ensures Agrees(cfg, db, f.(state := next))
  {
  }

  lemma {:induction false} SubmitAgrees(cfg: Config, db: Db, f: Floor, tx: T.TxId, p: Pending)
    requires Agrees(cfg, db, f) && tx !in f.state.txs && Allowed(f, p)
    ensures Agrees(cfg, db, Step(cfg, f, Submit(tx, p)))
  {
    T.NextKeeps(f.state, T.Start(tx, OpOf(cfg, p)));
    SubmitTracked(cfg, f, tx, p);
  }

  lemma {:induction false} SubmitTracked(cfg: Config, f: Floor, tx: T.TxId, p: Pending)
    requires Tracked(cfg, f) && tx !in f.state.txs && Allowed(f, p)
    ensures Tracked(cfg, Step(cfg, f, Submit(tx, p)))
  {
    var next := Step(cfg, f, Submit(tx, p));
    assert next.state.txs == f.state.txs[tx := T.Tx(OpOf(cfg, p), T.Begin)];
    forall ty <- f.state.txs | p.Admission? && f.pending[ty].Admission? ensures f.pending[ty].id != p.id {
      assert !AdmissionRuns(f, p.id);
    }
  }

  lemma {:induction false} StepAgrees(cfg: Config, db: Db, f: Floor, a: Action)
    requires Sound(db) && B.NoHolds(db) && Agrees(cfg, db, f)
    ensures Agrees(cfg, db, Step(cfg, f, a))
  {
    match a
    case Submit(tx, p) =>
      if tx !in f.state.txs && Allowed(f, p) {
        SubmitAgrees(cfg, db, f, tx, p);
      }
    case Proceed(tx) =>
      var ev := T.Advance(tx);
      if S.Committing(f.state, ev) {
        CommitAgrees(cfg, db, f, tx);
      } else {
        T.NextKeeps(f.state, ev);
        S.OnlyCommitsShow(f.state, ev);
        S.StepsKeepOps(f.state, ev);
        QuietAgrees(cfg, db, f, T.Next(f.state, ev));
      }
    case Abort(tx) =>
      var ev := T.Cancel(tx);
      T.NextKeeps(f.state, ev);
      S.OnlyCommitsShow(f.state, ev);
      S.StepsKeepOps(f.state, ev);
      QuietAgrees(cfg, db, f, T.Next(f.state, ev));
  }

  // ---------------------------------------------------------------- whole runs

  /** Every interleaving of holds, settlements, deposits and rollbacks is an atomic billing run in commit order. */
  lemma {:induction false} InterleavedBilling(cfg: Config, db: Db, actions: seq<Action>)
    requires Sound(db) && B.NoHolds(db)
    ensures Agrees(cfg, db, Work(cfg, db, actions))
  {
    if actions != [] {
      InterleavedBilling(cfg, db, actions[..|actions| - 1]);
      StepAgrees(cfg, db, Work(cfg, db, actions[..|actions| - 1]), actions[|actions| - 1]);
    }
  }

  /**
   * So at every instant, also between the commits, the rows on hold are exactly those of the open sessions, and
   * each balance is what the accepted deposits, the bills and the open holds leave.
   */
  lemma {:induction false} HoldsAreOpenSessions(cfg: Config, db: Db, actions: seq<Action>, c: string)
    requires Sound(db) && B.NoHolds(db)
    ensures var f := Work(cfg, db, actions);
            var now := f.state.committed;
            && (forall r :: r in now.reservations && now.reservations[r].status == Reserved <==> r in f.open)
            && (forall r <- f.open ::
                  now.reservations[r] == Reservation(f.open[r].consumer, f.open[r].reserved, 0, Reserved))
            && Balance(now, c)
               == Balance(db, c) + B.Deposited(cfg, db, f.trace, c)
                  - B.BilledTo(B.Serve(cfg, db, f.trace).bills, c) - Total(now.reservations, Held(c))
  {
    InterleavedBilling(cfg, db, actions);
    var f := Work(cfg, db, actions);
    B.ServeConsistent(cfg, db, f.trace);
    B.BalancesAfterRun(cfg, db, f.trace, c);
  }
}
