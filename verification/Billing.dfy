/** The billing of whole chat requests: price, reserve, run the inference, finalize, for many requests at once. */
module Billing {
  import opened Wrappers
  import opened Text
  import opened Ledger
  import opened Conservation
  import opened Pricing
  import opened Store

  datatype Principal = Principal(consumer: string, kind: ConsumerKind)

  /** An enabled prepaid session; requests that are not billed prepaid have none. */
  datatype Session = Session(consumer: string, id: string, reserved: int, request: ChatRequest)

  /** What one completed session was asked to pay, with the price before it is cut to the hold. */
  datatype Bill = Bill(session: Session, completion: int, price: int, success: bool)

  datatype Begun = Begun(db: Db, session: Option<Session>, proceed: bool)

  function RequestPrice(cfg: Config, req: ChatRequest, completion: int): int {
    Price(PrepaidRates(cfg, req.model), InputTokens(req.messages), completion)
  }

  function RequestHold(cfg: Config, req: ChatRequest): int {
    ReserveEstimate(PrepaidRates(cfg, req.model), InputTokens(req.messages), req.maxTokens)
  }

  function Begin(cfg: Config, db: Db, id: string, who: Option<Principal>, req: ChatRequest): Begun {
    if who.None? || who.value.kind != Prepaid then Begun(db, None, true)
    else
      var out := Apply(db, ReserveOp(who.value.consumer, id, RequestHold(cfg, req)));
      if out.reply.Decision? && out.reply.approved
      then Begun(out.db, Some(Session(who.value.consumer, id, out.reply.reserved, req)), true)
      else Begun(out.db, None, false)
  }

  /** The finalize call for a session: the price, nothing on failure, never more than the hold. */
  function SettleOp(cfg: Config, session: Session, completion: int, success: bool): Op {
    var price := if success then RequestPrice(cfg, session.request, completion) else 0;
    FinalizeOp(session.consumer, session.id, if price > session.reserved then session.reserved else price, success)
  }

  method BeginPrepaidReservation(store: PostgresStore, cfg: Config, id: string, who: Option<Principal>,
          req: ChatRequest)
    returns (session: Option<Session>, proceed: bool)
    modifies store
    ensures Begun(store.Contents(), session, proceed) == Begin(cfg, old(store.Contents()), id, who, req)
  {
    if who.None? || who.value.kind != Prepaid {
      return None, true;
    }
    var input := EstimateInputTokens(req.messages);
    var reserve := ReserveEstimate(PrepaidRates(cfg, req.model), input, req.maxTokens);
    var reply := store.ReservePrepaidBalance(who.value.consumer, id, reserve);
    if !reply.Decision? || !reply.approved {
      return None, false;
    }
    return Some(Session(who.value.consumer, id, reply.reserved, req)), true;
  }

  /**
   * The call to the store is made on the request's own context: it reaches the store only if that context has not
   * ended, as it has once a write to the client failed, and an error is only logged.
   */
  method FinalizePrepaidReservation(store: PostgresStore, cfg: Config, session: Option<Session>,
          completion: int, success: bool, reached: bool)
    modifies store
    ensures store.Contents() == if session.None? || !reached then old(store.Contents())
                                else Apply(old(store.Contents()), SettleOp(cfg, session.value, completion, success)).db
  {
    if session.None? {
      return;
    }
    var input := EstimateInputTokens(session.value.request.messages);
    var actual := Price(PrepaidRates(cfg, session.value.request.model), input, completion);
    if !success {
      actual := 0;
    }
    if actual > session.value.reserved {
      actual := session.value.reserved;
    }
    if !reached {
      return;
    }
    var _ := store.FinalizePrepaidCharge(session.value.consumer, session.value.id, actual, success);
  }

  /** Only prepaid principals are held: others go on without a session, and nothing of theirs is touched. */
  lemma {:induction false} OnlyPrepaidAreHeld(cfg: Config, db: Db, id: string, who: Principal, req: ChatRequest)
    requires Explained(db) && id !in db.reservations && HasAccount(db, who.consumer)
    ensures var begun := Begin(cfg, db, id, Some(who), req);
            && Begin(cfg, db, id, None, req) == Begun(db, None, true)
            && (who.kind == X402 ==> begun == Begun(db, None, true))
            && (who.kind == Prepaid ==>
                  var covered := Net(db.ledger, who.consumer) >= RequestHold(cfg, req) > 0;
                  && begun.proceed == covered
                  && begun.session
                     == (if covered then Some(Session(who.consumer, id, RequestHold(cfg, req), req)) else None)
                  && Balance(begun.db, who.consumer)
                     == Net(db.ledger, who.consumer) - (if covered then RequestHold(cfg, req) else 0))
  {
    assert Balance(db, who.consumer) == Net(db.ledger, who.consumer);
  }

  /** A settlement asks for the price of a success, never for more than the hold, and for nothing on a failure. */
  lemma {:induction false} SettlementsAskAtMostTheHold(cfg: Config, session: Session, completion: int, success: bool)
    requires session.reserved >= 0
    ensures var op := SettleOp(cfg, session, completion, success);
            var price := RequestPrice(cfg, session.request, completion);
            && op.consumer == session.consumer && op.request == session.id && op.success == success
            && op.actual <= session.reserved
            && (!success ==> op.actual == 0)
            && (success && price <= session.reserved ==> op.actual == price)
  {
  }

  // ---------------------------------------------------------------- many sessions at once

  /** Complete is a settlement that reaches the store; a session whose settlement is lost is never completed. */
  datatype Event =
    | Arrive(id: string, who: Option<Principal>, req: ChatRequest)
    | Complete(id: string, completion: int, success: bool)
    | Deposit(op: Op)

  datatype Gateway = Gateway(db: Db, open: map<string, Session>, bills: seq<Bill>)

  function Next(cfg: Config, g: Gateway, ev: Event): Gateway {
    match ev
    case Arrive(id, who, req) =>
      var begun := Begin(cfg, g.db, id, who, req);
      g.(db := begun.db, open := if begun.session.Some? then g.open[id := begun.session.value] else g.open)
    case Complete(id, completion, success) =>
      if id !in g.open then g
      else
        var session := g.open[id];
        Gateway(
          Apply(g.db, SettleOp(cfg, session, completion, success)).db,
          g.open - {id},
          g.bills + [Bill(session, completion, RequestPrice(cfg, session.request, completion), success)])
    case Deposit(op) => if op.CreditOp? || op.TopupOp? then g.(db := Apply(g.db, op).db) else g
  }

  function Serve(cfg: Config, db: Db, events: seq<Event>): Gateway {
    if events == [] then Gateway(db, map[], [])
    else Next(cfg, Serve(cfg, db, events[..|events| - 1]), events[|events| - 1])
  }

  /** Request ids are never reused. */
  ghost predicate FreshIds(db: Db, events: seq<Event>) {
    && (forall i :: 0 <= i < |events| && events[i].Arrive? ==> events[i].id !in db.reservations)
    && (forall i, j :: 0 <= i < j < |events| && events[i].Arrive? && events[j].Arrive? ==> events[i].id != events[j].id)
  }

  ghost predicate NoHolds(db: Db) {
    forall r <- db.reservations :: db.reservations[r].status != Reserved
  }

  /** The smaller of price and hold on success, nothing on failure. */
  function Charge(hold: int, price: int, success: bool): int {
    var cut := if price > hold then hold else price;
    if success && cut > 0 then cut else 0
  }

  /** The charge a bill must lead to. */
  function Due(bill: Bill): int {
    Charge(bill.session.reserved, bill.price, bill.success)
  }

  function BilledTo(bills: seq<Bill>, c: string): int {
    if bills == [] then 0
    else
      var last := bills[|bills| - 1];
      BilledTo(bills[..|bills| - 1], c) + (if last.session.consumer == c then Due(last) else 0)
  }

  /** The reservation rows that are still on hold are those of the open sessions. */
  ghost predicate OpenOnHold(g: Gateway) {
    && (forall r <- g.db.reservations :: g.db.reservations[r].status == Reserved ==> r in g.open)
    && (forall id <- g.open ::
          && g.open[id].id == id
          && id in g.db.reservations
          && g.db.reservations[id] == Reservation(g.open[id].consumer, g.open[id].reserved, 0, Reserved))
  }

  /** The row of a billed session: closed, and charged exactly what is due. */
  ghost predicate BillSettled(g: Gateway, i: nat)
    requires i < |g.bills|
  {
    var s := g.bills[i].session;
    var due := Due(g.bills[i]);
    && s.id !in g.open
    && s.id in g.db.reservations
    && g.db.reservations[s.id] == Reservation(s.consumer, s.reserved, due, if due > 0 then Finalized else Released)
  }

  ghost predicate BillsSettled(g: Gateway) {
    && (forall i {:trigger BillSettled(g, i)} :: 0 <= i < |g.bills| ==> BillSettled(g, i))
    && (forall i, j :: 0 <= i < j < |g.bills| ==> g.bills[i].session.id != g.bills[j].session.id)
  }

  ghost predicate SpentIsBilled(db: Db, g: Gateway) {
    forall c :: Total(g.db.reservations, Spent(c)) == Total(db.reservations, Spent(c)) + BilledTo(g.bills, c)
  }

  ghost predicate Consistent(db: Db, g: Gateway) {
    Sound(g.db) && OpenOnHold(g) && BillsSettled(g) && SpentIsBilled(db, g)
  }

  /** The settlement of an open session succeeds and charges what is due. */
  lemma {:induction false} SettlementCharges(cfg: Config, g: Gateway, id: string, completion: int, success: bool)
    requires Sound(g.db) && OpenOnHold(g) && id in g.open
    ensures var session := g.open[id];
            var out := Apply(g.db, SettleOp(cfg, session, completion, success));
            var due := Due(Bill(session, completion, RequestPrice(cfg, session.request, completion), success));
            && out.reply.Settled?
            && out.db.reservations == g.db.reservations[id :=
                 Reservation(session.consumer, session.reserved, due, if due > 0 then Finalized else Released)]
  {
  }

  lemma {:induction false} CompleteKeeps(cfg: Config, db: Db, g: Gateway, ev: Event)
    requires Consistent(db, g) && ev.Complete?
    ensures Consistent(db, Next(cfg, g, ev))
  {
    if ev.id in g.open {
      var next := Next(cfg, g, ev);
      var session := g.open[ev.id];
      SettlementCharges(cfg, g, ev.id, ev.completion, ev.success);
      KeepsSound(g.db, SettleOp(cfg, session, ev.completion, ev.success));
      CompleteKeepsBills(cfg, g, ev);
      forall c
        ensures Total(next.db.reservations, Spent(c)) == Total(db.reservations, Spent(c)) + BilledTo(next.bills, c)
      {
        CompleteBills(cfg, g, ev, c);
        assert Total(g.db.reservations, Spent(c)) == Total(db.reservations, Spent(c)) + BilledTo(g.bills, c);
      }
    }
  }

  lemma {:induction false} CompleteKeepsBills(cfg: Config, g: Gateway, ev: Event)
    requires Sound(g.db) && OpenOnHold(g) && BillsSettled(g) && ev.Complete? && ev.id in g.open
    ensures BillsSettled(Next(cfg, g, ev))
  {
    var next := Next(cfg, g, ev);
    SettlementCharges(cfg, g, ev.id, ev.completion, ev.success);
    forall i | 0 <= i < |g.bills| ensures g.bills[i].session.id != ev.id && BillSettled(next, i) {
      assert BillSettled(g, i);
    }
    assert BillSettled(next, |g.bills|);
  }

  /** The total spent grows by what the new bill says is due. */
  lemma {:induction false} CompleteBills(cfg: Config, g: Gateway, ev: Event, c: string)
    requires Sound(g.db) && OpenOnHold(g) && ev.Complete? && ev.id in g.open
    ensures var next := Next(cfg, g, ev);
            Total(next.db.reservations, Spent(c)) - Total(g.db.reservations, Spent(c))
            == BilledTo(next.bills, c) - BilledTo(g.bills, c)
  {
    var next := Next(cfg, g, ev);
    SettlementCharges(cfg, g, ev.id, ev.completion, ev.success);
    TotalUpdate(g.db.reservations, ev.id, next.db.reservations[ev.id], Spent(c));
    assert next.bills[..|g.bills|] == g.bills;
  }

  lemma {:induction false} ArriveKeeps(cfg: Config, db: Db, g: Gateway, ev: Event)
    requires Consistent(db, g) && ev.Arrive? && ev.id !in g.db.reservations
    ensures Consistent(db, Next(cfg, g, ev))
  {
    var next := Next(cfg, g, ev);
    ArriveKeepsSound(cfg, g, ev);
    forall i | 0 <= i < |next.bills| ensures BillSettled(next, i) {
      assert BillSettled(g, i);
    }
    forall c
      ensures Total(next.db.reservations, Spent(c)) == Total(db.reservations, Spent(c)) + BilledTo(next.bills, c)
    {
      assert Total(g.db.reservations, Spent(c)) == Total(db.reservations, Spent(c)) + BilledTo(g.bills, c);
      ArriveSpendsNothing(cfg, g, ev, c);
    }
  }

  lemma {:induction false} ArriveKeepsSound(cfg: Config, g: Gateway, ev: Event)
    requires Sound(g.db) && ev.Arrive?
    ensures Sound(Next(cfg, g, ev).db)
  {
    if ev.who.Some? && ev.who.value.kind == Prepaid {
      KeepsSound(g.db, ReserveOp(ev.who.value.consumer, ev.id, RequestHold(cfg, ev.req)));
    }
  }

  lemma {:induction false} ArriveSpendsNothing(cfg: Config, g: Gateway, ev: Event, c: string)
    requires ev.Arrive? && ev.id !in g.db.reservations
    ensures Total(Next(cfg, g, ev).db.reservations, Spent(c)) == Total(g.db.reservations, Spent(c))
  {
    var next := Next(cfg, g, ev);
    if next.db != g.db {
      TotalUpdate(g.db.reservations, ev.id, next.db.reservations[ev.id], Spent(c));
    }
  }

  lemma {:induction false} DepositsLeaveReservations(db: Db, op: Op)
    requires op.CreditOp? || op.TopupOp?
    ensures Apply(db, op).db.reservations == db.reservations
  {
  }

  lemma {:induction false} SameReservationsKeep(db: Db, g: Gateway, next: Gateway)
    requires Consistent(db, g) && Sound(next.db)
    requires next.db.reservations == g.db.reservations && next.open == g.open && next.bills == g.bills
    ensures Consistent(db, next)
  {
    forall i | 0 <= i < |next.bills| ensures BillSettled(next, i) {
      assert BillSettled(g, i);
    }
    forall c
      ensures Total(next.db.reservations, Spent(c)) == Total(db.reservations, Spent(c)) + BilledTo(next.bills, c)
    {
      assert Total(g.db.reservations, Spent(c)) == Total(db.reservations, Spent(c)) + BilledTo(g.bills, c);
    }
  }

  lemma {:induction false} DepositKeeps(cfg: Config, db: Db, g: Gateway, ev: Event)
    requires Consistent(db, g) && ev.Deposit?
    ensures Consistent(db, Next(cfg, g, ev))
  {
    KeepsSound(g.db, ev.op);
    if Next(cfg, g, ev) != g {
      DepositsLeaveReservations(g.db, ev.op);
      SameReservationsKeep(db, g, Next(cfg, g, ev));
    }
  }

  lemma {:induction false} OnlyReservesAddRows(db: Db, op: Op)
    ensures forall r <- Apply(db, op).db.reservations :: r in db.reservations || (op.ReserveOp? && r == op.request)
  {
  }

  /** Reservation rows come from earlier arrivals only. */
  lemma {:induction false} RowsHaveArrived(cfg: Config, db: Db, events: seq<Event>, id: string)
    requires id !in db.reservations
    requires forall i :: 0 <= i < |events| && events[i].Arrive? ==> events[i].id != id
    ensures id !in Serve(cfg, db, events).db.reservations
  {
    if events != [] {
      var g := Serve(cfg, db, events[..|events| - 1]);
      RowsHaveArrived(cfg, db, events[..|events| - 1], id);
      match events[|events| - 1]
      case Arrive(arriving, who, req) =>
        if who.Some? {
          OnlyReservesAddRows(g.db, ReserveOp(who.value.consumer, arriving, RequestHold(cfg, req)));
        }
      case Complete(done, completion, success) =>
        if done in g.open {
          OnlyReservesAddRows(g.db, SettleOp(cfg, g.open[done], completion, success));
        }
      case Deposit(op) => OnlyReservesAddRows(g.db, op);
    }
  }

  /** Every reachable state of the gateway keeps its sessions, its bills and the tables in agreement. */
  lemma {:induction false} ServeConsistent(cfg: Config, db: Db, events: seq<Event>)
    requires Sound(db) && NoHolds(db) && FreshIds(db, events)
    ensures Consistent(db, Serve(cfg, db, events))
  {
    if events == [] {
      assert forall c :: BilledTo([], c) == 0;
    } else {
      var before := events[..|events| - 1];
      var ev := events[|events| - 1];
      ServeConsistent(cfg, db, before);
      match ev
      case Arrive(arriving, _, _) =>
        RowsHaveArrived(cfg, db, before, arriving);
        ArriveKeeps(cfg, db, Serve(cfg, db, before), ev);
      case Complete(_, _, _) => CompleteKeeps(cfg, db, Serve(cfg, db, before), ev);
      case Deposit(_) => DepositKeeps(cfg, db, Serve(cfg, db, before), ev);
    }
  }

  function BilledIds(bills: seq<Bill>): set<string> {
    set bill <- bills :: bill.session.id
  }

  /** No hold is forgotten: a reservation made during the run belongs to an open session or has its one bill. */
  lemma {:induction false} EveryHoldIsOpenOrBilled(cfg: Config, db: Db, events: seq<Event>)
    requires Sound(db) && NoHolds(db) && FreshIds(db, events)
    ensures var g := Serve(cfg, db, events);
            forall r <- g.db.reservations :: r in db.reservations || r in g.open || r in BilledIds(g.bills)
  {
    if events != [] {
      var before := events[..|events| - 1];
      var g := Serve(cfg, db, before);
      var next := Serve(cfg, db, events);
      EveryHoldIsOpenOrBilled(cfg, db, before);
      ServeConsistent(cfg, db, before);
      ServeConsistent(cfg, db, events);
      forall r <- next.db.reservations
        ensures r in db.reservations || r in next.open || r in BilledIds(next.bills)
      {
        HoldIsOpenOrBilled(cfg, g, events[|events| - 1], r);
      }
    }
  }

  lemma {:induction false} HoldIsOpenOrBilled(cfg: Config, g: Gateway, ev: Event, r: string)
    requires Sound(g.db) && OpenOnHold(g) && OpenOnHold(Next(cfg, g, ev))
    requires r in Next(cfg, g, ev).db.reservations
    ensures var next := Next(cfg, g, ev);
            r in next.open || r in BilledIds(next.bills)
            || (r in g.db.reservations && r !in g.open && r !in BilledIds(g.bills))
  {
    var next := Next(cfg, g, ev);
    if r in g.open && r !in next.open {
      assert next.bills[|g.bills|].session.id == r;
    }
    forall id | id in BilledIds(g.bills) ensures id in BilledIds(next.bills) {
      var bill :| bill in g.bills && bill.session.id == id;
      assert bill in next.bills;
    }
    match ev
    case Arrive(id, who, req) =>
      if who.Some? {
        OnlyReservesAddRows(g.db, ReserveOp(who.value.consumer, id, RequestHold(cfg, req)));
      }
    case Complete(id, completion, success) =>
      if id in g.open {
        OnlyReservesAddRows(g.db, SettleOp(cfg, g.open[id], completion, success));
      }
    case Deposit(op) => OnlyReservesAddRows(g.db, op);
  }

  lemma {:induction false} NothingOnHold(reservations: map<string, Reservation>, c: string)
    requires forall r <- reservations :: reservations[r].status != Reserved
    ensures Total(reservations, Held(c)) == 0
    decreases |reservations|
  {
    if reservations != map[] {
      var r :| r in reservations;
      TotalWithout(reservations, r, Held(c));
      NothingOnHold(reservations - {r}, c);
    }
  }

  // ---------------------------------------------------------------- deposits

  /** What a call pays in for a consumer: an accepted credit, or a top-up whose fingerprint is new. */
  function PaidIn(db: Db, op: Op, c: string): int {
    var reply := Apply(db, op).reply;
    if op.CreditOp? && op.consumer == c && reply == Done then op.amount
    else if op.TopupOp? && TrimSpace(op.consumer) == c && reply.Recorded? && reply.inserted then op.amount
    else 0
  }

  /** The deposits of a run that were accepted for a consumer. */
  function Deposited(cfg: Config, db: Db, events: seq<Event>, c: string): int {
    if events == [] then 0
    else
      var before := events[..|events| - 1];
      var ev := events[|events| - 1];
      Deposited(cfg, db, before, c) + (if ev.Deposit? then PaidIn(Serve(cfg, db, before).db, ev.op, c) else 0)
  }

  lemma {:induction false} CreditsArePaidIn(db: Db, op: Op, c: string)
    ensures Credited(Apply(db, op).db.ledger, c) == Credited(db.ledger, c) + PaidIn(db, op, c)
  {
    match op
    case ReserveOp(payer, request, amount) => PostCredited(db, payer, Reserve, -amount, ReserveReference(request), c);
    case FinalizeOp(payer, request, actual, success) =>
      if request in db.reservations {
        var reserved := db.reservations[request].reserved;
        SettledPostsCredited(db, payer, request, reserved, SettledCharge(reserved, actual, success), c);
      }
    case CreditOp(payer, amount, note) => PostCredited(db, payer, Credit, amount, note, c);
    case TopupOp(payer, fingerprint, amount) =>
      TopupCredits(db, TrimSpace(payer), TrimSpace(fingerprint), amount, c);
    case _ =>
  }

  lemma {:induction false} TopupCredits(db: Db, payer: string, fingerprint: string, amount: int, c: string)
    ensures var out := ApplyTopup(db, payer, fingerprint, amount);
            Credited(out.db.ledger, c)
            == Credited(db.ledger, c)
               + (if payer == c && out.reply.Recorded? && out.reply.inserted then amount else 0)
  {
    PostCredited(db, payer, Credit, amount, TopupReference(fingerprint), c);
  }

  /** The ledger's credits are the accepted deposits. */
  lemma {:induction false} CreditsAreDeposits(cfg: Config, db: Db, events: seq<Event>, c: string)
    ensures Credited(Serve(cfg, db, events).db.ledger, c) == Credited(db.ledger, c) + Deposited(cfg, db, events, c)
  {
    if events != [] {
      var before := events[..|events| - 1];
      CreditsAreDeposits(cfg, db, before, c);
      EventCredits(cfg, Serve(cfg, db, before), events[|events| - 1], c);
    }
  }

  lemma {:induction false} EventCredits(cfg: Config, g: Gateway, ev: Event, c: string)
    ensures Credited(Next(cfg, g, ev).db.ledger, c)
         == Credited(g.db.ledger, c) + (if ev.Deposit? then PaidIn(g.db, ev.op, c) else 0)
  {
    match ev
    case Arrive(id, who, req) =>
      if who.Some? {
        CreditsArePaidIn(g.db, ReserveOp(who.value.consumer, id, RequestHold(cfg, req)), c);
      }
    case Complete(id, completion, success) =>
      if id in g.open {
        CreditsArePaidIn(g.db, SettleOp(cfg, g.open[id], completion, success), c);
      }
    case Deposit(op) => CreditsArePaidIn(g.db, op, c);
  }

  // ---------------------------------------------------------------- where the money is after a run

  /**
   * At every point of every run each balance has moved by the accepted deposits, minus the smaller of price and
   * hold for each settled success, minus the holds of the sessions not settled yet, or never; and no hold remains
   * exactly when no session is left open.
   */
  lemma {:induction false} BalancesAfterRun(cfg: Config, db: Db, events: seq<Event>, c: string)
    requires Sound(db) && NoHolds(db) && FreshIds(db, events)
    ensures var g := Serve(cfg, db, events);
            && (NoHolds(g.db) <==> g.open == map[])
            && Balance(g.db, c)
               == Balance(db, c) + Deposited(cfg, db, events, c)
                  - BilledTo(g.bills, c) - Total(g.db.reservations, Held(c))
            && (g.open == map[] ==> Total(g.db.reservations, Held(c)) == 0)
  {
    var g := Serve(cfg, db, events);
    ServeConsistent(cfg, db, events);
    CreditsAreDeposits(cfg, db, events, c);
    NothingOnHold(db.reservations, c);
    if g.open == map[] {
      NothingOnHold(g.db.reservations, c);
    } else {
      var id :| id in g.open;
      assert g.db.reservations[id].status == Reserved;
    }
    assert ConservedFor(db, c) && ConservedFor(g.db, c);
  }

  lemma {:induction false} ServeSnoc(cfg: Config, db: Db, events: seq<Event>, ev: Event)
    ensures Serve(cfg, db, events + [ev]) == Next(cfg, Serve(cfg, db, events), ev)
  {
    assert (events + [ev])[..|events|] == events;
  }

  predicate Completes(events: seq<Event>, id: string) {
    exists ev <- events :: ev.Complete? && ev.id == id
  }

  /** An open session's id does not arrive again, and only its completion closes it. */
  lemma {:induction false} StepKeepsSession(cfg: Config, db: Db, events: seq<Event>, more: seq<Event>,
          ev: Event, id: string)
    requires Sound(db) && NoHolds(db) && FreshIds(db, events + more + [ev]) && id in Serve(cfg, db, events).open
    ensures !(ev.Arrive? && ev.id == id)
    ensures var g := Serve(cfg, db, events + more);
            id in Next(cfg, g, ev).open <==> id in g.open && !(ev.Complete? && ev.id == id)
  {
    var all := events + more + [ev];
    FreshPrefix(db, all, |events|);
    assert all[..|events|] == events;
    ServeConsistent(cfg, db, events);
    if ev.Arrive? && ev.id == id {
      assert all[|all| - 1] == ev;
      forall i | 0 <= i < |events| && events[i].Arrive? ensures events[i].id != id {
        assert all[i] == events[i];
      }
      RowsHaveArrived(cfg, db, events, id);
    }
  }

  lemma {:induction false} FreshPrefix(db: Db, events: seq<Event>, n: nat)
    requires FreshIds(db, events) && n <= |events|
    ensures FreshIds(db, events[..n])
  {
  }

  /**
   * A session whose settlement does not reach the store keeps its money on hold for good: through every further
   * run its row stays reserved exactly as long as it is not completed.
   */
  lemma {:induction false} HoldStaysUntilCompleted(cfg: Config, db: Db, events: seq<Event>, more: seq<Event>,
          id: string)
    requires Sound(db) && NoHolds(db) && FreshIds(db, events + more) && id in Serve(cfg, db, events).open
    ensures var now := Serve(cfg, db, events + more);
            && (id in now.open <==> !Completes(more, id))
            && id in now.db.reservations
            && (now.db.reservations[id].status == Reserved <==> !Completes(more, id))
  {
    OpenUntilCompleted(cfg, db, events, more, id);
    FreshPrefix(db, events + more, |events|);
    assert (events + more)[..|events|] == events;
    ServeConsistent(cfg, db, events);
    ServeConsistent(cfg, db, events + more);
    RowsStay(cfg, db, events, more, id);
  }

  lemma {:induction false} OpenUntilCompleted(cfg: Config, db: Db, events: seq<Event>, more: seq<Event>, id: string)
    requires Sound(db) && NoHolds(db) && FreshIds(db, events + more) && id in Serve(cfg, db, events).open
    ensures id in Serve(cfg, db, events + more).open <==> !Completes(more, id)
  {
    if more == [] {
      assert events + more == events;
    } else {
      var most, ev := more[..|more| - 1], more[|more| - 1];
      assert events + more == events + most + [ev];
      assert (events + most + [ev])[..|events + most|] == events + most;
      FreshPrefix(db, events + more, |events + most|);
      OpenUntilCompleted(cfg, db, events, most, id);
      StepKeepsSession(cfg, db, events, most, ev, id);
      ServeSnoc(cfg, db, events + most, ev);
      assert more == most + [ev];
      assert Completes(more, id) <==> Completes(most, id) || (ev.Complete? && ev.id == id);
    }
  }

  lemma {:induction false} RowsStay(cfg: Config, db: Db, events: seq<Event>, more: seq<Event>, id: string)
    requires id in Serve(cfg, db, events).db.reservations
    ensures id in Serve(cfg, db, events + more).db.reservations
  {
    if more == [] {
      assert events + more == events;
    } else {
      var most, ev := more[..|more| - 1], more[|more| - 1];
      assert events + more == events + most + [ev];
      RowsStay(cfg, db, events, most, id);
      ServeSnoc(cfg, db, events + most, ev);
      EventKeepsRows(cfg, Serve(cfg, db, events + most), ev, id);
    }
  }

  lemma {:induction false} EventKeepsRows(cfg: Config, g: Gateway, ev: Event, id: string)
    requires id in g.db.reservations
    ensures id in Next(cfg, g, ev).db.reservations
  {
    match ev
    case Arrive(arriving, who, req) =>
      if who.Some? {
        StepProgresses(g.db, ReserveOp(who.value.consumer, arriving, RequestHold(cfg, req)));
      }
    case Complete(done, completion, success) =>
      if done in g.open {
        StepProgresses(g.db, SettleOp(cfg, g.open[done], completion, success));
      }
    case Deposit(op) => StepProgresses(g.db, op);
  }

  /** A successful request at a positive price is finalized with at least 1 micro-USDC; a failed one is released. */
  lemma {:induction false} SuccessIsCharged(cfg: Config, db: Db, events: seq<Event>, i: nat)
    requires Sound(db) && NoHolds(db) && FreshIds(db, events)
    requires i < |Serve(cfg, db, events).bills|
    ensures var g := Serve(cfg, db, events);
            var bill := g.bills[i];
            && bill.session.id in g.db.reservations
            && var row := g.db.reservations[bill.session.id];
            && (bill.success && bill.price > 0 ==> row.status == Finalized && 1 <= row.charged <= bill.price)
            && (bill.success && 0 <= bill.price <= bill.session.reserved ==> row.charged == bill.price)
            && (bill.success && bill.price > bill.session.reserved ==> row.charged == bill.session.reserved)
            && (!bill.success ==> row.status == Released && row.charged == 0)
  {
    var g := Serve(cfg, db, events);
    ServeConsistent(cfg, db, events);
    assert BillSettled(g, i);
    assert Coherent(g.db.reservations[g.bills[i].session.id]);
  }

  lemma {:induction false} BillsArePriced(cfg: Config, db: Db, events: seq<Event>)
    ensures forall bill <- Serve(cfg, db, events).bills ::
              bill.price == RequestPrice(cfg, bill.session.request, bill.completion)
  {
    if events != [] {
      BillsArePriced(cfg, db, events[..|events| - 1]);
    }
  }

  /** In particular every success is charged at a positive rate, with a floor always and else while it is in range. */
  lemma {:induction false} PositiveRateIsCharged(cfg: Config, db: Db, events: seq<Event>, i: nat)
    requires Sound(db) && NoHolds(db) && FreshIds(db, events)
    requires i < |Serve(cfg, db, events).bills|
    requires var bill := Serve(cfg, db, events).bills[i];
             var rates := PrepaidRates(cfg, bill.session.request.model);
             && bill.success && rates.per1K > 0
             && (rates.minAmount > 0
                 || (bill.completion >= 0
                     && Fits(rates, InputTokens(bill.session.request.messages), bill.completion)))
    ensures var g := Serve(cfg, db, events);
            var id := g.bills[i].session.id;
            id in g.db.reservations && g.db.reservations[id].status == Finalized && g.db.reservations[id].charged >= 1
  {
    var bill := Serve(cfg, db, events).bills[i];
    SuccessIsCharged(cfg, db, events, i);
    BillsArePriced(cfg, db, events);
    var rates := PrepaidRates(cfg, bill.session.request.model);
    if rates.minAmount > 0 {
      FlooredPriceIsPositive(rates, InputTokens(bill.session.request.messages), bill.completion);
    } else {
      PriceRange(rates, InputTokens(bill.session.request.messages), bill.completion);
    }
  }

  // ---------------------------------------------------------------- recorded usage

  /** The cost written to the usage row: the full price of a successful prepaid request. */
  function RecordedCost(bill: Bill): int {
    if bill.success then bill.price else 0
  }

  /**
   * For every bill of every run, the recorded cost covers what the request was charged, and equals it exactly
   * when the hold covers the price. (A success can only be recorded below its charge at a negative price, which
   * takes a price out of range.)
   */
  lemma {:induction false} CostCoversCharge(cfg: Config, db: Db, events: seq<Event>, i: nat)
    requires Sound(db) && NoHolds(db) && FreshIds(db, events)
    requires i < |Serve(cfg, db, events).bills|
    ensures var g := Serve(cfg, db, events);
            var bill := g.bills[i];
            && bill.session.id in g.db.reservations
            && var charged := g.db.reservations[bill.session.id].charged;
            && (charged <= RecordedCost(bill) <==> !bill.success || bill.price >= 0)
            && (charged == RecordedCost(bill) <==> !bill.success || 0 <= bill.price <= bill.session.reserved)
  {
    var g := Serve(cfg, db, events);
    ServeConsistent(cfg, db, events);
    assert BillSettled(g, i);
    assert Coherent(g.db.reservations[g.bills[i].session.id]);
  }

  /** A fresh session holds the estimate, so an answer no longer than expected is recorded at what it was charged. */
  lemma {:induction false} ExpectedAnswerCostsItsCharge(cfg: Config, db: Db, id: string, who: Principal,
          req: ChatRequest, completion: int)
    requires Sound(db) && id !in db.reservations
    requires Begin(cfg, db, id, Some(who), req).session.Some?
    requires var rates := PrepaidRates(cfg, req.model);
             && completion <= DefaultOutput(rates, req.maxTokens)
             && Fits(rates, InputTokens(req.messages), DefaultOutput(rates, req.maxTokens))
    ensures var session := Begin(cfg, db, id, Some(who), req).session.value;
            var bill := Bill(session, completion, RequestPrice(cfg, req, completion), true);
            Due(bill) == RecordedCost(bill) == RequestPrice(cfg, req, completion)
  {
    HoldCoversExpectedAnswer(PrepaidRates(cfg, req.model), InputTokens(req.messages), req.maxTokens, completion);
  }
}
