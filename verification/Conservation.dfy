/** What every run of store calls keeps: the ledger explains the balances, and the reservations explain the ledger. */
module Conservation {
  import opened Wrappers
  import opened Text
  import opened Ledger

  // ---------------------------------------------------------------- sums over the ledger

  function Net(ledger: seq<Entry>, c: string): int {
    if ledger == [] then 0
    else
      var e := ledger[|ledger| - 1];
      Net(ledger[..|ledger| - 1], c) + (if e.consumer == c then e.amount else 0)
  }

  function Credited(ledger: seq<Entry>, c: string): int {
    if ledger == [] then 0
    else
      var e := ledger[|ledger| - 1];
      Credited(ledger[..|ledger| - 1], c) + (if e.consumer == c && e.kind == Credit then e.amount else 0)
  }

  datatype Movement = Movement(consumer: string, kind: EntryKind, amount: int)

  predicate Concerns(e: Entry, request: string) {
    match e.kind
    case Reserve => e.reference == ReserveReference(request)
    case Release => e.reference == ReleaseReference(request)
    case Debit => e.reference == DebitReference(request)
    case Credit => false
  }

  /** The ledger entries of one request, in ledger order. */
  function Trail(ledger: seq<Entry>, request: string): seq<Movement> {
    if ledger == [] then []
    else
      var e := ledger[|ledger| - 1];
      Trail(ledger[..|ledger| - 1], request)
      + (if Concerns(e, request) then [Movement(e.consumer, e.kind, e.amount)] else [])
  }

  lemma {:induction false} Snoc(ledger: seq<Entry>, e: Entry, c: string, request: string)
    ensures Net(ledger + [e], c) == Net(ledger, c) + (if e.consumer == c then e.amount else 0)
    ensures Credited(ledger + [e], c)
         == Credited(ledger, c) + (if e.consumer == c && e.kind == Credit then e.amount else 0)
    ensures Trail(ledger + [e], request)
         == Trail(ledger, request) + (if Concerns(e, request) then [Movement(e.consumer, e.kind, e.amount)] else [])
  {
  }

  lemma {:induction false} ReferencesDiffer(a: string, b: string)
    requires a != b
    ensures ReserveReference(a) != ReserveReference(b)
    ensures ReleaseReference(a) != ReleaseReference(b)
    ensures DebitReference(a) != DebitReference(b)
  {
    assert ReserveReference(a)[8..] == a && ReserveReference(b)[8..] == b;
    assert ReleaseReference(a)[8..] == a && ReleaseReference(b)[8..] == b;
    assert DebitReference(a)[6..] == a && DebitReference(b)[6..] == b;
  }

  // ---------------------------------------------------------------- sums over the reservations

  datatype Measure = Held(consumer: string) | Spent(consumer: string)

  function Weight(m: Measure, res: Reservation): int {
    if res.consumer != m.consumer then 0
    else if m.Held? then (if res.status == Reserved then res.reserved else 0)
    else (if res.status == Finalized then res.charged else 0)
  }

  ghost function Total(reservations: map<string, Reservation>, m: Measure): int
    decreases |reservations|
  {
    if reservations == map[] then 0
    else
      var request :| request in reservations;
      Weight(m, reservations[request]) + Total(reservations - {request}, m)
  }

  lemma {:induction false} TotalWithout(reservations: map<string, Reservation>, request: string, m: Measure)
    requires request in reservations
    ensures Total(reservations, m) == Weight(m, reservations[request]) + Total(reservations - {request}, m)
    decreases |reservations|
  {
    var first :| first in reservations
      && Total(reservations, m) == Weight(m, reservations[first]) + Total(reservations - {first}, m);
    if first != request {
      TotalWithout(reservations - {first}, request, m);
      TotalWithout(reservations - {request}, first, m);
      assert reservations - {first} - {request} == reservations - {request} - {first};
    }
  }

  lemma {:induction false} TotalUpdate(reservations: map<string, Reservation>, request: string,
          res: Reservation, m: Measure)
    ensures Total(reservations[request := res], m)
         == Total(reservations, m) + Weight(m, res)
            - (if request in reservations then Weight(m, reservations[request]) else 0)
  {
    var updated := reservations[request := res];
    TotalWithout(updated, request, m);
    if request in reservations {
      TotalWithout(reservations, request, m);
      assert updated - {request} == reservations - {request};
    } else {
      assert updated - {request} == reservations;
    }
  }

  // ---------------------------------------------------------------- the invariants

  /** The foreign keys. */
  ghost predicate Grounded(db: Db) {
    && (forall c <- db.balances :: c in db.consumers)
    && (forall r <- db.reservations :: db.reservations[r].consumer in db.balances)
  }

  predicate EntryExplained(ledger: seq<Entry>, i: nat)
    requires i < |ledger|
  {
    ledger[i].balanceAfter == Net(ledger[..i + 1], ledger[i].consumer)
  }

  /** Every balance is the sum of the consumer's ledger amounts, and every balance_after the sum up to its entry. */
  ghost predicate Explained(db: Db) {
    && (forall c :: Balance(db, c) == Net(db.ledger, c))
    && (forall i {:trigger EntryExplained(db.ledger, i)} :: 0 <= i < |db.ledger| ==> EntryExplained(db.ledger, i))
  }

  ghost predicate NeverNegative(db: Db) {
    && (forall c <- db.balances :: db.balances[c] >= 0)
    && (forall i :: 0 <= i < |db.ledger| ==> db.ledger[i].balanceAfter >= 0)
  }

  predicate Coherent(res: Reservation) {
    && 0 < res.reserved
    && 0 <= res.charged <= res.reserved
    && (res.charged > 0 <==> res.status == Finalized)
  }

  /** The entries a reservation in each of the three states must have left in the ledger. */
  function Expected(res: Reservation): seq<Movement> {
    var hold := [Movement(res.consumer, Reserve, -res.reserved)];
    var back := [Movement(res.consumer, Release, res.reserved)];
    match res.status
    case Reserved => hold
    case Released => hold + back
    case Finalized => hold + back + [Movement(res.consumer, Debit, -res.charged)]
  }

  function ExpectedTrail(reservations: map<string, Reservation>, request: string): seq<Movement> {
    if request in reservations then Expected(reservations[request]) else []
  }

  ghost predicate Traced(db: Db) {
    && (forall r <- db.reservations :: Coherent(db.reservations[r]))
    && (forall request :: Trail(db.ledger, request) == ExpectedTrail(db.reservations, request))
  }

  ghost predicate ConservedFor(db: Db, c: string) {
    Credited(db.ledger, c) == Balance(db, c) + Total(db.reservations, Held(c)) + Total(db.reservations, Spent(c))
  }

  /** Money in = money available + money on hold + money charged. */
  ghost predicate Conserved(db: Db) {
    forall c :: ConservedFor(db, c)
  }

  ghost predicate Sound(db: Db) {
    Grounded(db) && Explained(db) && Traced(db) && Conserved(db)
  }

  // ---------------------------------------------------------------- one posting

  lemma {:induction false} PostExplained(db: Db, c: string, kind: EntryKind, amount: int, reference: string)
    requires Explained(db)
    ensures Explained(Post(db, c, kind, amount, reference))
  {
    var next := Post(db, c, kind, amount, reference);
    var e := next.ledger[|db.ledger|];
    forall d ensures Balance(next, d) == Net(next.ledger, d) {
      Snoc(db.ledger, e, d, "");
      assert Balance(db, d) == Net(db.ledger, d);
    }
    forall i | 0 <= i < |next.ledger| ensures EntryExplained(next.ledger, i) {
      if i < |db.ledger| {
        assert EntryExplained(db.ledger, i);
        assert next.ledger[..i + 1] == db.ledger[..i + 1];
      } else {
        assert next.ledger[..i + 1] == next.ledger;
      }
    }
  }

  lemma {:induction false} PostTrail(db: Db, c: string, kind: EntryKind, amount: int, request: string,
          reference: string, other: string)
    requires reference == match kind
      case Reserve => ReserveReference(request)
      case Release => ReleaseReference(request)
      case Debit => DebitReference(request)
      case Credit => reference
    ensures Trail(Post(db, c, kind, amount, reference).ledger, other)
         == Trail(db.ledger, other) + (if kind != Credit && other == request then [Movement(c, kind, amount)] else [])
  {
    var next := Post(db, c, kind, amount, reference);
    Snoc(db.ledger, next.ledger[|db.ledger|], c, other);
    if other != request {
      ReferencesDiffer(other, request);
    }
  }

  lemma {:induction false} PostCredited(db: Db, c: string, kind: EntryKind, amount: int, reference: string, d: string)
    ensures Credited(Post(db, c, kind, amount, reference).ledger, d)
         == Credited(db.ledger, d) + (if kind == Credit && c == d then amount else 0)
  {
  }

  // ---------------------------------------------------------------- every call keeps the invariants

  lemma {:induction false} KeepsGrounded(db: Db, op: Op)
    requires Grounded(db)
    ensures Grounded(Apply(db, op).db)
  {
  }

  lemma {:induction false} SettledPostsExplained(db: Db, c: string, request: string, reserved: int, charge: int)
    requires Explained(db)
    ensures Explained(SettledPosts(db, c, request, reserved, charge))
  {
    PostExplained(db, c, Release, reserved, ReleaseReference(request));
    var released := Post(db, c, Release, reserved, ReleaseReference(request));
    PostExplained(released, c, Debit, -charge, DebitReference(request));
  }

  lemma {:induction false} SettledPostsCredited(db: Db, c: string, request: string, reserved: int, charge: int,
          d: string)
    ensures Credited(SettledPosts(db, c, request, reserved, charge).ledger, d) == Credited(db.ledger, d)
  {
  }

  lemma {:induction false} SettledPostsTrail(db: Db, c: string, request: string, reserved: int, charge: int,
          other: string)
    ensures Trail(SettledPosts(db, c, request, reserved, charge).ledger, other)
         == Trail(db.ledger, other)
            + (if other != request then []
               else [Movement(c, Release, reserved)] + (if charge > 0 then [Movement(c, Debit, -charge)] else []))
  {
    PostTrail(db, c, Release, reserved, request, ReleaseReference(request), other);
    if charge > 0 {
      var released := Post(db, c, Release, reserved, ReleaseReference(request));
      PostTrail(released, c, Debit, -charge, request, DebitReference(request), other);
      Appended(Trail(db.ledger, other), Movement(c, Release, reserved), Movement(c, Debit, -charge));
    }
  }

  lemma {:induction false} Appended(trail: seq<Movement>, first: Movement, second: Movement)
    ensures trail + [first] + [second] == trail + ([first] + [second])
  {
  }

  function Reserving(db: Db, c: string, request: string, amount: int): Db {
    Post(db, c, Reserve, -amount, ReserveReference(request))
    .(reservations := db.reservations[request := Reservation(c, amount, 0, Reserved)])
  }

  lemma {:induction false} ReserveKeepsExplained(db: Db, c: string, request: string, amount: int)
    requires Explained(db)
    ensures Explained(Reserving(db, c, request, amount))
  {
    PostExplained(db, c, Reserve, -amount, ReserveReference(request));
    SameBalances(Post(db, c, Reserve, -amount, ReserveReference(request)), Reserving(db, c, request, amount));
  }

  lemma {:induction false} ReserveKeepsTraced(db: Db, c: string, request: string, amount: int)
    requires Traced(db) && amount > 0 && request !in db.reservations
    ensures Traced(Reserving(db, c, request, amount))
  {
    var next := Reserving(db, c, request, amount);
    forall other ensures Trail(next.ledger, other) == ExpectedTrail(next.reservations, other) {
      ReserveKeepsTrail(db, c, request, amount, other);
    }
  }

  lemma {:induction false} ReserveKeepsTrail(db: Db, c: string, request: string, amount: int, other: string)
    requires request !in db.reservations && Trail(db.ledger, other) == ExpectedTrail(db.reservations, other)
    ensures var next := Reserving(db, c, request, amount);
            Trail(next.ledger, other) == ExpectedTrail(next.reservations, other)
  {
    PostTrail(db, c, Reserve, -amount, request, ReserveReference(request), other);
    FirstMovement(Trail(db.ledger, other), Movement(c, Reserve, -amount));
    assert Expected(Reservation(c, amount, 0, Reserved)) == [Movement(c, Reserve, -amount)];
  }

  lemma {:induction false} FirstMovement(trail: seq<Movement>, first: Movement)
    ensures trail + [] == trail
    ensures trail == [] ==> trail + [first] == [first]
  {
  }

  lemma {:induction false} ReserveKeepsConserved(db: Db, c: string, request: string, amount: int)
    requires Conserved(db) && request !in db.reservations
    ensures Conserved(Reserving(db, c, request, amount))
  {
    var next := Reserving(db, c, request, amount);
    forall d ensures ConservedFor(next, d) {
      assert ConservedFor(db, d);
      PostCredited(db, c, Reserve, -amount, ReserveReference(request), d);
      TotalUpdate(db.reservations, request, next.reservations[request], Held(d));
      TotalUpdate(db.reservations, request, next.reservations[request], Spent(d));
    }
  }

  function Settling(db: Db, request: string, charge: int): Db
    requires request in db.reservations
  {
    var res := db.reservations[request];
    SettledPosts(db, res.consumer, request, res.reserved, charge)
    .(reservations := db.reservations[request :=
        res.(charged := charge, status := if charge > 0 then Finalized else Released)])
  }

  lemma {:induction false} FinalizeKeepsExplained(db: Db, request: string, charge: int)
    requires Explained(db) && request in db.reservations && charge >= 0
    ensures Explained(Settling(db, request, charge))
  {
    var res := db.reservations[request];
    SettledPostsExplained(db, res.consumer, request, res.reserved, charge);
    SameBalances(SettledPosts(db, res.consumer, request, res.reserved, charge), Settling(db, request, charge));
  }

  lemma {:induction false} FinalizeKeepsTraced(db: Db, request: string, charge: int)
    requires Explained(db) && Traced(db)
    requires request in db.reservations && db.reservations[request].status == Reserved
    requires 0 <= charge <= db.reservations[request].reserved
    ensures Traced(Settling(db, request, charge))
  {
    var res := db.reservations[request];
    var next := Settling(db, request, charge);
    assert Coherent(res);
    forall other ensures Trail(next.ledger, other) == ExpectedTrail(next.reservations, other) {
      FinalizeKeepsTrail(db, request, charge, other);
    }
  }

  lemma {:induction false} FinalizeKeepsTrail(db: Db, request: string, charge: int, other: string)
    requires request in db.reservations && db.reservations[request].status == Reserved
    requires Trail(db.ledger, other) == ExpectedTrail(db.reservations, other)
    ensures var next := Settling(db, request, charge);
            Trail(next.ledger, other) == ExpectedTrail(next.reservations, other)
  {
    var res := db.reservations[request];
    SettledPostsTrail(db, res.consumer, request, res.reserved, charge, other);
    ExpectedGrows(res, charge);
  }

  lemma {:induction false} ExpectedGrows(res: Reservation, charge: int)
    requires res.status == Reserved
    ensures Expected(res.(charged := charge, status := if charge > 0 then Finalized else Released))
         == Expected(res) + ([Movement(res.consumer, Release, res.reserved)]
                             + (if charge > 0 then [Movement(res.consumer, Debit, -charge)] else []))
  {
    Appended(Expected(res), Movement(res.consumer, Release, res.reserved), Movement(res.consumer, Debit, -charge));
  }

  lemma {:induction false} FinalizeKeepsConserved(db: Db, request: string, charge: int)
    requires Explained(db) && Conserved(db)
    requires request in db.reservations && db.reservations[request].status == Reserved && charge >= 0
    ensures Conserved(Settling(db, request, charge))
  {
    var res := db.reservations[request];
    var next := Settling(db, request, charge);
    assert Balance(next, res.consumer) == Balance(db, res.consumer) + res.reserved - charge;
    forall d ensures ConservedFor(next, d) {
      assert ConservedFor(db, d);
      SettledPostsCredited(db, res.consumer, request, res.reserved, charge, d);
      TotalUpdate(db.reservations, request, next.reservations[request], Held(d));
      TotalUpdate(db.reservations, request, next.reservations[request], Spent(d));
    }
  }

  lemma {:induction false} CreditKeeps(db: Db, c: string, amount: int, reference: string)
    requires Explained(db) && Traced(db) && Conserved(db)
    ensures var next := Post(db, c, Credit, amount, reference);
            Explained(next) && Traced(next) && Conserved(next)
  {
    var next := Post(db, c, Credit, amount, reference);
    PostExplained(db, c, Credit, amount, reference);
    forall other ensures Trail(next.ledger, other) == ExpectedTrail(next.reservations, other) {
      assert Trail(db.ledger, other) == ExpectedTrail(db.reservations, other);
      PostTrail(db, c, Credit, amount, "", reference, other);
    }
    forall d ensures ConservedFor(next, d) {
      assert ConservedFor(db, d);
      PostCredited(db, c, Credit, amount, reference, d);
    }
  }

  lemma {:induction false} SameBalances(db: Db, next: Db)
    requires Explained(db)
    requires next.balances == db.balances && next.ledger == db.ledger
    ensures Explained(next)
  {
  }

  /** The three invariants read the money tables only. */
  lemma {:induction false} SameMoney(db: Db, next: Db)
    requires Explained(db) && Traced(db) && Conserved(db)
    requires next.balances == db.balances && next.ledger == db.ledger && next.reservations == db.reservations
    ensures Explained(next) && Traced(next) && Conserved(next)
  {
    SameBalances(db, next);
    forall d ensures ConservedFor(next, d) {
      assert ConservedFor(db, d);
    }
  }

  lemma {:induction false} KeepsMoney(db: Db, op: Op)
    requires Explained(db) && Traced(db) && Conserved(db)
    ensures var next := Apply(db, op).db; Explained(next) && Traced(next) && Conserved(next)
  {
    match op
    case ReserveOp(c, request, amount) => ReserveKeepsMoney(db, c, request, amount);
    case FinalizeOp(c, request, actual, success) => FinalizeKeepsMoney(db, c, request, actual, success);
    case CreditOp(c, amount, note) => CreditKeeps(db, c, amount, note);
    case TopupOp(c, fingerprint, amount) =>
      TopupKeepsMoney(db, TrimSpace(c), TrimSpace(fingerprint), amount);
    case _ => SameMoney(db, Apply(db, op).db);
  }

  lemma {:induction false} TopupKeepsMoney(db: Db, c: string, fingerprint: string, amount: int)
    requires Explained(db) && Traced(db) && Conserved(db)
    ensures var next := ApplyTopup(db, c, fingerprint, amount).db; Explained(next) && Traced(next) && Conserved(next)
  {
    var next := ApplyTopup(db, c, fingerprint, amount).db;
    if next.ledger == db.ledger {
      SameMoney(db, next);
    } else {
      CreditKeeps(db, c, amount, TopupReference(fingerprint));
      SameMoney(Post(db, c, Credit, amount, TopupReference(fingerprint)), next);
    }
  }

  lemma {:induction false} ReserveKeepsMoney(db: Db, c: string, request: string, amount: int)
    requires Explained(db) && Traced(db) && Conserved(db)
    ensures var next := ApplyReserve(db, c, request, amount).db; Explained(next) && Traced(next) && Conserved(next)
  {
    var next := ApplyReserve(db, c, request, amount).db;
    if next != db {
      assert next == Reserving(db, c, request, amount);
      ReserveKeepsExplained(db, c, request, amount);
      ReserveKeepsTraced(db, c, request, amount);
      ReserveKeepsConserved(db, c, request, amount);
    }
  }

  lemma {:induction false} FinalizeKeepsMoney(db: Db, c: string, request: string, actual: int, success: bool)
    requires Explained(db) && Traced(db) && Conserved(db)
    ensures var next := ApplyFinalize(db, c, request, actual, success).db;
            Explained(next) && Traced(next) && Conserved(next)
  {
    var next := ApplyFinalize(db, c, request, actual, success).db;
    if next != db {
      assert Coherent(db.reservations[request]);
      var charge := SettledCharge(db.reservations[request].reserved, actual, success);
      assert SettledPosts(db, c, request, db.reservations[request].reserved, charge).balances == next.balances;
      assert next == Settling(db, request, charge);
      FinalizeKeepsExplained(db, request, charge);
      FinalizeKeepsTraced(db, request, charge);
      FinalizeKeepsConserved(db, request, charge);
    }
  }

  lemma {:induction false} KeepsSound(db: Db, op: Op)
    requires Sound(db)
    ensures Sound(Apply(db, op).db)
  {
    KeepsGrounded(db, op);
    KeepsMoney(db, op);
  }

  /** The deposit handler refuses a credit that is not positive before it calls the store. */
  predicate FromHandler(op: Op) {
    op.CreditOp? ==> op.amount > 0
  }

  lemma {:induction false} KeepsNeverNegative(db: Db, op: Op)
    requires NeverNegative(db) && Traced(db) && FromHandler(op)
    ensures NeverNegative(Apply(db, op).db)
  {
  }

  // ---------------------------------------------------------------- whole runs

  /** In every state that store calls can reach, conservation, the ledger sums and the request trails hold. */
  lemma {:induction false} RunSound(db: Db, ops: seq<Op>)
    requires Sound(db)
    ensures Sound(Run(db, ops))
  {
    if ops != [] {
      RunSound(db, ops[..|ops| - 1]);
      KeepsSound(Run(db, ops[..|ops| - 1]), ops[|ops| - 1]);
    }
  }

  lemma {:induction false} RunNeverNegative(db: Db, ops: seq<Op>)
    requires Sound(db) && NeverNegative(db)
    requires forall op <- ops :: FromHandler(op)
    ensures NeverNegative(Run(db, ops))
  {
    if ops != [] {
      var before := ops[..|ops| - 1];
      RunSound(db, before);
      RunNeverNegative(db, before);
      KeepsNeverNegative(Run(db, before), ops[|ops| - 1]);
    }
  }

  lemma {:induction false} EmptySound()
    ensures Sound(EMPTY) && NeverNegative(EMPTY)
  {
  }

  // ---------------------------------------------------------------- reservations over time

  /** A reservation never changes its owner or its amount, and once settled it never changes at all. */
  ghost predicate Progressed(before: Db, after: Db) {
    forall r <- before.reservations ::
      && r in after.reservations
      && after.reservations[r].consumer == before.reservations[r].consumer
      && after.reservations[r].reserved == before.reservations[r].reserved
      && (before.reservations[r].status != Reserved ==> after.reservations[r] == before.reservations[r])
  }

  lemma {:induction false} StepProgresses(db: Db, op: Op)
    ensures Progressed(db, Apply(db, op).db)
  {
  }

  lemma {:induction false} TerminalStatesAbsorb(db: Db, ops: seq<Op>)
    ensures Progressed(db, Run(db, ops))
  {
    if ops != [] {
      TerminalStatesAbsorb(db, ops[..|ops| - 1]);
      StepProgresses(Run(db, ops[..|ops| - 1]), ops[|ops| - 1]);
    }
  }

  /** A new hold is denied exactly when it would overdraw the account, and otherwise takes its amount. */
  lemma {:induction false} DeniedExactlyWhenOverdrawn(db: Db, c: string, request: string, amount: int)
    requires Explained(db) && amount > 0 && HasAccount(db, c) && request !in db.reservations
    ensures var out := Apply(db, ReserveOp(c, request, amount));
            && out.reply.Decision?
            && (out.reply.approved <==> Net(db.ledger, c) - amount >= 0)
            && Balance(out.db, c) == Net(db.ledger, c) - (if out.reply.approved then amount else 0)
  {
  }

  /** A reply that carries a balance reports the balance the consumer has after the call. */
  lemma {:induction false} RepliesReportBalance(db: Db, op: Op)
    ensures match Apply(db, op).reply
      case Decision(_, _, balance) => balance == Balance(Apply(db, op).db, op.consumer)
      case Settled(balance) => balance == Balance(Apply(db, op).db, op.consumer)
      case Recorded(_, balance) => balance == Balance(Apply(db, op).db, TrimSpace(op.consumer))
      case _ => true
  {
  }
}
