/** The tables of the official gateway's data plane and the effect of one committed store transaction on them. */
module Ledger {
  import opened Wrappers
  import opened Text

  datatype ConsumerKind = Prepaid | X402
  datatype Consumer = Consumer(keyHash: Option<string>, wallet: Option<string>, kind: ConsumerKind)

  datatype KeyStatus = Active | Revoked
  datatype ApiKey = ApiKey(consumer: string, status: KeyStatus)

  datatype EntryKind = Credit | Debit | Reserve | Release
  datatype Entry = Entry(consumer: string, kind: EntryKind, amount: int, reference: string, balanceAfter: int)

  datatype Status = Reserved | Finalized | Released
  datatype Reservation = Reservation(consumer: string, reserved: int, charged: int, status: Status)

  datatype Topup = Topup(consumer: string, amount: int)

  /** Amounts are integer micro-USDC, the unit of the NUMERIC(20,6) columns. */
  datatype Db = Db(
    consumers: map<string, Consumer>,
    apiKeys: map<string, ApiKey>,
    balances: map<string, int>,
    ledger: seq<Entry>,
    reservations: map<string, Reservation>,
    topups: map<string, Topup>)

  const EMPTY := Db(map[], map[], map[], [], map[], map[])

  datatype Op =
    | ReserveOp(consumer: string, request: string, amount: int)
    | FinalizeOp(consumer: string, request: string, actual: int, success: bool)
    | CreditOp(consumer: string, amount: int, note: string)
    | TopupOp(consumer: string, fingerprint: string, amount: int)
    | UpsertKeyOp(consumer: string, wallet: string, kind: ConsumerKind, hash: string)
    | RevokeKeyOp(consumer: string, hash: string)

  datatype Error =
    | NonPositiveAmount
    | UnknownConsumer
    | MissingBalanceRow
    | DuplicateRequest
    | ReservationNotFound
    | MissingTopupFields
    | HashInUse

  datatype Reply =
    | Failed(error: Error)
    | Decision(approved: bool, reserved: int, balance: int)
    | Settled(balance: int)
    | Recorded(inserted: bool, balance: int)
    | Done
    | Revocation(found: bool)

  datatype Outcome = Outcome(db: Db, reply: Reply)

  function Balance(db: Db, c: string): int {
    if c in db.balances then db.balances[c] else 0
  }

  function ReserveReference(request: string): string { "reserve:" + request }
  function ReleaseReference(request: string): string { "release:" + request }
  function DebitReference(request: string): string { "debit:" + request }
  function TopupReference(fingerprint: string): string { "x402_topup:" + fingerprint }

  /** A balance row may be created for a consumer only if the foreign key to consumers holds. */
  predicate HasAccount(db: Db, c: string) {
    c in db.balances || c in db.consumers
  }

  /** One balance movement: the new balance row and its ledger entry. */
  function Post(db: Db, c: string, kind: EntryKind, amount: int, reference: string): Db {
    var after := Balance(db, c) + amount;
    db.(balances := db.balances[c := after], ledger := db.ledger + [Entry(c, kind, amount, reference, after)])
  }

  function ApplyReserve(db: Db, c: string, request: string, amount: int): Outcome {
    if amount <= 0 then Outcome(db, Failed(NonPositiveAmount))
    else if request in db.reservations && db.reservations[request].consumer == c then
      if c !in db.balances then Outcome(db, Failed(MissingBalanceRow))
      else Outcome(db, Decision(true, db.reservations[request].reserved, db.balances[c]))
    else if !HasAccount(db, c) then Outcome(db, Failed(UnknownConsumer))
    else if Balance(db, c) < amount then Outcome(db, Decision(false, amount, Balance(db, c)))
    else if request in db.reservations then Outcome(db, Failed(DuplicateRequest))
    else
      var paid := Post(db, c, Reserve, -amount, ReserveReference(request));
      Outcome(
        paid.(reservations := db.reservations[request := Reservation(c, amount, 0, Reserved)]),
        Decision(true, amount, Balance(db, c) - amount))
  }

  /** What a settlement charges: nothing on failure, else the actual price cut to [0, reserved]. */
  function SettledCharge(reserved: int, actual: int, success: bool): int {
    var floor := if actual < 0 then 0 else actual;
    var due := if success then floor else 0;
    if due > reserved then reserved else due
  }

  /** The entries a settlement writes: the release, and the debit unless the charge is zero. */
  function SettledPosts(db: Db, c: string, request: string, reserved: int, charge: int): Db {
    var released := Post(db, c, Release, reserved, ReleaseReference(request));
    if charge > 0 then Post(released, c, Debit, -charge, DebitReference(request)) else released
  }

  function ApplyFinalize(db: Db, c: string, request: string, actual: int, success: bool): Outcome {
    if request !in db.reservations || db.reservations[request].consumer != c then
      Outcome(db, Failed(ReservationNotFound))
    else if c !in db.balances then Outcome(db, Failed(MissingBalanceRow))
    else
      var res := db.reservations[request];
      if res.status != Reserved then Outcome(db, Settled(db.balances[c]))
      else
        var charge := SettledCharge(res.reserved, actual, success);
        var posted := SettledPosts(db, c, request, res.reserved, charge);
        var after := db.balances[c] + res.reserved - charge;
        var status := if charge > 0 then Finalized else Released;
        Outcome(
          posted.(
            balances := db.balances[c := after],
            reservations := db.reservations[request := res.(charged := charge, status := status)]),
          Settled(after))
  }

  function ApplyCredit(db: Db, c: string, amount: int, note: string): Outcome {
    if !HasAccount(db, c) then Outcome(db, Failed(UnknownConsumer))
    else Outcome(Post(db, c, Credit, amount, note), Done)
  }

  function EnsurePrepaid(consumers: map<string, Consumer>, c: string): map<string, Consumer> {
    if c in consumers then consumers[c := consumers[c].(kind := Prepaid)]
    else consumers[c := Consumer(None, None, Prepaid)]
  }

  /** Here the consumer and the fingerprint are already trimmed. */
  function ApplyTopup(db: Db, c: string, fingerprint: string, amount: int): Outcome {
    if c == "" || fingerprint == "" || amount <= 0 then Outcome(db, Failed(MissingTopupFields))
    else
      var ensured := db.(consumers := EnsurePrepaid(db.consumers, c));
      if fingerprint in db.topups then
        if c !in db.balances then Outcome(db, Failed(MissingBalanceRow))
        else Outcome(ensured, Recorded(false, db.balances[c]))
      else
        var posted := Post(ensured, c, Credit, amount, TopupReference(fingerprint));
        Outcome(
          posted.(topups := db.topups[fingerprint := Topup(c, amount)]),
          Recorded(true, Balance(db, c) + amount))
  }

  /** The partial unique index on consumers.api_key_hash. */
  predicate HashTaken(db: Db, c: string, hash: string) {
    exists other <- db.consumers :: other != c && db.consumers[other].keyHash == Some(hash)
  }

  function ApplyUpsertKey(db: Db, c: string, wallet: string, kind: ConsumerKind, hash: string): Outcome {
    if HashTaken(db, c, hash) then Outcome(db, Failed(HashInUse))
    else
      var given: Option<string> := if wallet == "" then None else Some(wallet);
      var kept := if given.None? && c in db.consumers then db.consumers[c].wallet else given;
      var row := if hash in db.apiKeys then db.apiKeys[hash].(status := Active) else ApiKey(c, Active);
      Outcome(
        db.(consumers := db.consumers[c := Consumer(Some(hash), kept, kind)], apiKeys := db.apiKeys[hash := row]),
        Done)
  }

  function ApplyRevokeKey(db: Db, c: string, hash: string): Outcome {
    if hash !in db.apiKeys || db.apiKeys[hash] != ApiKey(c, Active) then Outcome(db, Revocation(false))
    else
      var cleared :=
        if c in db.consumers && db.consumers[c].keyHash == Some(hash)
        then db.consumers[c := db.consumers[c].(keyHash := None)]
        else db.consumers;
      Outcome(
        db.(consumers := cleared, apiKeys := db.apiKeys[hash := ApiKey(c, Revoked)]),
        Revocation(true))
  }

  datatype KeyOwner = KeyOwner(consumer: string, kind: ConsumerKind, wallet: string)

  /** The join of key rows and consumers: an active key resolves only while its consumer points back to it. */
  function LookupKey(db: Db, hash: string): Option<KeyOwner> {
    if hash !in db.apiKeys || db.apiKeys[hash].status != Active then None
    else
      var c := db.apiKeys[hash].consumer;
      if c !in db.consumers || db.consumers[c].keyHash != Some(hash) then None
      else
        var wallet := db.consumers[c].wallet;
        Some(KeyOwner(c, db.consumers[c].kind, if wallet.Some? then wallet.value else ""))
  }

  /** The trimmed key hash of a consumer, empty when there is none. */
  function ConsumerKeyHash(db: Db, c: string): string {
    if c !in db.consumers || db.consumers[c].keyHash.None? then "" else TrimSpace(db.consumers[c].keyHash.value)
  }

  /** One store call, run alone. */
  function Apply(db: Db, op: Op): Outcome {
    match op
    case ReserveOp(c, request, amount) => ApplyReserve(db, c, request, amount)
    case FinalizeOp(c, request, actual, success) => ApplyFinalize(db, c, request, actual, success)
    case CreditOp(c, amount, note) => ApplyCredit(db, c, amount, note)
    case TopupOp(c, fingerprint, amount) => ApplyTopup(db, TrimSpace(c), TrimSpace(fingerprint), amount)
    case UpsertKeyOp(c, wallet, kind, hash) => ApplyUpsertKey(db, c, wallet, kind, hash)
    case RevokeKeyOp(c, hash) => ApplyRevokeKey(db, c, hash)
  }

  /** A run of store calls, one after the other. */
  function Run(db: Db, ops: seq<Op>): Db {
    if ops == [] then db else Apply(Run(db, ops[..|ops| - 1]), ops[|ops| - 1]).db
  }

  function Replies(db: Db, ops: seq<Op>): (replies: seq<Reply>)
    ensures |replies| == |ops|
  {
    if ops == [] then []
    else
      var before := ops[..|ops| - 1];
      Replies(db, before) + [Apply(Run(db, before), ops[|ops| - 1]).reply]
  }

  lemma {:induction false} RunSnoc(db: Db, ops: seq<Op>, op: Op)
    ensures Run(db, ops + [op]) == Apply(Run(db, ops), op).db
    ensures Replies(db, ops + [op]) == Replies(db, ops) + [Apply(Run(db, ops), op).reply]
  {
  }

  /** A reply that reports nothing done: an error, a denied reservation or a revocation that found no key. */
  predicate Refused(reply: Reply) {
    reply.Failed? || (reply.Decision? && !reply.approved) || (reply.Revocation? && !reply.found)
  }

  /** A refused call leaves every table as it was, the provisional zero balance row included. */
  lemma {:induction false} RefusedChangesNothing(db: Db, op: Op)
    requires Refused(Apply(db, op).reply)
    ensures Apply(db, op).db == db
  {
  }

  // ---------------------------------------------------------------- what each call does, in plain figures

  /** A settlement charges a success its price, at most the hold, and a failure nothing; the rest comes back. */
  lemma {:induction false} SettlementsCutThePrice(db: Db, c: string, request: string, actual: int, success: bool)
    requires request in db.reservations && c in db.balances
    requires db.reservations[request].consumer == c && db.reservations[request].status == Reserved
    requires db.reservations[request].reserved > 0
    ensures var out := Apply(db, FinalizeOp(c, request, actual, success));
            var hold := db.reservations[request].reserved;
            && request in out.db.reservations
            && var row := out.db.reservations[request];
            && row.consumer == c && row.reserved == hold
            && (!success || actual <= 0 ==> row.charged == 0 && row.status == Released)
            && (success && 0 < actual <= hold ==> row.charged == actual && row.status == Finalized)
            && (success && actual > hold ==> row.charged == hold && row.status == Finalized)
            && Balance(out.db, c) == Balance(db, c) + hold - row.charged
            && out.reply == Settled(Balance(out.db, c))
  {
  }

  /** Why a hold is refused: no amount, no account, no cover, or an id that is another consumer's; in that order. */
  lemma {:induction false} HoldRefusals(db: Db, c: string, request: string, amount: int)
    ensures var reply := Apply(db, ReserveOp(c, request, amount)).reply;
            var taken := request in db.reservations;
            var mine := taken && db.reservations[request].consumer == c;
            var covered := Balance(db, c) >= amount;
            && (reply == Failed(NonPositiveAmount) <==> amount <= 0)
            && (reply == Failed(UnknownConsumer) <==> amount > 0 && !mine && !HasAccount(db, c))
            && (reply == Failed(MissingBalanceRow) <==> amount > 0 && mine && c !in db.balances)
            && (reply == Failed(DuplicateRequest) <==> amount > 0 && taken && !mine && HasAccount(db, c) && covered)
            && (reply == Decision(false, amount, Balance(db, c))
                <==> amount > 0 && !mine && HasAccount(db, c) && !covered)
            && (reply.Decision? && !reply.approved ==> reply == Decision(false, amount, Balance(db, c)))
  {
  }

  /** Why the other calls are refused. */
  lemma {:induction false} OtherRefusals(db: Db, c: string, request: string, actual: int, success: bool, note: string,
          fingerprint: string, amount: int)
    ensures var reply := Apply(db, FinalizeOp(c, request, actual, success)).reply;
            var found := request in db.reservations && db.reservations[request].consumer == c;
            && (reply == Failed(ReservationNotFound) <==> !found)
            && (reply == Failed(MissingBalanceRow) <==> found && c !in db.balances)
            && (reply.Settled? <==> found && c in db.balances)
    ensures var reply := Apply(db, CreditOp(c, amount, note)).reply;
            && (reply == Failed(UnknownConsumer) <==> c !in db.balances && c !in db.consumers)
            && (reply == Done <==> c in db.balances || c in db.consumers)
    ensures var reply := ApplyTopup(db, c, fingerprint, amount).reply;
            && (reply == Failed(MissingTopupFields) <==> c == "" || fingerprint == "" || amount <= 0)
            && (reply.Recorded? <==>
                  && c != "" && fingerprint != "" && amount > 0
                  && (fingerprint in db.topups ==> c in db.balances))
            && (reply.Recorded? ==> (reply.inserted <==> fingerprint !in db.topups))
  {
  }

  /** The ledger names each movement after its call. */
  lemma {:induction false} MovementsAreNamed(db: Db, c: string, request: string, amount: int, note: string)
    ensures var out := Apply(db, ReserveOp(c, request, amount));
            out.reply.Decision? && out.reply.approved && request !in db.reservations ==>
              out.db.ledger == db.ledger + [Entry(c, Reserve, -amount, "reserve:" + request, Balance(db, c) - amount)]
    ensures var out := Apply(db, CreditOp(c, amount, note));
            out.reply == Done ==>
              out.db.ledger == db.ledger + [Entry(c, Credit, amount, note, Balance(db, c) + amount)]
  {
  }

  lemma {:induction false} SettlementsAreNamed(db: Db, c: string, request: string, actual: int, success: bool)
    requires request in db.reservations && c in db.balances
    requires db.reservations[request].consumer == c && db.reservations[request].status == Reserved
    ensures var out := Apply(db, FinalizeOp(c, request, actual, success)).db;
            var hold := db.reservations[request].reserved;
            var back := Entry(c, Release, hold, "release:" + request, Balance(db, c) + hold);
            var charged := out.reservations[request].charged;
            var debit := Entry(c, Debit, -charged, "debit:" + request, Balance(db, c) + hold - charged);
            out.ledger == if charged > 0 then db.ledger + [back] + [debit] else db.ledger + [back]
  {
  }

  /**
   * A recorded top-up makes its consumer prepaid, created if need be, and leaves its key and wallet and every other
   * consumer alone; a new fingerprint is filed with its payer and amount and credited once, a used one is not.
   */
  lemma {:induction false} TopupsMakePrepaid(db: Db, c: string, fingerprint: string, amount: int, other: string)
    requires ApplyTopup(db, c, fingerprint, amount).reply.Recorded? && other != c
    ensures var out := ApplyTopup(db, c, fingerprint, amount).db;
            && c in out.consumers && out.consumers[c].kind == Prepaid
            && (c in db.consumers ==>
                  && out.consumers[c].keyHash == db.consumers[c].keyHash
                  && out.consumers[c].wallet == db.consumers[c].wallet)
            && (c !in db.consumers ==> out.consumers[c].keyHash == None && out.consumers[c].wallet == None)
            && (other in out.consumers <==> other in db.consumers)
            && (other in db.consumers ==> out.consumers[other] == db.consumers[other])
            && (fingerprint in db.topups ==> out.topups == db.topups && out.ledger == db.ledger)
            && (fingerprint !in db.topups ==>
                  && out.topups == db.topups[fingerprint := Topup(c, amount)]
                  && out.ledger == db.ledger
                       + [Entry(c, Credit, amount, "x402_topup:" + fingerprint, Balance(db, c) + amount)])
  {
  }
}
