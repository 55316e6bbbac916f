/**
 * The store itself: each method is one database transaction that executes its statements in order on the
 * tables and either commits or rolls back. Each is proved to have exactly the effect and the reply of the
 * atomic specification, on which the money invariants are proved.
 */
module Store {
  import opened Wrappers
  import opened Text
  import opened Ledger

  class PostgresStore {
    var consumers: map<string, Consumer>
    var apiKeys: map<string, ApiKey>
    var balances: map<string, int>
    var ledger: seq<Entry>
    var reservations: map<string, Reservation>
    var topups: map<string, Topup>

    function Contents(): Db
      reads this
    {
      Db(consumers, apiKeys, balances, ledger, reservations, topups)
    }

    constructor ()
      ensures Contents() == EMPTY
    {
      consumers, apiKeys, balances, ledger, reservations, topups := map[], map[], map[], [], map[], map[];
    }

    method Rollback(begin: Db)
      modifies this
      ensures Contents() == begin
    {
      consumers, apiKeys, balances := begin.consumers, begin.apiKeys, begin.balances;
      ledger, reservations, topups := begin.ledger, begin.reservations, begin.topups;
    }

    /** INSERT ... ON CONFLICT DO NOTHING of a zero balance row; false when the foreign key fails. */
    method EnsureBalanceRow(c: string) returns (ok: bool)
      modifies this`balances
      ensures ok == (c in old(balances) || c in consumers)
      ensures balances == if ok && c !in old(balances) then old(balances)[c := 0] else old(balances)
    {
      if c in balances {
        return true;
      }
      if c !in consumers {
        return false;
      }
      balances := balances[c := 0];
      return true;
    }

    method QueryCurrentBalanceForUpdate(c: string) returns (balance: Option<int>)
      ensures balance == if c in balances then Some(balances[c]) else None
    {
      balance := if c in balances then Some(balances[c]) else None;
    }

    method InsertLedgerEntry(c: string, kind: EntryKind, amount: int, reference: string, balanceAfter: int)
      modifies this`ledger
      ensures ledger == old(ledger) + [Entry(c, kind, amount, reference, balanceAfter)]
    {
      ledger := ledger + [Entry(c, kind, amount, reference, balanceAfter)];
    }

    /** UPDATE of the locked balance row followed by INSERT of its ledger entry. */
    method PostEntry(c: string, kind: EntryKind, amount: int, reference: string,
            current: int) returns (balanceAfter: int)
      requires c in balances && balances[c] == current
      modifies this`balances, this`ledger
      ensures Contents() == Post(old(Contents()), c, kind, amount, reference)
      ensures balanceAfter == current + amount
    {
      balanceAfter := current + amount;
      balances := balances[c := balanceAfter];
      InsertLedgerEntry(c, kind, amount, reference, balanceAfter);
    }

    method ReservePrepaidBalance(c: string, request: string, amount: int) returns (reply: Reply)
      modifies this
      ensures Outcome(Contents(), reply) == ApplyReserve(old(Contents()), c, request, amount)
    {
      ghost var before := Contents();
      if amount <= 0 {
        return Failed(NonPositiveAmount);
      }
      var begin := Contents();
      if request in reservations && reservations[request].consumer == c {
        var existing := reservations[request].reserved;
        var balance := QueryCurrentBalanceForUpdate(c);
        if balance.None? {
          return Failed(MissingBalanceRow);
        }
        return Decision(true, existing, balance.value);
      }
      var ensured := EnsureBalanceRow(c);
      if !ensured {
        Rollback(begin);
        return Failed(UnknownConsumer);
      }
      var current := QueryCurrentBalanceForUpdate(c);
      if current.value < amount {
        Rollback(begin);
        return Decision(false, amount, current.value);
      }
      var balanceAfter := PostEntry(c, Reserve, -amount, ReserveReference(request), current.value);
      if request in reservations {
        Rollback(begin);
        return Failed(DuplicateRequest);
      }
      reservations := reservations[request := Reservation(c, amount, 0, Reserved)];
      assert balances == before.balances[c := balanceAfter];
      return Decision(true, amount, balanceAfter);
    }

    method FinalizePrepaidCharge(c: string, request: string, actualCharge: int, success: bool) returns (reply: Reply)
      modifies this
      ensures Outcome(Contents(), reply) == ApplyFinalize(old(Contents()), c, request, actualCharge, success)
    {
      if request !in reservations || reservations[request].consumer != c {
        return Failed(ReservationNotFound);
      }
      var res := reservations[request];
      var current := QueryCurrentBalanceForUpdate(c);
      if current.None? {
        return Failed(MissingBalanceRow);
      }
      if res.status == Finalized || res.status == Released {
        return Settled(current.value);
      }
      var actual := actualCharge;
      if actual < 0 {
        actual := 0;
      }
      var charge := actual;
      if !success {
        charge := 0;
      }
      if charge > res.reserved {
        charge := res.reserved;
      }
      var balanceAfter := WriteSettlement(c, request, res, current.value, charge);
      return Settled(balanceAfter);
    }

    /** The writes of a settlement: balance, release entry, debit entry unless nothing is charged, final state. */
    method WriteSettlement(c: string, request: string, res: Reservation, current: int,
            charge: int) returns (balanceAfter: int)
      requires c in balances && balances[c] == current
      requires request in reservations && reservations[request] == res
      modifies this`balances, this`ledger, this`reservations
      ensures balanceAfter == current + res.reserved - charge
      ensures balances == old(balances)[c := balanceAfter]
      ensures ledger == SettledPosts(old(Contents()), c, request, res.reserved, charge).ledger
      ensures reservations == old(reservations)[request :=
                res.(charged := charge, status := if charge > 0 then Finalized else Released)]
    {
      var afterRelease := current + res.reserved;
      balanceAfter := afterRelease - charge;
      balances := balances[c := balanceAfter];
      InsertLedgerEntry(c, Release, res.reserved, ReleaseReference(request), afterRelease);
      var status := Released;
      if charge > 0 {
        InsertLedgerEntry(c, Debit, -charge, DebitReference(request), balanceAfter);
        status := Finalized;
      }
      reservations := reservations[request := res.(status := status, charged := charge)];
    }

    method CreditConsumerBalance(c: string, amount: int, note: string) returns (reply: Reply)
      modifies this
      ensures Outcome(Contents(), reply) == ApplyCredit(old(Contents()), c, amount, note)
    {
      ghost var before := Contents();
      var begin := Contents();
      var ensured := EnsureBalanceRow(c);
      if !ensured {
        Rollback(begin);
        return Failed(UnknownConsumer);
      }
      var current := QueryCurrentBalanceForUpdate(c);
      var balanceAfter := PostEntry(c, Credit, amount, note, current.value);
      assert balances == before.balances[c := balanceAfter];
      return Done;
    }

    method RecordX402PrepaidTopup(rawConsumer: string, rawFingerprint: string, amount: int) returns (reply: Reply)
      modifies this
      ensures Outcome(Contents(), reply) == Apply(old(Contents()), TopupOp(rawConsumer, rawFingerprint, amount))
    {
      reply := RecordTopup(TrimSpace(rawConsumer), TrimSpace(rawFingerprint), amount);
    }

    method RecordTopup(c: string, fingerprint: string, amount: int) returns (reply: Reply)
      modifies this
      ensures Outcome(Contents(), reply) == ApplyTopup(old(Contents()), c, fingerprint, amount)
    {
      ghost var before := Contents();
      var begin := Contents();
      if c == "" || fingerprint == "" || amount <= 0 {
        return Failed(MissingTopupFields);
      }
      if c in consumers {
        consumers := consumers[c := consumers[c].(kind := Prepaid)];
      } else {
        consumers := consumers[c := Consumer(None, None, Prepaid)];
      }
      var inserted := fingerprint !in topups;
      if !inserted {
        var balance := QueryCurrentBalanceForUpdate(c);
        if balance.None? {
          Rollback(begin);
          return Failed(MissingBalanceRow);
        }
        return Recorded(false, balance.value);
      }
      reply := FirstTopup(c, fingerprint, amount);
    }

    /** The statements of a top-up whose fingerprint was not seen before. */
    method FirstTopup(c: string, fingerprint: string, amount: int) returns (reply: Reply)
      requires fingerprint !in topups && c in consumers
      modifies this
      ensures Contents() == Post(old(Contents()), c, Credit, amount, TopupReference(fingerprint))
                            .(topups := old(topups)[fingerprint := Topup(c, amount)])
      ensures reply == Recorded(true, Balance(old(Contents()), c) + amount)
    {
      topups := topups[fingerprint := Topup(c, amount)];
      var _ := EnsureBalanceRow(c);
      var current := QueryCurrentBalanceForUpdate(c);
      var balanceAfter := PostEntry(c, Credit, amount, TopupReference(fingerprint), current.value);
      assert balances == old(balances)[c := balanceAfter];
      return Recorded(true, balanceAfter);
    }

    method UpsertConsumerAPIKey(c: string, wallet: string, kind: ConsumerKind, hash: string) returns (reply: Reply)
      modifies this`consumers, this`apiKeys
      ensures Outcome(Contents(), reply) == ApplyUpsertKey(old(Contents()), c, wallet, kind, hash)
    {
      if exists other <- consumers :: other != c && consumers[other].keyHash == Some(hash) {
        return Failed(HashInUse);
      }
      var given: Option<string> := if wallet == "" then None else Some(wallet);
      if c in consumers {
        var kept := if given.Some? then given else consumers[c].wallet;
        consumers := consumers[c := Consumer(Some(hash), kept, kind)];
      } else {
        consumers := consumers[c := Consumer(Some(hash), given, kind)];
      }
      if hash in apiKeys {
        apiKeys := apiKeys[hash := apiKeys[hash].(status := Active)];
      } else {
        apiKeys := apiKeys[hash := ApiKey(c, Active)];
      }
      return Done;
    }

    method RevokeConsumerAPIKey(c: string, hash: string) returns (reply: Reply)
      modifies this`consumers, this`apiKeys
      ensures Outcome(Contents(), reply) == ApplyRevokeKey(old(Contents()), c, hash)
    {
      if hash !in apiKeys || apiKeys[hash].consumer != c || apiKeys[hash].status != Active {
        return Revocation(false);
      }
      apiKeys := apiKeys[hash := apiKeys[hash].(status := Revoked)];
      if c in consumers && consumers[c].keyHash == Some(hash) {
        consumers := consumers[c := consumers[c].(keyHash := None)];
      }
      return Revocation(true);
    }

    method LookupActiveAPIKey(hash: string) returns (owner: Option<KeyOwner>)
      ensures owner == LookupKey(Contents(), hash)
    {
      if hash in apiKeys && apiKeys[hash].status == Active && apiKeys[hash].consumer in consumers {
        var row := consumers[apiKeys[hash].consumer];
        if row.keyHash == Some(hash) {
          var wallet := if row.wallet.Some? then row.wallet.value else "";
          return Some(KeyOwner(apiKeys[hash].consumer, row.kind, wallet));
        }
      }
      return None;
    }

    method LookupConsumerAPIKeyHash(rawConsumer: string) returns (hash: string)
      ensures hash == if TrimSpace(rawConsumer) == "" then "" else ConsumerKeyHash(Contents(), TrimSpace(rawConsumer))
    {
      var c := TrimSpace(rawConsumer);
      if c == "" || c !in consumers || consumers[c].keyHash.None? {
        return "";
      }
      return TrimSpace(consumers[c].keyHash.value);
    }
  }
}
