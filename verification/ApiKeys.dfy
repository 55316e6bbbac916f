/** The life of API keys over the two tables that must agree, and the handlers that issue and rotate them. */
module ApiKeys {
  import opened Wrappers
  import opened Text
  import opened Ledger
  import opened Store

  /** A consumer's key hash points to an active key row of that consumer. */
  ghost predicate LinkedAt(db: Db, c: string)
    requires c in db.consumers
  {
    var hash := db.consumers[c].keyHash;
    hash.Some? ==> hash.value in db.apiKeys && db.apiKeys[hash.value] == ApiKey(c, Active)
  }

  ghost predicate Linked(db: Db) {
    forall c <- db.consumers :: LinkedAt(db, c)
  }

  /** Resolving a hash and reading a consumer's hash column are inverse to each other. */
  lemma {:induction false} LookupIsBijection(db: Db, hash: string, c: string)
    requires Linked(db)
    ensures LookupKey(db, hash).Some? && LookupKey(db, hash).value.consumer == c
       <==> c in db.consumers && db.consumers[c].keyHash == Some(hash)
  {
  }

  /** The hashes that resolve to a consumer. */
  ghost function LiveKeys(db: Db, c: string): set<string> {
    set hash | hash in db.apiKeys && LookupKey(db, hash).Some? && LookupKey(db, hash).value.consumer == c
  }

  lemma {:induction false} OneLiveKey(db: Db, c: string)
    requires Linked(db) && c in db.consumers && db.consumers[c].keyHash.Some?
    ensures LiveKeys(db, c) == {db.consumers[c].keyHash.value}
  {
  }

  /** An issued key resolves to its consumer with the kind and the wallet it was issued for; no wallet keeps the old. */
  lemma {:induction false} IssuedKeyResolves(db: Db, c: string, wallet: string, kind: ConsumerKind, hash: string)
    requires hash !in db.apiKeys || db.apiKeys[hash].consumer == c
    requires Apply(db, UpsertKeyOp(c, wallet, kind, hash)).reply == Done
    ensures var known := c in db.consumers && db.consumers[c].wallet.Some?;
            var before := if known then db.consumers[c].wallet.value else "";
            LookupKey(Apply(db, UpsertKeyOp(c, wallet, kind, hash)).db, hash)
            == Some(KeyOwner(c, kind, if wallet != "" then wallet else before))
  {
  }

  /** The hash that is reported for a consumer is its column, which resolves to it; none is reported without one. */
  lemma {:induction false} ReportedHashResolves(db: Db, c: string)
    requires Linked(db)
    ensures c !in db.consumers || db.consumers[c].keyHash == None ==> ConsumerKeyHash(db, c) == ""
    ensures c in db.consumers && db.consumers[c].keyHash.Some? ==>
              var hash := db.consumers[c].keyHash.value;
              TrimSpace(hash) == hash ==>
                && ConsumerKeyHash(db, c) == hash
                && LookupKey(db, hash).Some? && LookupKey(db, hash).value.consumer == c
  {
    if c in db.consumers {
      assert LinkedAt(db, c);
    }
  }

  /** The kind and the wallet that any key resolves to are those of its consumer. */
  lemma {:induction false} OwnersAreConsumers(db: Db, hash: string)
    requires LookupKey(db, hash).Some?
    ensures var owner := LookupKey(db, hash).value;
            && owner.consumer in db.consumers
            && owner.kind == db.consumers[owner.consumer].kind
            && (db.consumers[owner.consumer].wallet == Some(owner.wallet)
                || (owner.wallet == "" && db.consumers[owner.consumer].wallet == None))
  {
  }

  /** An upsert is refused exactly when the hash is in the column of another consumer. */
  lemma {:induction false} UpsertRefusedExactly(db: Db, c: string, wallet: string, kind: ConsumerKind, hash: string)
    ensures var out := Apply(db, UpsertKeyOp(c, wallet, kind, hash));
            && (out.reply == Failed(HashInUse)
                <==> exists other :: other in db.consumers && other != c && db.consumers[other].keyHash == Some(hash))
            && (out.reply != Failed(HashInUse) ==> out.reply == Done)
  {
  }

  /** No two consumers have the same key hash, reused hashes or not. */
  ghost predicate HashesUnique(db: Db) {
    forall c <- db.consumers, d <- db.consumers ::
      c != d && db.consumers[c].keyHash.Some? ==> db.consumers[c].keyHash != db.consumers[d].keyHash
  }

  lemma {:induction false} StepKeepsHashesUnique(db: Db, op: Op)
    requires HashesUnique(db)
    ensures HashesUnique(Apply(db, op).db)
  {
    match op
    case UpsertKeyOp(c, wallet, kind, hash) => UpsertKeepsHashesUnique(db, c, wallet, kind, hash);
    case RevokeKeyOp(c, hash) => RevokeKeepsHashesUnique(db, c, hash);
    case TopupOp(c, fingerprint, amount) => TopupKeepsHashesUnique(db, TrimSpace(c), TrimSpace(fingerprint), amount);
    case _ => assert Apply(db, op).db.consumers == db.consumers;
  }

  lemma {:induction false} UpsertKeepsHashesUnique(db: Db, c: string, wallet: string, kind: ConsumerKind, hash: string)
    requires HashesUnique(db)
    ensures HashesUnique(ApplyUpsertKey(db, c, wallet, kind, hash).db)
  {
  }

  lemma {:induction false} RevokeKeepsHashesUnique(db: Db, c: string, hash: string)
    requires HashesUnique(db)
    ensures HashesUnique(ApplyRevokeKey(db, c, hash).db)
  {
  }

  lemma {:induction false} TopupKeepsHashesUnique(db: Db, c: string, fingerprint: string, amount: int)
    requires HashesUnique(db)
    ensures HashesUnique(ApplyTopup(db, c, fingerprint, amount).db)
  {
  }

  lemma {:induction false} RunKeepsHashesUnique(db: Db, ops: seq<Op>)
    requires HashesUnique(db)
    ensures HashesUnique(Run(db, ops))
  {
    if ops != [] {
      RunKeepsHashesUnique(db, ops[..|ops| - 1]);
      StepKeepsHashesUnique(Run(db, ops[..|ops| - 1]), ops[|ops| - 1]);
    }
  }

  // ---------------------------------------------------------------- runs with fresh hashes

  lemma {:induction false} OtherOpsKeepLinked(db: Db, op: Op)
    requires Linked(db) && !op.UpsertKeyOp?
    ensures Linked(Apply(db, op).db)
  {
  }

  /** An upsert keeps the tables linked exactly when the hash is new or was the same consumer's before. */
  lemma {:induction false} UpsertLinksExactly(db: Db, c: string, wallet: string, kind: ConsumerKind, hash: string)
    requires Linked(db) && Apply(db, UpsertKeyOp(c, wallet, kind, hash)).reply == Done
    ensures Linked(Apply(db, UpsertKeyOp(c, wallet, kind, hash)).db)
       <==> hash !in db.apiKeys || db.apiKeys[hash].consumer == c
  {
    var next := Apply(db, UpsertKeyOp(c, wallet, kind, hash)).db;
    assert LinkedAt(next, c) <==> hash !in db.apiKeys || db.apiKeys[hash].consumer == c;
    forall other <- next.consumers | other != c ensures LinkedAt(next, other) {
      assert LinkedAt(db, other);
    }
  }

  /** Reusing another consumer's revoked hash does unlink the tables: the new key resolves to nobody. */
  lemma {:induction false} ReusedHashIsDead(wallet: string)
    ensures var first := UpsertKeyOp("a", wallet, Prepaid, "h");
            var third := UpsertKeyOp("b", wallet, Prepaid, "h");
            var db := Run(EMPTY, [first, RevokeKeyOp("a", "h"), third]);
            "b" in db.consumers && db.consumers["b"].keyHash == Some("h") && LookupKey(db, "h") == None && !Linked(db)
  {
    var first := UpsertKeyOp("a", wallet, Prepaid, "h");
    var second := RevokeKeyOp("a", "h");
    var third := UpsertKeyOp("b", wallet, Prepaid, "h");
    RunSnoc(EMPTY, [], first);
    RunSnoc(EMPTY, [first], second);
    RunSnoc(EMPTY, [first, second], third);
    assert [] + [first] == [first] && [first] + [second] == [first, second];
    assert [first, second] + [third] == [first, second, third];
    var db := Run(EMPTY, [first, second, third]);
    assert !LinkedAt(db, "b");
  }

  ghost predicate FreshHashes(db: Db, ops: seq<Op>) {
    && (forall i :: 0 <= i < |ops| && ops[i].UpsertKeyOp? ==> ops[i].hash !in db.apiKeys)
    && (forall i, j :: 0 <= i < j < |ops| && ops[i].UpsertKeyOp? && ops[j].UpsertKeyOp? ==> ops[i].hash != ops[j].hash)
  }

  lemma {:induction false} KeysComeFromUpserts(db: Db, ops: seq<Op>, hash: string)
    requires hash !in db.apiKeys
    requires forall i :: 0 <= i < |ops| && ops[i].UpsertKeyOp? ==> ops[i].hash != hash
    ensures hash !in Run(db, ops).apiKeys
  {
    if ops != [] {
      KeysComeFromUpserts(db, ops[..|ops| - 1], hash);
      OnlyUpsertsAddKeys(Run(db, ops[..|ops| - 1]), ops[|ops| - 1]);
    }
  }

  lemma {:induction false} OnlyUpsertsAddKeys(db: Db, op: Op)
    ensures forall hash <- Apply(db, op).db.apiKeys :: hash in db.apiKeys || (op.UpsertKeyOp? && op.hash == hash)
  {
  }

  /** Over every run with fresh hashes each key hash column points to an active key of its consumer. */
  lemma {:induction false} RunLinked(db: Db, ops: seq<Op>)
    requires Linked(db) && FreshHashes(db, ops)
    ensures Linked(Run(db, ops))
  {
    if ops != [] {
      var before := ops[..|ops| - 1];
      var op := ops[|ops| - 1];
      RunLinked(db, before);
      match op
      case UpsertKeyOp(c, wallet, kind, hash) =>
        KeysComeFromUpserts(db, before, hash);
        if Apply(Run(db, before), op).reply == Done {
          UpsertLinksExactly(Run(db, before), c, wallet, kind, hash);
        }
      case _ => OtherOpsKeepLinked(Run(db, before), op);
    }
  }

  // ---------------------------------------------------------------- dead keys stay dead

  lemma {:induction false} StaysDead(db: Db, op: Op, hash: string)
    requires LookupKey(db, hash) == None
    requires op.UpsertKeyOp? ==> op.hash != hash
    ensures LookupKey(Apply(db, op).db, hash) == None
    ensures hash in Apply(db, op).db.apiKeys <==> hash in db.apiKeys
  {
  }

  lemma {:induction false} DeadKeysStayDead(db: Db, ops: seq<Op>, hash: string)
    requires LookupKey(db, hash) == None
    requires forall op <- ops :: op.UpsertKeyOp? ==> op.hash != hash
    ensures LookupKey(Run(db, ops), hash) == None
    ensures hash in Run(db, ops).apiKeys <==> hash in db.apiKeys
  {
    if ops != [] {
      DeadKeysStayDead(db, ops[..|ops| - 1], hash);
      StaysDead(Run(db, ops[..|ops| - 1]), ops[|ops| - 1], hash);
    }
  }

  /** A revoked key never resolves again unless it is itself upserted. */
  lemma {:induction false} RevokedNeverResolves(db: Db, c: string, hash: string, ops: seq<Op>)
    requires Apply(db, RevokeKeyOp(c, hash)).reply == Revocation(true)
    requires forall op <- ops :: op.UpsertKeyOp? ==> op.hash != hash
    ensures LookupKey(Run(Apply(db, RevokeKeyOp(c, hash)).db, ops), hash) == None
  {
    DeadKeysStayDead(Apply(db, RevokeKeyOp(c, hash)).db, ops, hash);
  }

  /** Nor does a key that a newer one of the same consumer has replaced. */
  lemma {:induction false} SupersededNeverResolves(db: Db, c: string, wallet: string, kind: ConsumerKind,
          hash: string, previous: string, ops: seq<Op>)
    requires Linked(db) && c in db.consumers && db.consumers[c].keyHash == Some(previous) && hash != previous
    requires Apply(db, UpsertKeyOp(c, wallet, kind, hash)).reply == Done
    requires forall op <- ops :: op.UpsertKeyOp? ==> op.hash != previous
    ensures LookupKey(Run(Apply(db, UpsertKeyOp(c, wallet, kind, hash)).db, ops), previous) == None
  {
    assert LinkedAt(db, c);
    DeadKeysStayDead(Apply(db, UpsertKeyOp(c, wallet, kind, hash)).db, ops, previous);
  }

  // ---------------------------------------------------------------- handlers

  function ConsumerIdFromWallet(wallet: string): string {
    "wallet:" + ToLower(TrimSpace(wallet))
  }

  lemma {:induction false} ConsumerIdIsTrimmed(wallet: string)
    ensures TrimSpace(ConsumerIdFromWallet(wallet)) == ConsumerIdFromWallet(wallet) != ""
  {
    var id := ConsumerIdFromWallet(wallet);
    var trimmed := TrimSpace(wallet);
    TrimRightEnds(TrimLeft(wallet));
    assert id[0] == 'w';
    assert id[|id| - 1] == if trimmed == "" then ':' else ToLower(trimmed)[|trimmed| - 1];
  }

  datatype Handled = Handled(db: Db, ok: bool)

  /** The store calls of the top-up handler: record, and issue a key if the consumer has none. */
  function PrepaidTopup(db: Db, wallet: string, fingerprint: string, amount: int, newHash: string): Handled {
    var c := ConsumerIdFromWallet(wallet);
    var recorded := Apply(db, TopupOp(c, fingerprint, amount));
    if recorded.reply.Failed? then Handled(recorded.db, false)
    else if ConsumerKeyHash(recorded.db, c) != "" then Handled(recorded.db, true)
    else
      var issued := Apply(recorded.db, UpsertKeyOp(c, wallet, Prepaid, newHash));
      Handled(issued.db, issued.reply == Done)
  }

  /** Both rotate handlers: revoke the old key, then upsert the new one. */
  function RotateKey(db: Db, c: string, wallet: string, kind: ConsumerKind, oldHash: string, newHash: string): Handled {
    var revoked := Apply(db, RevokeKeyOp(c, oldHash));
    if revoked.reply != Revocation(true) then Handled(revoked.db, false)
    else
      var issued := Apply(revoked.db, UpsertKeyOp(c, wallet, kind, newHash));
      Handled(issued.db, issued.reply == Done)
  }

  /** The key holder's rotate: the principal behind the presented key rotates exactly that key. */
  function RotatePresentedKey(db: Db, oldHash: string, newHash: string): Handled {
    var owner := LookupKey(db, oldHash);
    if owner.None? then Handled(db, false)
    else RotateKey(db, owner.value.consumer, owner.value.wallet, owner.value.kind, oldHash, newHash)
  }

  method HandlePrepaidTopup(store: PostgresStore, wallet: string, fingerprint: string, amount: int, newHash: string)
    returns (ok: bool)
    modifies store
    ensures Handled(store.Contents(), ok) == PrepaidTopup(old(store.Contents()), wallet, fingerprint, amount, newHash)
  {
    var c := ConsumerIdFromWallet(wallet);
    ConsumerIdIsTrimmed(wallet);
    var recorded := store.RecordX402PrepaidTopup(c, fingerprint, amount);
    if recorded.Failed? {
      return false;
    }
    var existing := store.LookupConsumerAPIKeyHash(c);
    if existing != "" {
      return true;
    }
    var issued := store.UpsertConsumerAPIKey(c, wallet, Prepaid, newHash);
    return issued == Done;
  }

  method HandleRotate(store: PostgresStore, c: string, wallet: string, kind: ConsumerKind, oldHash: string,
          newHash: string)
    returns (ok: bool)
    modifies store
    ensures Handled(store.Contents(), ok) == RotateKey(old(store.Contents()), c, wallet, kind, oldHash, newHash)
  {
    var revoked := store.RevokeConsumerAPIKey(c, oldHash);
    if revoked != Revocation(true) {
      return false;
    }
    var issued := store.UpsertConsumerAPIKey(c, wallet, kind, newHash);
    return issued == Done;
  }

  method HandlePrepaidRotate(store: PostgresStore, oldHash: string, newHash: string) returns (ok: bool)
    modifies store
    ensures Handled(store.Contents(), ok) == RotatePresentedKey(old(store.Contents()), oldHash, newHash)
  {
    var owner := store.LookupActiveAPIKey(oldHash);
    if owner.None? {
      return false;
    }
    ok := HandleRotate(store, owner.value.consumer, owner.value.wallet, owner.value.kind, oldHash, newHash);
  }

  /** A top-up that is not interrupted leaves the payer exactly one live key: the one it had, or else the new one. */
  lemma {:induction false} TopupLeavesOneKey(db: Db, wallet: string, fingerprint: string, amount: int, newHash: string)
    requires Linked(db) && newHash !in db.apiKeys
    requires PrepaidTopup(db, wallet, fingerprint, amount, newHash).ok
    ensures var c := ConsumerIdFromWallet(wallet);
            var next := PrepaidTopup(db, wallet, fingerprint, amount, newHash).db;
            && Linked(next)
            && LiveKeys(next, c) == {if ConsumerKeyHash(db, c) != "" then db.consumers[c].keyHash.value else newHash}
  {
    var c := ConsumerIdFromWallet(wallet);
    ConsumerIdIsTrimmed(wallet);
    var topup := TopupOp(c, fingerprint, amount);
    var recorded := Apply(db, topup).db;
    OtherOpsKeepLinked(db, topup);
    TopupKeepsKeys(db, c, fingerprint, amount);
    if ConsumerKeyHash(recorded, c) == "" {
      UpsertLinksExactly(recorded, c, wallet, Prepaid, newHash);
    }
    OneLiveKey(PrepaidTopup(db, wallet, fingerprint, amount, newHash).db, c);
  }

  /** The top-up handler credits the payer once for each fingerprint, and the key it issues is a prepaid one. */
  lemma {:induction false} TopupPaysIn(db: Db, wallet: string, fingerprint: string, amount: int,
          newHash: string, other: string)
    requires PrepaidTopup(db, wallet, fingerprint, amount, newHash).ok && newHash !in db.apiKeys
    requires other != ConsumerIdFromWallet(wallet)
    ensures var c := ConsumerIdFromWallet(wallet);
            var next := PrepaidTopup(db, wallet, fingerprint, amount, newHash).db;
            && Balance(next, c) == Balance(db, c) + (if TrimSpace(fingerprint) in db.topups then 0 else amount)
            && Balance(next, other) == Balance(db, other)
            && (wallet != "" && newHash in next.apiKeys ==>
                  LookupKey(next, newHash) == Some(KeyOwner(c, Prepaid, wallet)))
  {
    var c := ConsumerIdFromWallet(wallet);
    ConsumerIdIsTrimmed(wallet);
    TopupBalances(db, c, TrimSpace(fingerprint), amount, other);
    if wallet != "" {
      TopupIssuesPrepaid(db, wallet, fingerprint, amount, newHash);
    }
  }

  lemma {:induction false} TopupIssuesPrepaid(db: Db, wallet: string, fingerprint: string, amount: int, newHash: string)
    requires PrepaidTopup(db, wallet, fingerprint, amount, newHash).ok && newHash !in db.apiKeys && wallet != ""
    ensures var next := PrepaidTopup(db, wallet, fingerprint, amount, newHash).db;
            newHash in next.apiKeys ==>
              LookupKey(next, newHash) == Some(KeyOwner(ConsumerIdFromWallet(wallet), Prepaid, wallet))
  {
    var c := ConsumerIdFromWallet(wallet);
    ConsumerIdIsTrimmed(wallet);
    var recorded := Apply(db, TopupOp(c, fingerprint, amount)).db;
    TopupKeepsKeys(db, c, fingerprint, amount);
    if ConsumerKeyHash(recorded, c) == "" {
      IssuedKeyResolves(recorded, c, wallet, Prepaid, newHash);
    }
  }

  lemma {:induction false} TopupBalances(db: Db, c: string, fingerprint: string, amount: int, other: string)
    requires !ApplyTopup(db, c, fingerprint, amount).reply.Failed? && other != c
    ensures var next := ApplyTopup(db, c, fingerprint, amount).db;
            && Balance(next, c) == Balance(db, c) + (if fingerprint in db.topups then 0 else amount)
            && Balance(next, other) == Balance(db, other)
  {
  }

  /** A consumer id is the wallet without surrounding white space and in lower case, behind a fixed prefix. */
  lemma {:induction false} WalletsAreNormalized(wallet: string, space: char)
    requires IsSpace(space)
    ensures ConsumerIdFromWallet([space] + wallet) == ConsumerIdFromWallet(wallet)
    ensures TrimSpace(wallet) == wallet ==> ConsumerIdFromWallet(wallet) == "wallet:" + ToLower(wallet)
  {
    assert ([space] + wallet)[1..] == wallet;
  }

  predicate HasKey(db: Db, c: string) {
    c in db.consumers && db.consumers[c].keyHash.Some?
  }

  lemma {:induction false} KeylessHasNoLiveKey(db: Db, c: string)
    requires Linked(db)
    ensures LiveKeys(db, c) == {} <==> !HasKey(db, c)
  {
    if HasKey(db, c) {
      OneLiveKey(db, c);
    } else {
      forall hash ensures hash !in LiveKeys(db, c) {
        LookupIsBijection(db, hash, c);
      }
    }
  }

  predicate IssuesTo(ops: seq<Op>, c: string) {
    exists op <- ops :: op.UpsertKeyOp? && op.consumer == c
  }

  lemma {:induction false} StepGivesNoKey(db: Db, op: Op, c: string)
    requires !HasKey(db, c) && !(op.UpsertKeyOp? && op.consumer == c)
    ensures !HasKey(Apply(db, op).db, c)
  {
  }

  lemma {:induction false} NoKeyWithoutUpsert(db: Db, ops: seq<Op>, c: string)
    requires !HasKey(db, c) && !IssuesTo(ops, c)
    ensures !HasKey(Run(db, ops), c)
  {
    if ops != [] {
      var before := ops[..|ops| - 1];
      assert ops[|ops| - 1] in ops;
      forall op <- before ensures op in ops {
      }
      NoKeyWithoutUpsert(db, before, c);
      StepGivesNoKey(Run(db, before), ops[|ops| - 1], c);
    }
  }

  /**
   * The top-up handler's upsert after any run of other calls since its lookup found no key. The new key is the only
   * live one, and no key was lost exactly when none had been issued meanwhile, as when nobody else upserts one.
   */
  lemma {:induction false} InterruptedTopup(db: Db, between: seq<Op>, wallet: string, newHash: string)
    requires Linked(db) && !HasKey(db, ConsumerIdFromWallet(wallet)) && newHash !in db.apiKeys
    requires FreshHashes(db, between) && forall op <- between :: op.UpsertKeyOp? ==> op.hash != newHash
    ensures var c := ConsumerIdFromWallet(wallet);
            var mid := Run(db, between);
            var out := Apply(mid, UpsertKeyOp(c, wallet, Prepaid, newHash));
            && out.reply == Done && Linked(out.db)
            && LiveKeys(out.db, c) == {newHash}
            && (LiveKeys(mid, c) <= LiveKeys(out.db, c) <==> !HasKey(mid, c))
            && (!IssuesTo(between, c) ==> !HasKey(mid, c))
  {
    var c := ConsumerIdFromWallet(wallet);
    var mid := Run(db, between);
    RunLinked(db, between);
    KeysComeFromUpserts(db, between, newHash);
    FreshHashIsFree(mid, c, newHash);
    UpsertLinksExactly(mid, c, wallet, Prepaid, newHash);
    OneLiveKey(Apply(mid, UpsertKeyOp(c, wallet, Prepaid, newHash)).db, c);
    KeylessHasNoLiveKey(mid, c);
    if HasKey(mid, c) {
      OneLiveKey(mid, c);
      assert LinkedAt(mid, c);
      assert mid.consumers[c].keyHash.value in LiveKeys(mid, c);
    }
    if !IssuesTo(between, c) {
      NoKeyWithoutUpsert(db, between, c);
    }
  }

  /**
   * It does happen: when two first top-ups of one wallet overlap, both find no key and both issue one, and the key
   * that was handed out first never resolves again unless it is itself upserted.
   */
  lemma {:induction false} OverlappingTopupsLoseAKey(db: Db, wallet: string, first: string, second: string,
          later: seq<Op>)
    requires Linked(db) && !HasKey(db, ConsumerIdFromWallet(wallet))
    requires first !in db.apiKeys && second !in db.apiKeys && first != second
    requires forall op <- later :: op.UpsertKeyOp? ==> op.hash != first
    ensures var c := ConsumerIdFromWallet(wallet);
            var one := Apply(db, UpsertKeyOp(c, wallet, Prepaid, first));
            var two := Apply(one.db, UpsertKeyOp(c, wallet, Prepaid, second));
            && one.reply == Done && two.reply == Done
            && LookupKey(one.db, first).Some?
            && LiveKeys(two.db, c) == {second}
            && LookupKey(Run(two.db, later), first) == None
  {
    var c := ConsumerIdFromWallet(wallet);
    var one := Apply(db, UpsertKeyOp(c, wallet, Prepaid, first));
    FreshHashIsFree(db, c, first);
    UpsertLinksExactly(db, c, wallet, Prepaid, first);
    FreshHashIsFree(one.db, c, second);
    UpsertLinksExactly(one.db, c, wallet, Prepaid, second);
    OneLiveKey(Apply(one.db, UpsertKeyOp(c, wallet, Prepaid, second)).db, c);
    SupersededNeverResolves(one.db, c, wallet, Prepaid, second, first, later);
  }

  lemma {:induction false} TopupKeepsKeys(db: Db, c: string, fingerprint: string, amount: int)
    requires TrimSpace(c) == c
    ensures var out := Apply(db, TopupOp(c, fingerprint, amount));
            && out.db.apiKeys == db.apiKeys
            && (!out.reply.Failed? ==> c in out.db.consumers)
            && ConsumerKeyHash(out.db, c) == ConsumerKeyHash(db, c)
            && (ConsumerKeyHash(db, c) != "" ==> out.db.consumers[c].keyHash == db.consumers[c].keyHash)
  {
  }

  /** The top-up handler cannot fail to issue a fresh key once the payment is recorded. */
  lemma {:induction false} TopupIssuesKey(db: Db, wallet: string, fingerprint: string, amount: int, newHash: string)
    requires Linked(db) && newHash !in db.apiKeys
    requires !Apply(db, TopupOp(ConsumerIdFromWallet(wallet), fingerprint, amount)).reply.Failed?
    ensures PrepaidTopup(db, wallet, fingerprint, amount, newHash).ok
  {
    var topup := TopupOp(ConsumerIdFromWallet(wallet), fingerprint, amount);
    OtherOpsKeepLinked(db, topup);
    ConsumerIdIsTrimmed(wallet);
    TopupKeepsKeys(db, ConsumerIdFromWallet(wallet), fingerprint, amount);
    FreshHashIsFree(Apply(db, topup).db, ConsumerIdFromWallet(wallet), newHash);
  }

  lemma {:induction false} FreshHashIsFree(db: Db, c: string, hash: string)
    requires Linked(db) && hash !in db.apiKeys
    ensures !HashTaken(db, c, hash)
  {
  }

  /** Rotating the presented key moves its consumer to the new key and touches no other key. */
  lemma {:induction false} RotationMovesTheKey(db: Db, oldHash: string, newHash: string, other: string)
    requires Linked(db) && LookupKey(db, oldHash).Some? && newHash !in db.apiKeys
    requires other != oldHash && other != newHash
    ensures var owner := LookupKey(db, oldHash).value;
            var out := RotatePresentedKey(db, oldHash, newHash);
            && out.ok && Linked(out.db)
            && LookupKey(out.db, newHash) == Some(owner)
            && LookupKey(out.db, oldHash) == None
            && LookupKey(out.db, other) == LookupKey(db, other)
  {
  }

  /** A presented key rotates exactly when it resolves; otherwise nothing changes. */
  lemma {:induction false} OnlyLiveKeysRotate(db: Db, oldHash: string, newHash: string)
    requires Linked(db) && newHash !in db.apiKeys
    ensures RotatePresentedKey(db, oldHash, newHash).ok <==> LookupKey(db, oldHash).Some?
    ensures LookupKey(db, oldHash) == None ==> RotatePresentedKey(db, oldHash, newHash) == Handled(db, false)
  {
    if LookupKey(db, oldHash).Some? {
      RotationMovesTheKey(db, oldHash, newHash, oldHash + newHash + "x");
    }
  }

  /** The operator's rotate: whichever active key of the consumer was named, only the new one is live afterwards. */
  lemma {:induction false} OperatorRotationLeavesOneKey(db: Db, c: string, wallet: string, kind: ConsumerKind,
          oldHash: string, newHash: string)
    requires Linked(db) && newHash !in db.apiKeys
    requires RotateKey(db, c, wallet, kind, oldHash, newHash).ok
    ensures var out := RotateKey(db, c, wallet, kind, oldHash, newHash);
            && Linked(out.db) && LiveKeys(out.db, c) == {newHash} && LookupKey(out.db, oldHash) == None
            && LookupKey(out.db, newHash).Some? && LookupKey(out.db, newHash).value.kind == kind
            && (wallet != "" ==> LookupKey(out.db, newHash) == Some(KeyOwner(c, kind, wallet)))
  {
  }
}
