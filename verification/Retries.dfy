/** Client retries are harmless: a run with repeated calls ends like the run without the repeats. */
module Retries {
  import opened Wrappers
  import opened Text
  import opened Ledger
  import opened Conservation

  /** A call answered before, whatever the amounts: an approved Reserve, a settled Finalize, a recorded fingerprint. */
  predicate Repeats(first: Op, reply: Reply, again: Op) {
    match first
    case ReserveOp(c, request, _) =>
      again.ReserveOp? && again.consumer == c && again.request == request && reply.Decision? && reply.approved
    case FinalizeOp(c, request, _, _) =>
      again.FinalizeOp? && again.consumer == c && again.request == request && reply.Settled?
    case TopupOp(_, fingerprint, _) =>
      again.TopupOp? && TrimSpace(again.fingerprint) == TrimSpace(fingerprint) && reply.Recorded?
    case _ => false
  }

  ghost predicate IsRetry(db: Db, before: seq<Op>, op: Op) {
    exists i :: 0 <= i < |before| && Repeats(before[i], Replies(db, before)[i], op)
  }

  /** The run without the calls that repeat an earlier call of the run. */
  ghost function Deduplicated(db: Db, ops: seq<Op>): seq<Op> {
    if ops == [] then []
    else
      var before := ops[..|ops| - 1];
      var op := ops[|ops| - 1];
      Deduplicated(db, before) + (if IsRetry(db, before, op) then [] else [op])
  }

  /** Equal in everything but the consumer kind, which a repeated top-up sets to prepaid again. */
  ghost predicate Similar(a: Db, b: Db) {
    && a.balances == b.balances && a.ledger == b.ledger && a.reservations == b.reservations
    && a.topups == b.topups && a.apiKeys == b.apiKeys
    && a.consumers.Keys == b.consumers.Keys
    && (forall c <- a.consumers ::
          a.consumers[c].keyHash == b.consumers[c].keyHash && a.consumers[c].wallet == b.consumers[c].wallet)
  }

  lemma {:induction false} SimilarTransitive(a: Db, b: Db, c: Db)
    requires Similar(a, b) && Similar(b, c)
    ensures Similar(a, c)
  {
  }

  lemma {:induction false} ApplyRespectsSimilar(a: Db, b: Db, op: Op)
    requires Similar(a, b)
    ensures Similar(Apply(a, op).db, Apply(b, op).db) && Apply(a, op).reply == Apply(b, op).reply
  {
    match op
    case UpsertKeyOp(_, _, _, _) => UpsertRespectsSimilar(a, b, op);
    case RevokeKeyOp(_, _) => RevokeRespectsSimilar(a, b, op);
    case TopupOp(c, f, amount) => TopupRespectsSimilar(a, b, TrimSpace(c), TrimSpace(f), amount);
    case FinalizeOp(_, _, _, _) => FinalizeRespectsSimilar(a, b, op);
    case ReserveOp(_, _, _) => ReserveRespectsSimilar(a, b, op);
    case CreditOp(_, _, _) => CreditRespectsSimilar(a, b, op);
  }

  lemma {:induction false} ReserveRespectsSimilar(a: Db, b: Db, op: Op)
    requires Similar(a, b) && op.ReserveOp?
    ensures Similar(Apply(a, op).db, Apply(b, op).db) && Apply(a, op).reply == Apply(b, op).reply
  {
  }

  lemma {:induction false} CreditRespectsSimilar(a: Db, b: Db, op: Op)
    requires Similar(a, b) && op.CreditOp?
    ensures Similar(Apply(a, op).db, Apply(b, op).db) && Apply(a, op).reply == Apply(b, op).reply
  {
  }

  lemma {:induction false} UpsertRespectsSimilar(a: Db, b: Db, op: Op)
    requires Similar(a, b) && op.UpsertKeyOp?
    ensures Similar(Apply(a, op).db, Apply(b, op).db) && Apply(a, op).reply == Apply(b, op).reply
  {
  }

  lemma {:induction false} RevokeRespectsSimilar(a: Db, b: Db, op: Op)
    requires Similar(a, b) && op.RevokeKeyOp?
    ensures Similar(Apply(a, op).db, Apply(b, op).db) && Apply(a, op).reply == Apply(b, op).reply
  {
  }

  lemma {:induction false} TopupRespectsSimilar(a: Db, b: Db, c: string, f: string, amount: int)
    requires Similar(a, b)
    ensures Similar(ApplyTopup(a, c, f, amount).db, ApplyTopup(b, c, f, amount).db)
    ensures ApplyTopup(a, c, f, amount).reply == ApplyTopup(b, c, f, amount).reply
  {
    if c != "" && f != "" && amount > 0 && f !in a.topups {
      FirstTopupRespectsSimilar(a, b, c, f, amount);
    }
  }

  lemma {:induction false} FirstTopupRespectsSimilar(a: Db, b: Db, c: string, f: string, amount: int)
    requires Similar(a, b) && f !in a.topups && c != "" && f != "" && amount > 0
    ensures Similar(ApplyTopup(a, c, f, amount).db, ApplyTopup(b, c, f, amount).db)
    ensures ApplyTopup(a, c, f, amount).reply == ApplyTopup(b, c, f, amount).reply
  {
  }

  lemma {:induction false} FinalizeRespectsSimilar(a: Db, b: Db, op: Op)
    requires Similar(a, b) && op.FinalizeOp?
    ensures Similar(Apply(a, op).db, Apply(b, op).db) && Apply(a, op).reply == Apply(b, op).reply
  {
  }

  // ---------------------------------------------------------------- what an answered call leaves behind

  /** The row that makes any later repeat of this call a replay. */
  predicate Answered(db: Db, op: Op) {
    match op
    case ReserveOp(c, request, _) => request in db.reservations && db.reservations[request].consumer == c
    case FinalizeOp(c, request, _, _) =>
      && request in db.reservations
      && db.reservations[request].consumer == c && db.reservations[request].status != Reserved
    case TopupOp(_, fingerprint, _) => TrimSpace(fingerprint) in db.topups
    case _ => false
  }

  lemma {:induction false} AnswerIsRecorded(db: Db, first: Op, again: Op)
    requires Traced(db) && Repeats(first, Apply(db, first).reply, again)
    ensures Answered(Apply(db, first).db, again)
  {
  }

  lemma {:induction false} AnswerIsKept(db: Db, op: Op, again: Op)
    requires Answered(db, again)
    ensures Answered(Apply(db, op).db, again)
  {
  }

  lemma {:induction false} RetryIsAnswered(db: Db, before: seq<Op>, again: Op)
    requires Sound(db) && IsRetry(db, before, again)
    ensures Answered(Run(db, before), again)
  {
    var i :| 0 <= i < |before| && Repeats(before[i], Replies(db, before)[i], again);
    var n := |before| - 1;
    var mid := Run(db, before[..n]);
    assert before == before[..n] + [before[n]];
    RunSnoc(db, before[..n], before[n]);
    if i == n {
      RunSound(db, before[..n]);
      AnswerIsRecorded(mid, before[n], again);
    } else {
      assert Replies(db, before)[i] == Replies(db, before[..n])[i];
      RetryIsAnswered(db, before[..n], again);
      AnswerIsKept(mid, before[n], again);
    }
  }

  lemma {:induction false} ReplayChangesNothing(db: Db, again: Op)
    requires Grounded(db) && Answered(db, again)
    ensures Similar(Apply(db, again).db, db)
  {
    if again.TopupOp? {
      assert Apply(db, again) == ApplyTopup(db, TrimSpace(again.consumer), TrimSpace(again.fingerprint), again.amount);
    }
  }

  /** Whatever is repeated, and whenever: balances, ledger, reservations and top-ups are as if it never was. */
  lemma {:induction false} RetriesAreHarmless(db: Db, ops: seq<Op>)
    requires Sound(db)
    ensures Similar(Run(db, ops), Run(db, Deduplicated(db, ops)))
  {
    if ops != [] {
      var before := ops[..|ops| - 1];
      var op := ops[|ops| - 1];
      RetriesAreHarmless(db, before);
      if IsRetry(db, before, op) {
        RetryIsAnswered(db, before, op);
        RunSound(db, before);
        ReplayChangesNothing(Run(db, before), op);
        assert Deduplicated(db, ops) == Deduplicated(db, before);
        SimilarTransitive(Run(db, ops), Run(db, before), Run(db, Deduplicated(db, before)));
      } else {
        assert Deduplicated(db, ops) == Deduplicated(db, before) + [op];
        ApplyRespectsSimilar(Run(db, before), Run(db, Deduplicated(db, before)), op);
        RunSnoc(db, Deduplicated(db, before), op);
      }
    }
  }

  /** A retried Reserve is told the amount first reserved, not the one it asks for now. */
  lemma {:induction false} RetriedReserveReportsFirstHold(db: Db, before: seq<Op>, c: string, request: string,
          amount: int, later: int)
    requires Sound(db) && amount > 0 && later > 0 && request !in db.reservations
    requires var first := Apply(db, ReserveOp(c, request, amount));
             first.reply.Decision? && first.reply.approved
    ensures var now := Run(Apply(db, ReserveOp(c, request, amount)).db, before);
            Apply(now, ReserveOp(c, request, later)).reply == Decision(true, amount, Balance(now, c))
  {
    var first := Apply(db, ReserveOp(c, request, amount)).db;
    KeepsSound(db, ReserveOp(c, request, amount));
    TerminalStatesAbsorb(first, before);
    RunSound(first, before);
    assert request in first.reservations;
  }
}
