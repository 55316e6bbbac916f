/** One chat request from its reservation to its settlement: billing and failover put together. */
module Chat {
  import opened Wrappers
  import opened Ledger
  import opened Conservation
  import opened Pricing
  import opened Store
  import opened Billing
  import ApiKeys
  import R = StreamRelay

  /** How the gateway's own backend answered, when the request was left to it. */
  datatype LocalAnswer = LocalAnswer(completion: int, success: bool)

  /** The billing run of a single request. */
  function Bills(cfg: Config, db: Db, id: string, who: Option<Principal>, req: ChatRequest, completion: int,
          success: bool): Db {
    Next(cfg, Next(cfg, Gateway(db, map[], []), Arrive(id, who, req)), Complete(id, completion, success)).db
  }

  lemma {:induction false} BillsIsARun(cfg: Config, db: Db, id: string, who: Option<Principal>,
          req: ChatRequest, completion: int, success: bool)
    ensures Bills(cfg, db, id, who, req, completion, success)
         == Serve(cfg, db, [Arrive(id, who, req), Complete(id, completion, success)]).db
  {
    var arrive, complete := Arrive(id, who, req), Complete(id, completion, success);
    ServeSnoc(cfg, db, [], arrive);
    ServeSnoc(cfg, db, [arrive], complete);
    assert [] + [arrive] == [arrive] && [arrive] + [complete] == [arrive, complete];
  }

  /**
   * What a request leaves behind. The deferred settlement is made on the request's own context; when that has
   * ended, as it has after a failed write to the client, it does not reach the store.
   */
  function RequestEffect(cfg: Config, db: Db, id: string, who: Option<Principal>, req: ChatRequest, completion: int,
          success: bool, reached: bool): Db {
    if reached then Bills(cfg, db, id, who, req, completion, success) else Begin(cfg, db, id, who, req).db
  }

  ghost predicate NobodyPaid(before: Db, after: Db) {
    forall c :: Balance(after, c) == Balance(before, c)
  }

  /** A request that failed costs nobody anything exactly when it had no session or its settlement got through. */
  lemma {:induction false} FreeExactlyWhenSettled(cfg: Config, db: Db, id: string, who: Option<Principal>,
          req: ChatRequest, completion: int, reached: bool)
    requires Sound(db) && id !in db.reservations
    ensures NobodyPaid(db, RequestEffect(cfg, db, id, who, req, completion, false, reached))
       <==> reached || Begin(cfg, db, id, who, req).session.None?
  {
    if reached {
      forall c ensures Balance(Bills(cfg, db, id, who, req, completion, false), c) == Balance(db, c) {
        FailuresAreFree(cfg, db, id, who, req, completion, c);
      }
    } else if Begin(cfg, db, id, who, req).session.Some? {
      var payer := who.value.consumer;
      LostSettlementKeepsHold(cfg, db, id, who.value, req, completion, false, "other" + payer);
      assert Balance(RequestEffect(cfg, db, id, who, req, completion, false, false), payer) != Balance(db, payer);
    }
  }

  lemma {:induction false} FailureIsFreeIf(cfg: Config, db: Db, id: string, who: Option<Principal>,
          req: ChatRequest, completion: int, reached: bool)
    ensures Sound(db) && id !in db.reservations ==>
              (NobodyPaid(db, RequestEffect(cfg, db, id, who, req, completion, false, reached))
               <==> reached || Begin(cfg, db, id, who, req).session.None?)
  {
    if Sound(db) && id !in db.reservations {
      FreeExactlyWhenSettled(cfg, db, id, who, req, completion, reached);
    }
  }

  /** Where the settlement is lost, whatever the outcome, the row stays reserved and the hold is gone. */
  lemma {:induction false} LostSettlementKeepsHold(cfg: Config, db: Db, id: string, who: Principal, req: ChatRequest,
          completion: int, success: bool, other: string)
    requires Sound(db) && id !in db.reservations && other != who.consumer
    requires Begin(cfg, db, id, Some(who), req).session.Some?
    ensures var after := RequestEffect(cfg, db, id, Some(who), req, completion, success, false);
            var hold := RequestHold(cfg, req);
            && hold >= 1
            && after.reservations == db.reservations[id := Reservation(who.consumer, hold, 0, Reserved)]
            && Balance(after, who.consumer) == Balance(db, who.consumer) - hold
            && Balance(after, other) == Balance(db, other)
  {
    HoldBegins(db, who.consumer, id, RequestHold(cfg, req), other);
  }

  /**
   * It does happen: one request of a consumer with a single deposit of 1000, lost after its hold, takes the whole
   * deposit, whether it succeeded or not, and the next request is refused.
   */
  lemma {:induction false} OneLostRequest(req: ChatRequest, completion: int, success: bool)
    ensures var cfg := Config(None, None);
            var who := Some(Principal("c", Prepaid));
            var db := ApplyTopup(EMPTY, "c", "f", 1000).db;
            var after := RequestEffect(cfg, db, "r", who, req, completion, success, false);
            && Balance(db, "c") == 1000
            && Begin(cfg, db, "r", who, req).proceed
            && Balance(after, "c") == 0
            && "r" in after.reservations && after.reservations["r"] == Reservation("c", 1000, 0, Reserved)
            && !Begin(cfg, after, "s", who, req).proceed
  {
    var cfg, who := Config(None, None), Principal("c", Prepaid);
    var db := ApplyTopup(EMPTY, "c", "f", 1000).db;
    assert RequestHold(cfg, req) == 1000;
    assert db.balances == map["c" := 1000] && db.reservations == map[];
    var out := ApplyReserve(db, "c", "r", 1000);
    assert out.db.reservations == map["r" := Reservation("c", 1000, 0, Reserved)];
    assert out.db.balances["c"] == 0;
    assert "s"[0] != "r"[0];
  }

  /** A streamed request. The settlement is deferred, so it is tried however the relay ends. */
  method HandleChatStream(store: PostgresStore, cfg: Config, id: string, who: Option<Principal>, req: ChatRequest,
                          attempts: seq<R.Attempt>, flusher: bool, writable: nat, local: LocalAnswer, reached: bool)
    returns (proceed: bool, ending: R.Ending, sent: seq<R.Sse>, completion: int, success: bool)
    modifies store
    ensures store.Contents() == RequestEffect(cfg, old(store.Contents()), id, who, req, completion, success, reached)
    ensures proceed == Begin(cfg, old(store.Contents()), id, who, req).proceed
    ensures !proceed ==> sent == [] && !success
    ensures proceed ==> R.Decided(attempts, flusher, ending)
    ensures proceed && ending.LocalFallback? ==> completion == local.completion && success == local.success
    ensures proceed && (ending.PaymentRelayed? || ending.CannotStream?) ==> sent == [] && !success
    ensures proceed && ending.Committed? ==>
              var stream := attempts[ending.node].stream;
              && sent == R.Prefix(R.Relay(ending.node, stream), writable)
              && (success <==> R.Delivered(ending.node, stream, writable))
              && (success ==> completion == R.ReportedTokens(stream))
    ensures !success && Sound(old(store.Contents())) && id !in old(store.Contents()).reservations
        ==> (NobodyPaid(old(store.Contents()), store.Contents())
             <==> reached || Begin(cfg, old(store.Contents()), id, who, req).session.None?)
  {
    ghost var before := store.Contents();
    ending, sent, completion, success := R.LocalFallback, [], 0, false;
    var session;
    session, proceed := BeginPrepaidReservation(store, cfg, id, who, req);
    if !proceed {
      FailureIsFreeIf(cfg, before, id, who, req, completion, reached);
      return;
    }
    ending, sent, completion, success := R.StreamFromNodes(attempts, flusher, writable);
    if ending.LocalFallback? {
      completion, success := local.completion, local.success;
    }
    FailureIsFreeIf(cfg, before, id, who, req, completion, reached);
    FinalizePrepaidReservation(store, cfg, session, completion, success, reached);
  }

  /** A request answered in one piece. */
  method HandleChat(store: PostgresStore, cfg: Config, id: string, who: Option<Principal>, req: ChatRequest,
                    replies: seq<R.Reply>, local: LocalAnswer, reached: bool)
    returns (proceed: bool, ending: R.UnaryEnding, completion: int, success: bool)
    modifies store
    ensures store.Contents() == RequestEffect(cfg, old(store.Contents()), id, who, req, completion, success, reached)
    ensures proceed == Begin(cfg, old(store.Contents()), id, who, req).proceed
    ensures proceed ==> R.ReplyDecided(replies, ending)
    ensures proceed && ending.NoRemote? ==> completion == local.completion && success == local.success
    ensures proceed && !ending.NoRemote? ==> success == ending.Answered?
    ensures !success && Sound(old(store.Contents())) && id !in old(store.Contents()).reservations
        ==> (NobodyPaid(old(store.Contents()), store.Contents())
             <==> reached || Begin(cfg, old(store.Contents()), id, who, req).session.None?)
    ensures proceed && ending.Answered? ==>
              completion == if replies[ending.node].tokens < 0 then 0 else replies[ending.node].tokens
  {
    ghost var before := store.Contents();
    ending, completion, success := R.NoRemote, 0, false;
    var session;
    session, proceed := BeginPrepaidReservation(store, cfg, id, who, req);
    if !proceed {
      FailureIsFreeIf(cfg, before, id, who, req, completion, reached);
      return;
    }
    ending, completion, success := R.AnswerFromNodes(replies);
    if ending.NoRemote? {
      completion, success := local.completion, local.success;
    }
    FailureIsFreeIf(cfg, before, id, who, req, completion, reached);
    FinalizePrepaidReservation(store, cfg, session, completion, success, reached);
  }

  /** The charge of a fresh request with the given outcome. */
  function RequestCharge(cfg: Config, req: ChatRequest, completion: int, success: bool): int {
    Charge(RequestHold(cfg, req), RequestPrice(cfg, req, completion), success)
  }

  /**
   * A fresh, approved request leaves one closed reservation charged the smaller of price and hold (nothing on
   * failure), costs its consumer exactly that, and nobody else anything.
   */
  lemma {:induction false} RequestSettles(cfg: Config, db: Db, id: string, who: Principal, req: ChatRequest,
          completion: int, success: bool, other: string)
    requires Sound(db) && id !in db.reservations && other != who.consumer
    requires Begin(cfg, db, id, Some(who), req).session.Some?
    ensures var after := Bills(cfg, db, id, Some(who), req, completion, success);
            var charge := RequestCharge(cfg, req, completion, success);
            && after.reservations == db.reservations[id :=
                 Reservation(who.consumer, RequestHold(cfg, req), charge, if charge > 0 then Finalized else Released)]
            && Balance(after, who.consumer) == Balance(db, who.consumer) - charge
            && Balance(after, other) == Balance(db, other)
  {
    var begun := Begin(cfg, db, id, Some(who), req);
    SettledOnce(cfg, db, id, who, req, completion, success);
    HoldBegins(db, who.consumer, id, RequestHold(cfg, req), other);
    HoldSettles(cfg, begun.db, begun.session.value, completion, success, other);
    var after := Bills(cfg, db, id, Some(who), req, completion, success);
    Overwrites(db.reservations, id, begun.db.reservations[id], after.reservations[id]);
  }

  lemma {:induction false} Overwrites(rows: map<string, Reservation>, id: string, first: Reservation,
          second: Reservation)
    ensures rows[id := first][id := second] == rows[id := second]
  {
  }

  lemma {:induction false} SettledOnce(cfg: Config, db: Db, id: string, who: Principal, req: ChatRequest,
          completion: int, success: bool)
    requires Begin(cfg, db, id, Some(who), req).session.Some?
    ensures var begun := Begin(cfg, db, id, Some(who), req);
            Bills(cfg, db, id, Some(who), req, completion, success)
            == Apply(begun.db, SettleOp(cfg, begun.session.value, completion, success)).db
  {
  }

  lemma {:induction false} HoldBegins(db: Db, c: string, id: string, amount: int, other: string)
    requires Sound(db) && id !in db.reservations && other != c
    requires var reply := Apply(db, ReserveOp(c, id, amount)).reply; reply.Decision? && reply.approved
    ensures var out := Apply(db, ReserveOp(c, id, amount));
            && Sound(out.db)
            && out.reply.reserved == amount
            && out.db.reservations == db.reservations[id := Reservation(c, amount, 0, Reserved)]
            && Balance(out.db, c) == Balance(db, c) - amount
            && Balance(out.db, other) == Balance(db, other)
  {
    KeepsSound(db, ReserveOp(c, id, amount));
  }

  lemma {:induction false} HoldSettles(cfg: Config, db: Db, session: Session, completion: int, success: bool,
          other: string)
    requires Sound(db) && other != session.consumer && session.id in db.reservations
    requires db.reservations[session.id] == Reservation(session.consumer, session.reserved, 0, Reserved)
    ensures var after := Apply(db, SettleOp(cfg, session, completion, success)).db;
            var charge := Charge(session.reserved, RequestPrice(cfg, session.request, completion), success);
            && after.reservations == db.reservations[session.id :=
                 Reservation(session.consumer, session.reserved, charge, if charge > 0 then Finalized else Released)]
            && Balance(after, session.consumer) == Balance(db, session.consumer) + session.reserved - charge
            && Balance(after, other) == Balance(db, other)
  {
  }

  /** A request that was not answered is free once it is settled. */
  lemma {:induction false} FailuresAreFree(cfg: Config, db: Db, id: string, who: Option<Principal>,
          req: ChatRequest, completion: int, c: string)
    requires Sound(db) && id !in db.reservations
    ensures Balance(Bills(cfg, db, id, who, req, completion, false), c) == Balance(db, c)
  {
  }

  /**
   * From the node's backend to the ledger: over an intact connection a committed stream is charged for the
   * tokens of the backend's done item, for the input alone if the backend just ended, and not at all if it
   * broke off; the client has its text and [DONE] exactly in the charged cases.
   */
  lemma {:induction false} StreamChargesBackendTokens(cfg: Config, db: Db, id: string, who: Principal,
          req: ChatRequest, node: nat, items: seq<R.BackendItem>, other: string)
    requires Sound(db) && id !in db.reservations && other != who.consumer
    requires Begin(cfg, db, id, Some(who), req).session.Some?
    ensures var stream := R.OnWire(R.NodeEmits(items));
            var events := R.Relay(node, stream);
            var success := R.DoneMark(node) in events;
            var after := Bills(cfg, db, id, Some(who), req, R.ReportedTokens(stream), success);
            var tokens := if R.BackendTokens(items) < 0 then 0 else R.BackendTokens(items);
            && R.ClientText(events) == R.Contents(R.Shown(items))
            && success == !R.BreaksOff(items)
            && Balance(after, who.consumer)
               == Balance(db, who.consumer) - (if R.BreaksOff(items) then 0 else RequestCharge(cfg, req, tokens, true))
            && Balance(after, other) == Balance(db, other)
  {
    var stream := R.OnWire(R.NodeEmits(items));
    R.ClientSeesBackend(node, items);
    R.TokensAreBackends(items);
    RequestSettles(cfg, db, id, who, req, R.ReportedTokens(stream), !R.BreaksOff(items), other);
  }

  // ---------------------------------------------------------------- whose request it is

  /** The principal that a presented key stands for. */
  function PrincipalOf(db: Db, hash: string): Option<Principal> {
    var owner := LookupKey(db, hash);
    if owner.None? then None else Some(Principal(owner.value.consumer, owner.value.kind))
  }

  /** A request under a newly issued key is held when the key was issued prepaid, and only then. */
  lemma {:induction false} IssuedKindDecidesHold(cfg: Config, db: Db, c: string, wallet: string, kind: ConsumerKind,
          hash: string, id: string, req: ChatRequest)
    requires Sound(db) && hash !in db.apiKeys && id !in db.reservations
    requires Apply(db, UpsertKeyOp(c, wallet, kind, hash)).reply == Done
    ensures var now := Apply(db, UpsertKeyOp(c, wallet, kind, hash)).db;
            var begun := Begin(cfg, now, id, PrincipalOf(now, hash), req);
            && PrincipalOf(now, hash) == Some(Principal(c, kind))
            && (kind == X402 ==> begun == Begun(now, None, true))
            && (kind == Prepaid ==> (begun.session.Some? <==> Net(db.ledger, c) >= RequestHold(cfg, req) > 0))
  {
    var op := UpsertKeyOp(c, wallet, kind, hash);
    ApiKeys.IssuedKeyResolves(db, c, wallet, kind, hash);
    KeepsSound(db, op);
    OnlyPrepaidAreHeld(cfg, Apply(db, op).db, id, Principal(c, kind), req);
  }

  // ---------------------------------------------------------------- what a node's count is paid with

  /** A whole answer of a node's backend: one done item with its prompt and completion counts. */
  function WholeAnswer(prompt: nat, eval: nat): seq<R.BackendItem> {
    [R.Chunk("m", "", prompt, eval, true)]
  }

  /** The completion the gateway bills for that answer: both counts together. */
  lemma {:induction false} AnswerReportsBoth(prompt: nat, eval: nat)
    ensures R.ReportedTokens(R.OnWire(R.NodeEmits(WholeAnswer(prompt, eval)))) == prompt + eval
  {
    R.TokensAreBackends(WholeAnswer(prompt, eval));
  }

  /**
   * The prompt is paid twice, in the gateway's estimate and in the node's count: an answer of exactly the allowed
   * 256 tokens to a prompt of 5 is priced at 266 tokens, and its hold of 261 does not cover it.
   */
  lemma {:induction false} PromptIsBilledTwice()
    ensures var cfg := Config(Some(Tariff(Rates(1000, 0, 0, 256), map[])), None);
            var req := ChatRequest("m", [Message("user", "")], Some(256));
            var tokens := R.ReportedTokens(R.OnWire(R.NodeEmits(WholeAnswer(5, 256))));
            && InputTokens(req.messages) == 5
            && RequestPrice(cfg, req, tokens) == 5 + 5 + 256
            && RequestHold(cfg, req) == 5 + 256
            && RequestCharge(cfg, req, tokens, true) == 261
  {
    AnswerReportsBoth(5, 256);
    var message := Message("user", "");
    assert InputTokens([message]) == InputTokens([message][..0]) + MessageTokens(message);
  }

  /**
   * A node's answer is charged its whole price exactly when a cap stops the price at the hold, or input estimate,
   * prompt and completion together come to no more than the hold; an answer whose prompt and completion stay
   * within the default output tokens always is.
   */
  lemma {:induction false} NodeAnswerIsCovered(cfg: Config, req: ChatRequest, prompt: nat, eval: nat)
    requires var rates := PrepaidRates(cfg, req.model);
             && rates.per1K > 0
             && Fits(rates, InputTokens(req.messages), prompt + eval)
             && Fits(rates, InputTokens(req.messages), DefaultOutput(rates, req.maxTokens))
    ensures var rates := PrepaidRates(cfg, req.model);
            var tokens := R.ReportedTokens(R.OnWire(R.NodeEmits(WholeAnswer(prompt, eval))));
            var hold := RequestHold(cfg, req);
            && (RequestCharge(cfg, req, tokens, true) == RequestPrice(cfg, req, tokens)
                <==> || 0 < rates.maxAmount <= hold
                     || TokensOf(InputTokens(req.messages), prompt + eval) * rates.per1K <= 1000 * hold)
            && (prompt + eval <= DefaultOutput(rates, req.maxTokens)
                ==> RequestCharge(cfg, req, tokens, true) == RequestPrice(cfg, req, tokens))
  {
    var rates, input := PrepaidRates(cfg, req.model), InputTokens(req.messages);
    AnswerReportsBoth(prompt, eval);
    PriceRange(rates, input, prompt + eval);
    HoldCoversExactly(rates, input, req.maxTokens, prompt + eval);
    if prompt + eval <= DefaultOutput(rates, req.maxTokens) {
      HoldCoversExpectedAnswer(rates, input, req.maxTokens, prompt + eval);
    }
  }
}
