/** Provider-side debts: what a payer still owes when actual usage exceeds what was prepaid. */
module PaymentDebt {
  import opened Wrappers
  import opened Text
  import opened Pricing

  datatype NodeRates = NodeRates(per1K: int, minAmount: int, defaultOutput: int)

  datatype Session = Session(payer: string, priorDebt: int, prepaid: int, rates: NodeRates)

  type Debts = map<string, int>

  function Key(payer: string): string {
    ToLower(TrimSpace(payer))
  }

  function DebtOf(debts: Debts, payer: string): int {
    if Key(payer) != "" && Key(payer) in debts then debts[Key(payer)] else 0
  }

  /** A zero debt has no entry. */
  function WithDebt(debts: Debts, payer: string, debt: int): Debts {
    if Key(payer) == "" then debts
    else if debt <= 0 then debts - {Key(payer)}
    else debts[Key(payer) := debt]
  }

  function ActualDue(rates: NodeRates, tokensUsed: int): (due: int)
    ensures due >= 1
  {
    var tokens := if tokensUsed < 1 then 1 else tokensUsed;
    var amount := PerThousand(tokens, rates.per1K);
    var floored := if rates.minAmount > 0 && amount < rates.minAmount then rates.minAmount else amount;
    if floored < 1 then 1 else floored
  }

  /** The settlement of a session: what was owed when it was opened, plus what is due now, less what was prepaid. */
  function Reconcile(debts: Debts, session: Session, tokensUsed: int): Debts {
    if session.payer == "" || session.rates.per1K <= 0 then debts
    else WithDebt(debts, session.payer, session.priorDebt + ActualDue(session.rates, tokensUsed) - session.prepaid)
  }

  class DebtBook {
    var paymentDebtByPayer: Debts

    constructor ()
      ensures paymentDebtByPayer == map[]
    {
      paymentDebtByPayer := map[];
    }

    method GetPaymentDebt(payer: string) returns (debt: int)
      ensures debt == DebtOf(paymentDebtByPayer, payer)
    {
      var key := ToLower(TrimSpace(payer));
      if key == "" || key !in paymentDebtByPayer {
        return 0;
      }
      return paymentDebtByPayer[key];
    }

    method SetPaymentDebt(payer: string, debt: int)
      modifies this
      ensures paymentDebtByPayer == WithDebt(old(paymentDebtByPayer), payer, debt)
    {
      var key := ToLower(TrimSpace(payer));
      if key == "" {
        return;
      }
      if debt <= 0 {
        paymentDebtByPayer := paymentDebtByPayer - {key};
        return;
      }
      paymentDebtByPayer := paymentDebtByPayer[key := debt];
    }

    method ReconcileActualUsage(session: Session, tokensUsed: int)
      modifies this
      ensures paymentDebtByPayer == Reconcile(old(paymentDebtByPayer), session, tokensUsed)
    {
      if session.payer == "" || session.rates.per1K <= 0 {
        return;
      }
      var due := ActualDue(session.rates, tokensUsed);
      var outstanding := session.priorDebt + due - session.prepaid;
      if outstanding < 0 {
        outstanding := 0;
      }
      SetPaymentDebt(session.payer, outstanding);
    }
  }

  // ---------------------------------------------------------------- what is due

  /** The due amount is the ceiling of tokens, at least one, times rate over 1000, raised to the floor. */
  lemma {:induction false} DueIsCeiling(rates: NodeRates, tokens: int, n: int)
    requires rates.per1K > 0 && DueTokens(tokens) * rates.per1K + 999 < TWO_63
    requires IsCeiling(n, DueTokens(tokens) * rates.per1K)
    ensures ActualDue(rates, tokens) == if 0 < rates.minAmount && n < rates.minAmount then rates.minAmount else n
  {
    PerThousandIsCeiling(DueTokens(tokens), rates.per1K);
  }

  /** Without a floor it is that ceiling exactly while the sum fits 64 bits. */
  lemma {:induction false} DueIsCeilingExactly(rates: NodeRates, tokens: int)
    requires rates.per1K > 0 && rates.minAmount <= 0
    ensures IsCeiling(ActualDue(rates, tokens), DueTokens(tokens) * rates.per1K)
       <==> DueTokens(tokens) * rates.per1K + 999 < TWO_63
  {
    PerThousandIsCeiling(DueTokens(tokens), rates.per1K);
    ProductGrows(1, rates.per1K, DueTokens(tokens));
  }

  function DueTokens(tokens: int): int {
    if tokens < 1 then 1 else tokens
  }

  /** White space around a payer's address and the case of its letters make no difference, and nothing else does. */
  lemma {:induction false} PayersAreNormalized(payer: string, space: char)
    requires IsSpace(space)
    ensures Key([space] + payer) == Key(payer)
    ensures TrimSpace(payer) == payer ==> Key(payer) == ToLower(payer)
    ensures forall i :: 0 <= i < |payer| ==>
              ToLower(payer)[i] == if 'A' <= payer[i] <= 'Z' then payer[i] + ' ' else payer[i]
  {
    assert ([space] + payer)[1..] == payer;
  }

  // ---------------------------------------------------------------- runs of sessions

  /** A session opened with the payer's debt of the moment and settled before the payer's next one. */
  datatype Usage = Usage(payer: string, prepaid: int, rates: NodeRates, tokens: int)

  predicate Counts(u: Usage) {
    Key(u.payer) != "" && u.rates.per1K > 0
  }

  function Settle(debts: Debts, u: Usage): Debts {
    Reconcile(debts, Session(u.payer, DebtOf(debts, u.payer), u.prepaid, u.rates), u.tokens)
  }

  function SettleAll(usages: seq<Usage>): Debts {
    if usages == [] then map[] else Settle(SettleAll(usages[..|usages| - 1]), usages[|usages| - 1])
  }

  method SettleSession(book: DebtBook, u: Usage)
    modifies book
    ensures book.paymentDebtByPayer == Settle(old(book.paymentDebtByPayer), u)
  {
    var prior := book.GetPaymentDebt(u.payer);
    book.ReconcileActualUsage(Session(u.payer, prior, u.prepaid, u.rates), u.tokens);
  }

  /** What each session of one payer added to the debt: due minus prepaid. */
  function Shortfalls(usages: seq<Usage>, payer: string): seq<int> {
    if usages == [] then []
    else
      var u := usages[|usages| - 1];
      Shortfalls(usages[..|usages| - 1], payer)
      + (if Counts(u) && Key(u.payer) == Key(payer) then [ActualDue(u.rates, u.tokens) - u.prepaid] else [])
  }

  function Sum(xs: seq<int>): int {
    if xs == [] then 0 else Sum(xs[..|xs| - 1]) + xs[|xs| - 1]
  }

  function SuffixSum(xs: seq<int>, i: nat): int
    requires i <= |xs|
  {
    Sum(xs[i..])
  }

  /** The greatest sum of a suffix, the empty one included. */
  ghost predicate IsGreatestSuffixSum(xs: seq<int>, m: int) {
    && (exists i: nat :: i <= |xs| && SuffixSum(xs, i) == m)
    && (forall i: nat :: i <= |xs| ==> SuffixSum(xs, i) <= m)
  }

  lemma {:induction false} SuffixSumSnoc(xs: seq<int>, x: int, i: nat)
    requires i <= |xs|
    ensures SuffixSum(xs + [x], i) == SuffixSum(xs, i) + x
  {
    assert (xs + [x])[i..] == xs[i..] + [x];
    assert (xs[i..] + [x])[..|xs[i..]|] == xs[i..];
  }

  lemma {:induction false} EmptySuffix(xs: seq<int>)
    ensures SuffixSum(xs, |xs|) == 0
  {
  }

  lemma {:induction false} GreatestSuffixSnoc(xs: seq<int>, m: int, x: int)
    requires IsGreatestSuffixSum(xs, m)
    ensures IsGreatestSuffixSum(xs + [x], Add(m, x))
  {
    var longer := xs + [x];
    var i: nat :| i <= |xs| && SuffixSum(xs, i) == m;
    SuffixSumSnoc(xs, x, i);
    EmptySuffix(longer);
    forall j: nat | j <= |longer| ensures SuffixSum(longer, j) <= Add(m, x) {
      if j <= |xs| {
        SuffixSumSnoc(xs, x, j);
      }
    }
  }

  /** Adding to a debt, which never goes below zero. */
  function Add(debt: int, x: int): int {
    if debt + x > 0 then debt + x else 0
  }

  /** A settlement sets its own payer's debt and no other. */
  lemma {:induction false} ReconcileEffect(debts: Debts, session: Session, tokens: int, payer: string)
    ensures DebtOf(Reconcile(debts, session, tokens), payer)
         == if Key(session.payer) != "" && session.rates.per1K > 0 && Key(session.payer) == Key(payer)
            then Add(session.priorDebt, ActualDue(session.rates, tokens) - session.prepaid)
            else DebtOf(debts, payer)
  {
    assert session.payer == "" ==> Key(session.payer) == "";
  }

  lemma {:induction false} SettleEffect(debts: Debts, u: Usage, payer: string)
    ensures DebtOf(Settle(debts, u), payer)
         == if Counts(u) && Key(u.payer) == Key(payer)
            then Add(DebtOf(debts, payer), ActualDue(u.rates, u.tokens) - u.prepaid)
            else DebtOf(debts, payer)
  {
    ReconcileEffect(debts, Session(u.payer, DebtOf(debts, u.payer), u.prepaid, u.rates), u.tokens, payer);
  }

  /** The last session's shortfall, if it was the payer's, is what is added to the payer's debt. */
  lemma {:induction false} DebtMove(usages: seq<Usage>, payer: string) returns (x: Option<int>)
    requires usages != []
    ensures var before := usages[..|usages| - 1];
            var debt := DebtOf(SettleAll(before), payer);
            match x
            case None =>
              Shortfalls(usages, payer) == Shortfalls(before, payer) && DebtOf(SettleAll(usages), payer) == debt
            case Some(d) =>
              && Shortfalls(usages, payer) == Shortfalls(before, payer) + [d]
              && DebtOf(SettleAll(usages), payer) == Add(debt, d)
  {
    var u := usages[|usages| - 1];
    SettleEffect(SettleAll(usages[..|usages| - 1]), u, payer);
    x := if Counts(u) && Key(u.payer) == Key(payer) then Some(ActualDue(u.rates, u.tokens) - u.prepaid) else None;
  }

  /** A debt only depends on its payer's own sessions, and is their greatest suffix sum of shortfalls. */
  lemma {:induction false} DebtIsGreatestSuffixSum(usages: seq<Usage>, payer: string)
    ensures IsGreatestSuffixSum(Shortfalls(usages, payer), DebtOf(SettleAll(usages), payer))
  {
    if usages == [] {
      EmptySuffix([]);
    } else {
      var before := usages[..|usages| - 1];
      var xs := Shortfalls(before, payer);
      var debt := DebtOf(SettleAll(before), payer);
      DebtIsGreatestSuffixSum(before, payer);
      var x := DebtMove(usages, payer);
      if x.Some? {
        GreatestSuffixSnoc(xs, debt, x.value);
      }
    }
  }

  /** Nothing is lost to the provider: debt covers whatever the payer's prepayments did not. */
  lemma {:induction false} DebtCoversShortfall(usages: seq<Usage>, payer: string)
    ensures DebtOf(SettleAll(usages), payer) >= 0
    ensures DebtOf(SettleAll(usages), payer) >= Sum(Shortfalls(usages, payer))
  {
    DebtIsGreatestSuffixSum(usages, payer);
    var xs := Shortfalls(usages, payer);
    EmptySuffix(xs);
    assert xs[0..] == xs;
    assert SuffixSum(xs, 0) <= DebtOf(SettleAll(usages), payer);
    assert SuffixSum(xs, |xs|) <= DebtOf(SettleAll(usages), payer);
  }

  /** Prepaying the standing debt and the new due amount clears the debt. */
  lemma {:induction false} FullPrepaymentClears(debts: Debts, u: Usage)
    requires Counts(u) && u.prepaid >= DebtOf(debts, u.payer) + ActualDue(u.rates, u.tokens)
    ensures Key(u.payer) !in Settle(debts, u)
  {
  }

  // ---------------------------------------------------------------- overlapping sessions

  /** No lock spans a session: it is opened with the debt of that moment and settled at any later one. */
  datatype Visit =
    | Open(id: nat, payer: string, prepaid: int, rates: NodeRates)
    | Close(id: nat, tokens: int)

  datatype Desk = Desk(debts: Debts, open: map<nat, Session>)

  function Serve(d: Desk, ev: Visit): Desk {
    match ev
    case Open(id, payer, prepaid, rates) =>
      d.(open := d.open[id := Session(payer, DebtOf(d.debts, payer), prepaid, rates)])
    case Close(id, tokens) =>
      if id !in d.open then d else Desk(Reconcile(d.debts, d.open[id], tokens), d.open - {id})
  }

  function Visited(events: seq<Visit>): Desk {
    if events == [] then Desk(map[], map[]) else Serve(Visited(events[..|events| - 1]), events[|events| - 1])
  }

  /** The session that an event settles, with what was used. */
  function Settled(d: Desk, ev: Visit): seq<Usage> {
    if ev.Open? || ev.id !in d.open then []
    else [Usage(d.open[ev.id].payer, d.open[ev.id].prepaid, d.open[ev.id].rates, ev.tokens)]
  }

  /** The settled sessions in the order of their settlements. */
  function Usages(events: seq<Visit>): seq<Usage> {
    if events == [] then []
    else
      var before := events[..|events| - 1];
      Usages(before) + Settled(Visited(before), events[|events| - 1])
  }

  /** The payer's debt is, after every event, what sessions settled one at a time would have left. */
  predicate AsIfSerial(events: seq<Visit>, payer: string) {
    DebtOf(Visited(events).debts, payer) == DebtOf(SettleAll(Usages(events)), payer)
    && (events == [] || AsIfSerial(events[..|events| - 1], payer))
  }

  /** A settlement of the payer that starts from an outdated debt, and does not end at zero all the same. */
  predicate Overwrites(d: Desk, ev: Visit, payer: string) {
    var settled := Settled(d, ev);
    settled != [] && Counts(settled[0]) && Key(settled[0].payer) == Key(payer)
    && (var x := ActualDue(settled[0].rates, settled[0].tokens) - settled[0].prepaid;
        var prior, debt := d.open[ev.id].priorDebt, DebtOf(d.debts, payer);
        prior != debt && (prior + x > 0 || debt + x > 0))
  }

  predicate NothingOverwritten(events: seq<Visit>, payer: string) {
    events == [] || (
      var before := events[..|events| - 1];
      NothingOverwritten(before, payer) && !Overwrites(Visited(before), events[|events| - 1], payer))
  }

  lemma {:induction false} SettleAllSnoc(usages: seq<Usage>, u: Usage)
    ensures SettleAll(usages + [u]) == Settle(SettleAll(usages), u)
  {
    assert (usages + [u])[..|usages|] == usages;
  }

  /** While the debt is as if serial, an event keeps it so exactly when it does not overwrite. */
  lemma {:induction false} VisitKeepsSerial(d: Desk, usages: seq<Usage>, ev: Visit, payer: string)
    requires DebtOf(d.debts, payer) == DebtOf(SettleAll(usages), payer)
    ensures DebtOf(Serve(d, ev).debts, payer) == DebtOf(SettleAll(usages + Settled(d, ev)), payer)
       <==> !Overwrites(d, ev, payer)
  {
    if Settled(d, ev) == [] {
      assert usages + [] == usages;
    } else {
      var u := Settled(d, ev)[0];
      SettleAllSnoc(usages, u);
      SettleEffect(SettleAll(usages), u, payer);
      ReconcileEffect(d.debts, d.open[ev.id], ev.tokens, payer);
    }
  }

  /** Sessions may overlap: the debt is as if they did not exactly when no settlement overwrites a newer debt. */
  lemma {:induction false} SerialExactly(events: seq<Visit>, payer: string)
    ensures AsIfSerial(events, payer) <==> NothingOverwritten(events, payer)
  {
    if events != [] {
      var before := events[..|events| - 1];
      SerialExactly(before, payer);
      if AsIfSerial(before, payer) {
        VisitKeepsSerial(Visited(before), Usages(before), events[|events| - 1], payer);
      }
    }
  }

  /** Then the debt covers what the prepayments did not. */
  lemma {:induction false} DebtCoversUnlessOverwritten(events: seq<Visit>, payer: string)
    requires NothingOverwritten(events, payer)
    ensures DebtOf(Visited(events).debts, payer) >= Sum(Shortfalls(Usages(events), payer))
    ensures IsGreatestSuffixSum(Shortfalls(Usages(events), payer), DebtOf(Visited(events).debts, payer))
  {
    SerialExactly(events, payer);
    DebtCoversShortfall(Usages(events), payer);
    DebtIsGreatestSuffixSum(Usages(events), payer);
  }

  /** No session of the payer is opened while another one is open. */
  ghost predicate OneAtATime(events: seq<Visit>, payer: string) {
    events == [] || (
      var before := events[..|events| - 1];
      var ev := events[|events| - 1];
      && OneAtATime(before, payer)
      && (ev.Open? && Key(ev.payer) == Key(payer) ==>
            forall id <- Visited(before).open :: Key(Visited(before).open[id].payer) != Key(payer)))
  }

  /** An open session of the payer is the only one, and knows the debt. */
  ghost predicate UpToDate(d: Desk, payer: string) {
    forall id <- d.open | Key(d.open[id].payer) == Key(payer) ::
      && d.open[id].priorDebt == DebtOf(d.debts, payer)
      && forall other <- d.open | Key(d.open[other].payer) == Key(payer) :: other == id
  }

  lemma {:induction false} VisitKeepsUpToDate(d: Desk, ev: Visit, payer: string)
    requires UpToDate(d, payer)
    requires ev.Open? && Key(ev.payer) == Key(payer) ==> forall id <- d.open :: Key(d.open[id].payer) != Key(payer)
    ensures UpToDate(Serve(d, ev), payer) && !Overwrites(d, ev, payer)
  {
    if ev.Close? && ev.id in d.open {
      ReconcileEffect(d.debts, d.open[ev.id], ev.tokens, payer);
    }
  }

  /** One session at a time overwrites nothing. */
  lemma {:induction false} OneAtATimeOverwritesNothing(events: seq<Visit>, payer: string)
    requires OneAtATime(events, payer)
    ensures NothingOverwritten(events, payer) && UpToDate(Visited(events), payer)
  {
    if events != [] {
      OneAtATimeOverwritesNothing(events[..|events| - 1], payer);
      VisitKeepsUpToDate(Visited(events[..|events| - 1]), events[|events| - 1], payer);
    }
  }

  lemma {:induction false} VisitedSnoc(events: seq<Visit>, ev: Visit)
    ensures Visited(events + [ev]) == Serve(Visited(events), ev)
    ensures Usages(events + [ev]) == Usages(events) + Settled(Visited(events), ev)
  {
    assert (events + [ev])[..|events|] == events;
  }

  lemma {:induction false} SumSnoc(xs: seq<int>, x: int)
    ensures Sum(xs + [x]) == Sum(xs) + x
  {
    assert (xs + [x])[..|xs|] == xs;
  }

  lemma {:induction false} ShortfallsSnoc(usages: seq<Usage>, u: Usage, payer: string)
    requires Counts(u) && Key(u.payer) == Key(payer)
    ensures Sum(Shortfalls(usages + [u], payer))
         == Sum(Shortfalls(usages, payer)) + ActualDue(u.rates, u.tokens) - u.prepaid
  {
    assert (usages + [u])[..|usages|] == usages;
    SumSnoc(Shortfalls(usages, payer), ActualDue(u.rates, u.tokens) - u.prepaid);
  }

  /** Two overlapping sessions without prepayment leave only the debt of the second: the first amount due is lost. */
  lemma {:induction false} OverlapLosesDebt(payer: string, rates: NodeRates, first: int, second: int)
    requires Key(payer) != "" && rates.per1K > 0
    ensures var both := [Open(0, payer, 0, rates)] + [Open(1, payer, 0, rates)];
            var events := both + [Close(0, first)] + [Close(1, second)];
            && DebtOf(Visited(events).debts, payer) == ActualDue(rates, second)
            && Sum(Shortfalls(Usages(events), payer)) == ActualDue(rates, first) + ActualDue(rates, second)
            && DebtOf(Visited(events).debts, payer) < Sum(Shortfalls(Usages(events), payer))
  {
    var e1 := [Open(0, payer, 0, rates)];
    var e2 := e1 + [Open(1, payer, 0, rates)];
    var e3 := e2 + [Close(0, first)];
    VisitedSnoc([], Open(0, payer, 0, rates));
    assert [] + e1 == e1;
    VisitedSnoc(e1, Open(1, payer, 0, rates));
    VisitedSnoc(e2, Close(0, first));
    VisitedSnoc(e3, Close(1, second));
    var session := Session(payer, 0, 0, rates);
    assert Visited(e2).open[0] == session && Visited(e3).open[1] == session;
    ReconcileEffect(Visited(e3).debts, session, second, payer);
    var u, v := Usage(payer, 0, rates, first), Usage(payer, 0, rates, second);
    assert Usages(e3) == [u] && Usages(e3 + [Close(1, second)]) == [u] + [v];
    assert [] + [u] == [u];
    ShortfallsSnoc([], u, payer);
    ShortfallsSnoc([u], v, payer);
  }

  /** A payer's one session without prepayment leaves what was due as debt: its tokens at the rate, or the floor. */
  lemma {:induction false} UnpaidSessionOwesItsTokens(payer: string, rates: NodeRates, tokens: int, n: int)
    requires Key(payer) != "" && rates.per1K > 0 && DueTokens(tokens) * rates.per1K + 999 < TWO_63
    requires IsCeiling(n, DueTokens(tokens) * rates.per1K)
    ensures DebtOf(SettleAll([Usage(payer, 0, rates, tokens)]), payer)
         == if 0 < rates.minAmount && n < rates.minAmount then rates.minAmount else n
  {
    var u := Usage(payer, 0, rates, tokens);
    assert [] + [u] == [u];
    SettleAllSnoc([], u);
    SettleEffect(map[], u, payer);
    DueIsCeiling(rates, tokens, n);
  }
}
