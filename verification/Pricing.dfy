/** What the gateway charges for a chat request, in 64-bit integer arithmetic. */
module Pricing {
  import opened Wrappers
  import opened Text

  /** Strings count bytes here, as len does. */
  datatype Message = Message(role: string, content: string)
  datatype ChatRequest = ChatRequest(model: string, messages: seq<Message>, maxTokens: Option<int>)

  datatype Rates = Rates(per1K: int, minAmount: int, maxAmount: int, defaultOutput: int)
  datatype Tariff = Tariff(base: Rates, perModel: map<string, Rates>)

  const TWO_63: int := 0x8000_0000_0000_0000
  const TWO_64: int := 0x1_0000_0000_0000_0000
  const NO_RATES := Rates(0, 0, 0, 0)

  /** The value of an int64 expression whose exact value is x. */
  function Wrap64(x: int): (r: int)
    ensures -TWO_63 <= r < TWO_63
    ensures -TWO_63 <= x < TWO_63 ==> r == x
  {
    (x + TWO_63) % TWO_64 - TWO_63
  }

  /** Integer division rounding towards zero. */
  function TruncDiv(a: int, b: int): int
    requires b > 0
  {
    if a >= 0 then a / b else -(-a / b)
  }

  // ---------------------------------------------------------------- input tokens

  function MessageTokens(m: Message): nat {
    (|m.content| + 3) / 4 + (|m.role| + 3) / 4 + 4
  }

  function InputTokens(messages: seq<Message>): nat {
    if messages == [] then 0 else InputTokens(messages[..|messages| - 1]) + MessageTokens(messages[|messages| - 1])
  }

  /** A message costs a token for every four bytes begun of its content and of its role, and four more. */
  lemma {:induction false} MessageCosts(m: Message, content: int, role: int)
    requires 4 * content - 4 < |m.content| <= 4 * content
    requires 4 * role - 4 < |m.role| <= 4 * role
    ensures InputTokens([m]) == content + role + 4
  {
    assert [m][..0] == [];
  }

  /** The estimate of a conversation is the sum over its parts. */
  lemma {:induction false} EstimatesAdd(xs: seq<Message>, ys: seq<Message>)
    ensures InputTokens(xs + ys) == InputTokens(xs) + InputTokens(ys)
  {
    if ys == [] {
      assert xs + ys == xs;
    } else {
      EstimatesAdd(xs, ys[..|ys| - 1]);
      assert (xs + ys)[..|xs + ys| - 1] == xs + ys[..|ys| - 1];
    }
  }

  method EstimateInputTokens(messages: seq<Message>) returns (total: nat)
    ensures total == InputTokens(messages)
  {
    total := 0;
    for i := 0 to |messages|
      invariant total == InputTokens(messages[..i])
    {
      assert messages[..i + 1][..i] == messages[..i];
      var contentTokens := (|messages[i].content| + 3) / 4;
      var roleTokens := (|messages[i].role| + 3) / 4;
      total := total + contentTokens + roleTokens + 4;
    }
    assert messages[..|messages|] == messages;
  }

  // ---------------------------------------------------------------- rates

  function Override(base: int, given: int): int {
    if given > 0 then given else base
  }

  /** Per-model rates replace the base rates field by field, where they are positive. */
  function Resolve(tariff: Tariff, model: string): Rates {
    var key := TrimSpace(model);
    if key == "" || key !in tariff.perModel then tariff.base
    else
      var m := tariff.perModel[key];
      Rates(
        Override(tariff.base.per1K, m.per1K), Override(tariff.base.minAmount, m.minAmount),
        Override(tariff.base.maxAmount, m.maxAmount), Override(tariff.base.defaultOutput, m.defaultOutput))
  }

  /** The prepaid tariff if there is one, else the chat paywall's, else free. */
  datatype Config = Config(prepaid: Option<Tariff>, chat: Option<Tariff>)

  function PrepaidRates(cfg: Config, model: string): Rates {
    if cfg.prepaid.Some? then Resolve(cfg.prepaid.value, model)
    else if cfg.chat.Some? then Resolve(cfg.chat.value, model)
    else NO_RATES
  }

  /** A model's own rate counts where it is positive, and the general one where it is not or the model has none. */
  lemma {:induction false} ResolvedRates(tariff: Tariff, model: string)
    ensures var r, key := Resolve(tariff, model), TrimSpace(model);
            if key != "" && key in tariff.perModel
            then var own := tariff.perModel[key];
                 && (own.per1K > 0 ==> r.per1K == own.per1K)
                 && (own.per1K <= 0 ==> r.per1K == tariff.base.per1K)
                 && (own.minAmount > 0 ==> r.minAmount == own.minAmount)
                 && (own.minAmount <= 0 ==> r.minAmount == tariff.base.minAmount)
                 && (own.maxAmount > 0 ==> r.maxAmount == own.maxAmount)
                 && (own.maxAmount <= 0 ==> r.maxAmount == tariff.base.maxAmount)
                 && (own.defaultOutput > 0 ==> r.defaultOutput == own.defaultOutput)
                 && (own.defaultOutput <= 0 ==> r.defaultOutput == tariff.base.defaultOutput)
            else r == tariff.base
  {
  }

  // ---------------------------------------------------------------- price

  /** Thousands of tokens, rounded up, times the price: (tokens * per1K + 999) / 1000 as int64 computes it. */
  function PerThousand(tokens: int, per1K: int): int {
    TruncDiv(Wrap64(Wrap64(tokens * per1K) + 999), 1000)
  }

  function FloorAndCap(amount: int, rates: Rates): int {
    var floored := if rates.minAmount > 0 && amount < rates.minAmount then rates.minAmount else amount;
    if rates.maxAmount > 0 && floored > rates.maxAmount then rates.maxAmount else floored
  }

  function BilledTokens(input: int, completion: int): int {
    var total := Wrap64(input + (if completion < 0 then 0 else completion));
    if total < 1 then 1 else total
  }

  function Price(rates: Rates, input: int, completion: int): int {
    if rates.per1K <= 0 then 0
    else FloorAndCap(PerThousand(BilledTokens(input, completion), rates.per1K), rates)
  }

  function DefaultOutput(rates: Rates, maxTokens: Option<int>): (most: int)
    ensures most >= 1 && most >= rates.defaultOutput
    ensures maxTokens.Some? ==> most >= maxTokens.value
    ensures rates.defaultOutput <= 0 ==> most >= 256
    ensures maxTokens == Some(most) || most == rates.defaultOutput || (rates.defaultOutput <= 0 && most == 256)
  {
    var out := if rates.defaultOutput <= 0 then 256 else rates.defaultOutput;
    if maxTokens.Some? && maxTokens.value > out then maxTokens.value else out
  }

  /** The hold: the price of the largest expected answer, or 0.001 USDC when that is free. */
  function ReserveEstimate(rates: Rates, input: int, maxTokens: Option<int>): int {
    var charge := Price(rates, input, DefaultOutput(rates, maxTokens));
    if charge <= 0 then 1000 else charge
  }

  /** The tokens a price is meant to be for, without wrap-around. */
  function TokensOf(input: int, completion: int): int {
    if input + completion < 1 then 1 else input + completion
  }

  /** No intermediate value of the price computation leaves the int64 range. */
  predicate Fits(rates: Rates, input: int, completion: int) {
    0 <= input && input + completion < TWO_63 && TokensOf(input, completion) * rates.per1K + 999 < TWO_63
  }

  /** The prepaid tariff is used whatever the chat tariff is, the latter in its place, and without both chat is free. */
  lemma {:induction false} PrepaidTariffWins(tariff: Tariff, other: Option<Tariff>, model: string, input: int,
          completion: int)
    ensures PrepaidRates(Config(Some(tariff), other), model) == Resolve(tariff, model)
    ensures PrepaidRates(Config(None, Some(tariff)), model) == Resolve(tariff, model)
    ensures Price(PrepaidRates(Config(None, None), model), input, completion) == 0
  {
  }

  /** Nothing is charged at a rate that is not positive, and a negative completion counts as none. */
  lemma {:induction false} FreeAndNegative(rates: Rates, input: int, completion: int)
    ensures rates.per1K <= 0 ==> Price(rates, input, completion) == 0
    ensures completion < 0 ==> Price(rates, input, completion) == Price(rates, input, 0)
  {
  }

  lemma {:induction false} ProductGrows(a: int, b: int, p: int)
    requires 0 <= a <= b && p >= 0
    ensures 0 <= a * p <= b * p
  {
  }

  /** The least whole amount that is not below tokens * per1K / 1000. */
  predicate IsCeiling(n: int, product: int) {
    1000 * n >= product > 1000 * (n - 1)
  }

  /** The computed price per thousand is the ceiling exactly when tokens * per1K + 999 fits the int64 range. */
  lemma {:induction false} PerThousandIsCeiling(tokens: int, per1K: int)
    requires tokens >= 1 && per1K >= 1
    ensures IsCeiling(PerThousand(tokens, per1K), tokens * per1K) <==> tokens * per1K + 999 < TWO_63
    ensures tokens * per1K + 999 < TWO_63 ==> PerThousand(tokens, per1K) >= 1
  {
  }

  lemma {:induction false} CeilingGrows(a: int, b: int, per1K: int)
    requires 1 <= a <= b && per1K >= 1 && b * per1K + 999 < TWO_63
    ensures PerThousand(a, per1K) <= PerThousand(b, per1K)
  {
    ProductGrows(a, b, per1K);
    PerThousandIsCeiling(a, per1K);
    PerThousandIsCeiling(b, per1K);
  }

  /** More completion tokens never cost less, also when the merged cap is below the floor. */
  lemma {:induction false} PriceMonotone(rates: Rates, input: int, fewer: int, more: int)
    requires fewer <= more && more >= 0 && Fits(rates, input, more)
    ensures Price(rates, input, fewer) <= Price(rates, input, more)
  {
    if rates.per1K > 0 {
      CeilingGrows(BilledTokens(input, fewer), BilledTokens(input, more), rates.per1K);
    }
  }

  /**
   * Out of range the price does fall: ten tokens at 10^18 per thousand wrap to a negative amount, which costs the
   * floor where there is one.
   */
  lemma {:induction false} PriceCanFallOutOfRange()
    ensures var rates := Rates(1_000_000_000_000_000_000, 1000, 0, 256);
            && Price(rates, 0, 10) == 1000 < Price(rates, 0, 1) == 1_000_000_000_000_000 && !Fits(rates, 0, 10)
            && Price(rates.(minAmount := 0), 0, 10) == -8_446_744_073_709_550
  {
  }

  /**
   * The sum of tokens can wrap before it is priced: at the gateway's own default rates the largest completion
   * that a node can report costs the floor, less than the default 256 tokens; without a floor it costs one token.
   */
  lemma {:induction false} PriceCanCollapse()
    ensures var rates := Rates(10_000, 1000, 0, 256);
            && Price(rates, 8, MAX_INT64) == 1000 < Price(rates, 8, 256) == 2640 && !Fits(rates, 8, MAX_INT64)
    ensures var rates := Rates(1000, 0, 0, 0);
            && BilledTokens(8, MAX_INT64) == 1 == Price(rates, 8, MAX_INT64) && !Fits(rates, 8, MAX_INT64)
            && !IsCeiling(Price(rates, 8, MAX_INT64), TokensOf(8, MAX_INT64) * rates.per1K)
  {
  }

  predicate MonotoneUpTo(rates: Rates, input: int, more: int) {
    forall c, d :: 0 <= c <= d <= more ==> Price(rates, input, c) <= Price(rates, input, d)
  }

  /** Floor and cap leave a single price: the cap is not above the floor, or the floor above every 64-bit price. */
  predicate OnePrice(rates: Rates) {
    0 < rates.maxAmount <= rates.minAmount || 1000 * rates.minAmount >= TWO_63
  }

  /** Every shorter completion costs the floor. */
  predicate FloorBinds(rates: Rates, input: int, more: int) {
    forall c :: 0 <= c < more ==> Price(rates, input, c) == rates.minAmount
  }

  /**
   * The price grows with the completion up to some length exactly when that length is in range, or floor and cap
   * leave a single price, or the floor is the price of everything shorter.
   */
  lemma {:induction false} PriceMonotoneExactly(rates: Rates, input: int, more: int)
    requires 0 < rates.per1K < TWO_63 && more >= 0 && Fits(rates, input, 0)
    ensures MonotoneUpTo(rates, input, more)
       <==> Fits(rates, input, more) || OnePrice(rates) || FloorBinds(rates, input, more)
  {
    if OnePrice(rates) {
      forall c, d | 0 <= c <= d <= more ensures Price(rates, input, c) == Price(rates, input, d) {
        PerThousandBounded(BilledTokens(input, c), rates.per1K);
        PerThousandBounded(BilledTokens(input, d), rates.per1K);
      }
    } else if Fits(rates, input, more) {
      forall c, d | 0 <= c <= d <= more ensures Price(rates, input, c) <= Price(rates, input, d) {
        FitsFewer(rates, input, d, more);
        PriceMonotone(rates, input, c, d);
      }
    } else if FloorBinds(rates, input, more) {
      PriceRange(rates, input, 0);
      assert Price(rates, input, 0) == rates.minAmount;
      assert Price(rates, input, more) >= rates.minAmount;
    } else if LowFloor(rates) {
      var c := FirstOutOfRange(rates, input, more);
      PriceFalls(rates, input, c);
    } else {
      var c := FirstAboveFloor(rates, input, more);
      PriceFallsToFloor(rates, input, more, c);
    }
  }

  /** A floor below the price of the last 64-bit step. */
  predicate LowFloor(rates: Rates) {
    rates.minAmount <= 0 || 1000 * rates.minAmount < TWO_63 - rates.per1K - 1000
  }

  lemma {:induction false} FirstAboveFloor(rates: Rates, input: int, more: int) returns (c: int)
    requires rates.per1K > 0 && rates.minAmount > 0 && !OnePrice(rates) && !FloorBinds(rates, input, more)
    ensures 0 <= c < more && Price(rates, input, c) > rates.minAmount && FloorBinds(rates, input, c)
    decreases more
  {
    c :| 0 <= c < more && Price(rates, input, c) != rates.minAmount;
    if !FloorBinds(rates, input, c) {
      c := FirstAboveFloor(rates, input, c);
    }
  }

  /** Above a floor this high the very next token wraps, and costs the floor again. */
  lemma {:induction false} PriceFallsToFloor(rates: Rates, input: int, more: int, c: int)
    requires 0 < rates.per1K && !LowFloor(rates) && !OnePrice(rates)
    requires Fits(rates, input, 0) && !Fits(rates, input, more)
    requires 0 <= c < more && Price(rates, input, c) > rates.minAmount && FloorBinds(rates, input, c)
    ensures !MonotoneUpTo(rates, input, more)
  {
    ShortIsCheap(rates, input, c);
    var n := if input + c == 0 then 2 else c + 1;
    assert n <= more;
    if input + n < TWO_63 {
      FallsByProduct(rates, input, c, n);
    } else {
      FallsBySum(rates, input, c, n);
    }
    assert Price(rates, input, n) < Price(rates, input, c);
  }

  lemma {:induction false} FallsByProduct(rates: Rates, input: int, c: int, n: int)
    requires 0 < rates.per1K < TWO_63 && !LowFloor(rates) && !OnePrice(rates)
    requires input >= 0 && c >= 0 && n == (if input + c == 0 then 2 else c + 1) && input + n < TWO_63
    requires Price(rates, input, c) > rates.minAmount
    ensures Price(rates, input, n) == rates.minAmount
  {
    NextTokenWraps(rates, TokensOf(input, n) - 1);
  }

  lemma {:induction false} FallsBySum(rates: Rates, input: int, c: int, n: int)
    requires 0 < rates.per1K && !LowFloor(rates) && !OnePrice(rates) && Fits(rates, input, 0)
    requires 0 <= c && input + c < TWO_63 <= input + n && n == (if input + c == 0 then 2 else c + 1)
    requires FloorBinds(rates, input, c)
    ensures Price(rates, input, n) == rates.minAmount
  {
    var first := TokensOf(input, 0);
    assert c > 0 by {
      ProductGrows(1, rates.per1K, first);
    }
    assert BilledTokens(input, n) == 1;
    assert Price(rates, input, 0) == rates.minAmount;
    CeilingGrows(1, first, rates.per1K);
  }

  /** The first completion above the floor has no wrapped sum of tokens. */
  lemma {:induction false} ShortIsCheap(rates: Rates, input: int, c: int)
    requires 0 < rates.per1K && rates.minAmount > 0 && !OnePrice(rates) && Fits(rates, input, 0)
    requires 0 <= c && Price(rates, input, c) > rates.minAmount && FloorBinds(rates, input, c)
    ensures input + c < TWO_63
  {
    if input + c >= TWO_63 {
      var billed, first := BilledTokens(input, c), TokensOf(input, 0);
      ProductGrows(1, rates.per1K, first);
      assert Price(rates, input, 0) == rates.minAmount;
      if billed < first {
        CeilingGrows(billed, first, rates.per1K);
      } else {
        SamePrice(rates, input, billed - input, c);
      }
    }
  }

  lemma {:induction false} SamePrice(rates: Rates, input: int, c: int, d: int)
    requires BilledTokens(input, c) == BilledTokens(input, d)
    ensures Price(rates, input, c) == Price(rates, input, d)
  {
  }

  lemma {:induction false} NextTokenWraps(rates: Rates, tokens: int)
    requires 0 < rates.per1K < TWO_63 && rates.minAmount > 0 && tokens >= 1
    requires 1000 * rates.minAmount >= TWO_63 - rates.per1K - 1000
    requires PerThousand(tokens, rates.per1K) > rates.minAmount
    ensures PerThousand(tokens + 1, rates.per1K) <= 0
  {
    var product := tokens * rates.per1K;
    NextProduct(tokens, rates.per1K);
    PerThousandOf(tokens, rates.per1K, product);
    PerThousandOf(tokens + 1, rates.per1K, product + rates.per1K);
    SumWraps(product + 999, rates.per1K, rates.minAmount);
  }

  lemma {:induction false} NextProduct(tokens: int, per1K: int)
    ensures (tokens + 1) * per1K == tokens * per1K + per1K
  {
  }

  lemma {:induction false} PerThousandOf(tokens: int, per1K: int, product: int)
    requires product == tokens * per1K
    ensures PerThousand(tokens, per1K) == TruncDiv(Wrap64(product + 999), 1000)
  {
    WrapAdds(product, 999);
  }

  lemma {:induction false} SumWraps(sum: int, per1K: int, floor: int)
    requires 0 < per1K < TWO_63 && floor > 0 && 1000 * floor >= TWO_63 - per1K - 1000
    requires TruncDiv(Wrap64(sum), 1000) > floor
    ensures TruncDiv(Wrap64(sum + per1K), 1000) <= 0
  {
    WrapAdds(sum, per1K);
    var w := Wrap64(sum);
    assert w >= 1000 * (floor + 1);
    assert Wrap64(w + per1K) == w + per1K - TWO_64;
  }

  lemma {:induction false} WrapAdds(x: int, y: int)
    ensures Wrap64(Wrap64(x) + y) == Wrap64(x + y)
  {
  }

  lemma {:induction false} FirstOutOfRange(rates: Rates, input: int, more: int) returns (c: int)
    requires more >= 0 && Fits(rates, input, 0) && !Fits(rates, input, more)
    ensures 0 < c <= more && Fits(rates, input, c - 1) && !Fits(rates, input, c)
    decreases more
  {
    c := more;
    if !Fits(rates, input, more - 1) {
      c := FirstOutOfRange(rates, input, more - 1);
    }
  }

  lemma {:induction false} PriceFalls(rates: Rates, input: int, c: int)
    requires 0 < rates.per1K < TWO_63 && LowFloor(rates) && !OnePrice(rates)
    requires c > 0 && Fits(rates, input, c - 1) && !Fits(rates, input, c)
    ensures Price(rates, input, c) < Price(rates, input, c - 1)
  {
    var before, now := TokensOf(input, c - 1), TokensOf(input, c);
    assert now == before + 1;
    ProductGrows(1, before, rates.per1K);
    assert now * rates.per1K == before * rates.per1K + rates.per1K;
    if now == TWO_63 {
      ProductGrows(1, rates.per1K, before);
    }
    WrapsOnce(now, rates.per1K);
    PerThousandIsCeiling(before, rates.per1K);
  }

  lemma {:induction false} WrapsOnce(tokens: int, per1K: int)
    requires 1 <= tokens < TWO_63 && TWO_63 <= tokens * per1K + 999 < TWO_64
    ensures PerThousand(tokens, per1K) <= 0
  {
    assert Wrap64(tokens * per1K + 999) == tokens * per1K + 999 - TWO_64;
  }

  /** With a floor no price is below 1, in range or not. */
  lemma {:induction false} FlooredPriceIsPositive(rates: Rates, input: int, completion: int)
    requires rates.per1K > 0 && rates.minAmount > 0
    ensures Price(rates, input, completion) >= 1
  {
  }

  /** The price in range: at least 1, the cap is never exceeded, the floor holds unless the cap is lower. */
  lemma {:induction false} PriceRange(rates: Rates, input: int, completion: int)
    requires rates.per1K > 0 && completion >= 0 && Fits(rates, input, completion)
    ensures Price(rates, input, completion) >= 1
    ensures rates.maxAmount > 0 ==> Price(rates, input, completion) <= rates.maxAmount
    ensures rates.minAmount > 0 && (rates.maxAmount <= 0 || rates.minAmount <= rates.maxAmount)
        ==> Price(rates, input, completion) >= rates.minAmount
    ensures rates.maxAmount > 0 && rates.minAmount > rates.maxAmount
        ==> Price(rates, input, completion) == rates.maxAmount
  {
  }

  /** Without floor and cap the price is the ceiling of tokens times rate over 1000 exactly when it is in range. */
  lemma {:induction false} PriceIsCeiling(rates: Rates, input: int, completion: int)
    requires rates.per1K > 0 && rates.minAmount <= 0 && rates.maxAmount <= 0
    requires 0 <= input < TWO_63 && 0 <= completion < TWO_63
    ensures IsCeiling(Price(rates, input, completion), TokensOf(input, completion) * rates.per1K)
       <==> Fits(rates, input, completion)
  {
    PerThousandIsCeiling(BilledTokens(input, completion), rates.per1K);
    if input + completion >= TWO_63 {
      ProductGrows(TWO_63, TokensOf(input, completion), rates.per1K);
      ProductGrows(1, rates.per1K, TWO_63);
      PerThousandBounded(BilledTokens(input, completion), rates.per1K);
    }
  }

  /** No int64 amount is the ceiling of a product beyond the int64 range. */
  lemma {:induction false} PerThousandBounded(tokens: int, per1K: int)
    ensures 1000 * PerThousand(tokens, per1K) < TWO_63
  {
  }

  /** In range, floor and cap are applied to that ceiling. */
  lemma {:induction false} PriceIsClampedCeiling(rates: Rates, input: int, completion: int, n: int)
    requires rates.per1K > 0 && completion >= 0 && Fits(rates, input, completion)
    requires IsCeiling(n, TokensOf(input, completion) * rates.per1K)
    ensures Price(rates, input, completion) == FloorAndCap(n, rates)
    ensures rates.minAmount <= n && (rates.maxAmount <= 0 || n <= rates.maxAmount)
        ==> Price(rates, input, completion) == n
    ensures n < rates.minAmount && (rates.maxAmount <= 0 || rates.minAmount <= rates.maxAmount)
        ==> Price(rates, input, completion) == if rates.minAmount > 0 then rates.minAmount else n
    ensures 0 < rates.maxAmount < n || 0 < rates.maxAmount < rates.minAmount
        ==> Price(rates, input, completion) == rates.maxAmount
  {
    PerThousandIsCeiling(BilledTokens(input, completion), rates.per1K);
  }

  /** An answer no longer than expected is covered by its hold; the longest costs all of it unless it is free. */
  lemma {:induction false} HoldCoversExpectedAnswer(rates: Rates, input: int, maxTokens: Option<int>, completion: int)
    requires completion <= DefaultOutput(rates, maxTokens)
    requires Fits(rates, input, DefaultOutput(rates, maxTokens))
    ensures 0 <= Price(rates, input, completion) <= ReserveEstimate(rates, input, maxTokens)
    ensures rates.per1K > 0 && completion == DefaultOutput(rates, maxTokens)
        ==> Price(rates, input, completion) == ReserveEstimate(rates, input, maxTokens)
    ensures rates.per1K <= 0 ==> ReserveEstimate(rates, input, maxTokens) == 1000
  {
    var most := DefaultOutput(rates, maxTokens);
    PriceMonotone(rates, input, completion, most);
    if rates.per1K > 0 {
      var shown := if completion < 0 then 0 else completion;
      FitsFewer(rates, input, shown, most);
      PriceRange(rates, input, shown);
    }
  }

  /**
   * In general the hold covers an answer exactly when a cap stops the price at the hold, or the answer's tokens
   * come to no more than the hold at the rate per thousand.
   */
  lemma {:induction false} HoldCoversExactly(rates: Rates, input: int, maxTokens: Option<int>, completion: int)
    requires rates.per1K > 0 && completion >= 0
    requires Fits(rates, input, completion) && Fits(rates, input, DefaultOutput(rates, maxTokens))
    ensures var hold := ReserveEstimate(rates, input, maxTokens);
            (Price(rates, input, completion) <= hold
             <==> 0 < rates.maxAmount <= hold || TokensOf(input, completion) * rates.per1K <= 1000 * hold)
  {
    PriceRange(rates, input, completion);
    PriceRange(rates, input, DefaultOutput(rates, maxTokens));
    PerThousandIsCeiling(BilledTokens(input, completion), rates.per1K);
  }

  lemma {:induction false} FitsFewer(rates: Rates, input: int, fewer: int, more: int)
    requires 0 <= fewer <= more && Fits(rates, input, more) && rates.per1K > 0
    ensures Fits(rates, input, fewer)
  {
  }
}
