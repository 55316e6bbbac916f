/** The same request priced twice: by the gateway before, and by the node after, its translation to the wire. */
module WirePricing {
  import opened Wrappers
  import opened Text
  import opened Pricing
  import opened PaymentDebt

  /** The temperature is already printed. */
  datatype RemoteRequest = RemoteRequest(
    requestId: string, model: string, messages: seq<Message>, maxTokens: Option<int>, temperature: Option<string>,
    paymentSignature: string, resourceUrl: string)

  datatype WireRequest = WireRequest(
    requestId: string, model: string, messages: seq<Message>, params: map<string, string>)

  datatype NodeTariff = NodeTariff(base: NodeRates, perModel: map<string, Rates>)

  // ---------------------------------------------------------------- translation

  function WireParams(req: RemoteRequest): map<string, string> {
    var a: map<string, string> := if req.temperature.Some? then map["temperature" := req.temperature.value] else map[];
    var asked := req.maxTokens.Some? && req.maxTokens.value > 0;
    var b := if asked then a["max_tokens" := PrintNat(req.maxTokens.value)] else a;
    var signature, url := TrimSpace(req.paymentSignature), TrimSpace(req.resourceUrl);
    var c := if signature != "" then b["payment_signature" := signature] else b;
    if url != "" then c["x402_resource_url" := url] else c
  }

  /** A blank request id is replaced by one from the clock, in nanoseconds. */
  function WireId(req: RemoteRequest, nanos: nat): string {
    if TrimSpace(req.requestId) == "" then "req-" + PrintNat(nanos) else TrimSpace(req.requestId)
  }

  function ToWire(req: RemoteRequest, nanos: nat): WireRequest {
    WireRequest(WireId(req, nanos), req.model, req.messages, WireParams(req))
  }

  method Translate(req: RemoteRequest, nanos: nat) returns (wire: WireRequest)
    ensures wire == ToWire(req, nanos)
    ensures wire.requestId != ""
  {
    var requestId := TrimSpace(req.requestId);
    if requestId == "" {
      requestId := "req-" + PrintNat(nanos);
    }
    var messages := [];
    for i := 0 to |req.messages|
      invariant messages == req.messages[..i]
    {
      messages := messages + [Message(req.messages[i].role, req.messages[i].content)];
    }
    assert messages == req.messages;
    var params: map<string, string> := map[];
    if req.temperature.Some? {
      params := params["temperature" := req.temperature.value];
    }
    if req.maxTokens.Some? && req.maxTokens.value > 0 {
      params := params["max_tokens" := PrintNat(req.maxTokens.value)];
    }
    var signature := TrimSpace(req.paymentSignature);
    if signature != "" {
      params := params["payment_signature" := signature];
    }
    var url := TrimSpace(req.resourceUrl);
    if url != "" {
      params := params["x402_resource_url" := url];
    }
    wire := WireRequest(requestId, req.model, messages, params);
  }

  // ---------------------------------------------------------------- the two prices

  /** What the gateway asks for; None leaves the configured fixed amount. */
  function GatewayAmount(tariff: Tariff, req: RemoteRequest): Option<int> {
    var rates := Resolve(tariff, req.model);
    if rates.per1K <= 0 then None
    else
      var asked := if req.maxTokens.Some? && req.maxTokens.value > rates.defaultOutput && req.maxTokens.value > 0
                   then req.maxTokens.value else rates.defaultOutput;
      var amount := FloorAndCap(PerThousand(BilledTokens(InputTokens(req.messages), asked), rates.per1K), rates);
      Some(if amount < 1 then 1 else amount)
  }

  function NodeRatesFor(tariff: NodeTariff, model: string): NodeRates {
    var key := TrimSpace(model);
    if key == "" || key !in tariff.perModel then tariff.base
    else
      var m := tariff.perModel[key];
      NodeRates(
        Override(tariff.base.per1K, m.per1K), Override(tariff.base.minAmount, m.minAmount),
        Override(tariff.base.defaultOutput, m.defaultOutput))
  }

  /** max_tokens as the node reads it: anything that is not a positive 64-bit number is ignored. */
  function WireMaxTokens(params: map<string, string>): int {
    if "max_tokens" !in params || TrimSpace(params["max_tokens"]) == "" then 0
    else
      var parsed := ParseInt(TrimSpace(params["max_tokens"]));
      if parsed.Some? && parsed.value > 0 then parsed.value else 0
  }

  function NodeAmount(tariff: NodeTariff, wire: WireRequest): int {
    var rates := NodeRatesFor(tariff, wire.model);
    if rates.per1K <= 0 then 1
    else
      var wanted := WireMaxTokens(wire.params);
      var output := if wanted > 0 && wanted > rates.defaultOutput then wanted else rates.defaultOutput;
      var amount := PerThousand(BilledTokens(InputTokens(wire.messages), output), rates.per1K);
      var floored := if rates.minAmount > 0 && amount < rates.minAmount then rates.minAmount else amount;
      if floored < 1 then 1 else floored
  }

  /** The node's configuration with the gateway's figures; the node has no cap. */
  function NodeTariffOf(tariff: Tariff): NodeTariff {
    NodeTariff(NodeRates(tariff.base.per1K, tariff.base.minAmount, tariff.base.defaultOutput), tariff.perModel)
  }

  /** A request id travels without surrounding white space; a blank one is replaced by a stamp from the clock. */
  lemma {:induction false} IdsTravelTrimmed(req: RemoteRequest, nanos: nat)
    ensures var id := ToWire(req, nanos).requestId;
            if TrimSpace(req.requestId) != "" then id == TrimSpace(req.requestId)
            else |id| > 4 && id[..4] == "req-" && ParseInt(id[4..]) == if nanos <= MAX_INT64 then Some(nanos) else None
  {
    ParsePrinted(nanos);
    var printed := PrintNat(nanos);
    assert ("req-" + printed)[..4] == "req-" && ("req-" + printed)[4..] == printed;
  }

  /** A node without a rate asks for 1, and every node for at least 1. */
  lemma {:induction false} NodesAskSomething(tariff: NodeTariff, wire: WireRequest)
    ensures NodeRatesFor(tariff, wire.model).per1K <= 0 ==> NodeAmount(tariff, wire) == 1
    ensures NodeAmount(tariff, wire) >= 1
  {
  }

  /** The wire request carries each setting under its name when it has one, and nothing else. */
  lemma {:induction false} ParamsByName(req: RemoteRequest)
    ensures var params := WireParams(req);
            && params.Keys <= {"temperature", "max_tokens", "payment_signature", "x402_resource_url"}
            && ("temperature" in params <==> req.temperature.Some?)
            && ("payment_signature" in params <==> TrimSpace(req.paymentSignature) != "")
            && ("x402_resource_url" in params <==> TrimSpace(req.resourceUrl) != "")
            && (req.temperature.Some? ==> params["temperature"] == req.temperature.value)
            && (TrimSpace(req.paymentSignature) != "" ==>
                  params["payment_signature"] == TrimSpace(req.paymentSignature))
            && (TrimSpace(req.resourceUrl) != "" ==> params["x402_resource_url"] == TrimSpace(req.resourceUrl))
  {
    assert "max_tokens"[0] == 'm' && "temperature"[0] == 't';
    assert "payment_signature"[0] == 'p' && "x402_resource_url"[0] == 'x';
  }

  /** The gateway's quote is its price for the largest answer, at least 1; without a rate it has none. */
  lemma {:induction false} QuoteIsPriceOfLargestAnswer(tariff: Tariff, req: RemoteRequest, largest: int)
    requires var rates := Resolve(tariff, req.model);
             && largest >= rates.defaultOutput && (req.maxTokens.Some? ==> largest >= req.maxTokens.value)
             && (largest == rates.defaultOutput || req.maxTokens == Some(largest)) && largest > 0
    ensures var rates := Resolve(tariff, req.model);
            var price := Price(rates, InputTokens(req.messages), largest);
            GatewayAmount(tariff, req)
            == if rates.per1K <= 0 then None else Some(if price < 1 then 1 else price)
  {
  }

  /** The node prices the same way, without a cap, at its own rates for the model. */
  lemma {:induction false} NodeRatesResolve(tariff: NodeTariff, model: string)
    ensures var base := Rates(tariff.base.per1K, tariff.base.minAmount, 0, tariff.base.defaultOutput);
            var general := Tariff(base, tariff.perModel);
            var rates := Resolve(general, model);
            NodeRatesFor(tariff, model) == NodeRates(rates.per1K, rates.minAmount, rates.defaultOutput)
  {
  }

  lemma {:induction false} MaxTokensSurviveTheWire(req: RemoteRequest)
    requires req.maxTokens.Some? ==> req.maxTokens.value <= MAX_INT64
    ensures WireMaxTokens(WireParams(req))
         == if req.maxTokens.Some? && req.maxTokens.value > 0 then req.maxTokens.value else 0
  {
    if req.maxTokens.Some? && req.maxTokens.value > 0 {
      ParsePrinted(req.maxTokens.value);
    }
    ParamsKeepMaxTokens(req);
  }

  lemma {:induction false} ParamsKeepMaxTokens(req: RemoteRequest)
    ensures "max_tokens" in WireParams(req) <==> req.maxTokens.Some? && req.maxTokens.value > 0
    ensures "max_tokens" in WireParams(req) ==> WireParams(req)["max_tokens"] == PrintNat(req.maxTokens.value)
  {
  }

  /**
   * With the same figures on both sides the two prices agree, also where int64 wraps, exactly while the cap
   * does not bind.
   */
  lemma {:induction false} PricesAgreeAcrossTheWire(tariff: Tariff, req: RemoteRequest, nanos: nat)
    requires Resolve(tariff, req.model).per1K > 0
    requires req.maxTokens.Some? ==> req.maxTokens.value <= MAX_INT64
    ensures var wire := ToWire(req, nanos);
            var cap := Resolve(tariff, req.model).maxAmount;
            var node := NodeAmount(NodeTariffOf(tariff), wire);
            && GatewayAmount(tariff, req) == Some(if cap > 0 && node > cap then cap else node)
            && (GatewayAmount(tariff, req) == Some(node) <==> cap <= 0 || node <= cap)
  {
    MaxTokensSurviveTheWire(req);
  }
}
