/** The gateway's view of the network: a state machine over gossip messages, and the folds it refines. */
module NodeRegistry {
  import opened Wrappers
  import opened Order

  datatype PricingHint = PricingHint(per1K: int, minAmount: int, maxAmount: int, defaultOutput: int)

  /** Times are milliseconds; loads and rates are reals. */
  datatype NodeRecord = NodeRecord(
    nodeId: string,
    models: seq<string>,
    modelPricing: map<string, PricingHint>,
    hardware: string,
    location: string,
    pricing: string,
    lastSeen: int,
    uptimeSec: int,
    load: real,
    latencyMs: int,
    ttftMs: int,
    decodeTps: real)

  /** The three decoded message kinds; a payload that does not decode never reaches a record. */
  datatype Message =
    | HealthProto(nodeId: string, timestampMs: int, uptimeSec: int, load: real, latencyMs: int)
    | HealthJson(nodeId: string, timestampMs: int, uptimeSec: int, load: real, latencyMs: int, ttftMs: int,
                 decodeTps: real, models: seq<string>, modelPricing: map<string, PricingHint>)
    | Announce(nodeId: string, timestampMs: int, models: seq<string>, hardware: string, location: string,
               pricing: string)

  function Blank(id: string): NodeRecord {
    NodeRecord(id, [], map[], "", "", "", 0, 0, 0.0, 0, 0, 0.0)
  }

  /** The message's own time stamp, or the receiver's clock when it has none. */
  function Stamp(m: Message, now: int): int {
    if m.timestampMs > 0 then m.timestampMs else now
  }

  function Merge(rec: NodeRecord, m: Message, now: int): NodeRecord {
    match m
    case HealthProto(_, _, uptime, load, latency) =>
      rec.(lastSeen := Stamp(m, now), uptimeSec := uptime, load := load, latencyMs := latency)
    case HealthJson(_, _, uptime, load, latency, ttft, decode, models, pricing) =>
      rec.(lastSeen := Stamp(m, now), uptimeSec := uptime, load := load, latencyMs := latency,
           ttftMs := ttft, decodeTps := decode,
           models := if |models| > 0 then SortTexts(models) else rec.models,
           modelPricing := if |pricing| > 0 then pricing else rec.modelPricing)
    case Announce(_, _, models, hardware, location, pricing) =>
      rec.(lastSeen := Stamp(m, now), models := SortTexts(models), hardware := hardware, location := location,
           pricing := pricing)
  }

  type Nodes = map<string, NodeRecord>

  function Known(nodes: Nodes, id: string): NodeRecord {
    if id in nodes then nodes[id] else Blank(id)
  }

  function Receive(nodes: Nodes, m: Message, now: int): Nodes {
    if m.nodeId == "" then nodes else nodes[m.nodeId := Merge(Known(nodes, m.nodeId), m, now)]
  }

  function Prune(nodes: Nodes, cutoff: int): Nodes {
    map id | id in nodes && nodes[id].lastSeen >= cutoff :: nodes[id]
  }

  predicate ById(a: NodeRecord, b: NodeRecord) {
    TextLess(a.nodeId, b.nodeId)
  }

  /** A record is filed under its own id. */
  ghost predicate Filed(nodes: Nodes) {
    forall id <- nodes :: nodes[id].nodeId == id && id != ""
  }

  /** The records that satisfy a condition, in id order. */
  ghost predicate Lists(nodes: Nodes, keep: NodeRecord -> bool, out: seq<NodeRecord>) {
    && (forall rec :: rec in out <==> rec.nodeId in nodes && nodes[rec.nodeId] == rec && keep(rec))
    && (forall i, j :: 0 <= i < j < |out| ==> ById(out[i], out[j]))
  }

  function Anything(): NodeRecord -> bool {
    (rec: NodeRecord) => true
  }

  /** Exact match of a non-empty model name. */
  function Advertises(model: string): NodeRecord -> bool {
    (rec: NodeRecord) => model != "" && model in rec.models
  }

  class Registry {
    var nodes: Nodes
    const heartbeatMs: int
    const missedLimit: int

    constructor (heartbeat: int, limit: int)
      ensures nodes == map[]
      ensures heartbeatMs == (if heartbeat <= 0 then 30000 else heartbeat)
      ensures missedLimit == (if limit > 0 then limit else 3)
    {
      nodes := map[];
      heartbeatMs := if heartbeat <= 0 then 30000 else heartbeat;
      missedLimit := if limit > 0 then limit else 3;
    }

    /** None stands for a nil message. */
    method ApplyHealthProto(msg: Option<Message>, now: int) returns (ok: bool)
      requires msg.Some? ==> msg.value.HealthProto?
      modifies this
      ensures ok == (msg.Some? && msg.value.nodeId != "")
      ensures nodes == if msg.Some? then Receive(old(nodes), msg.value, now) else old(nodes)
    {
      if msg.None? || msg.value.nodeId == "" {
        return false;
      }
      var id := msg.value.nodeId;
      var ts := now;
      if msg.value.timestampMs > 0 {
        ts := msg.value.timestampMs;
      }
      var rec := if id in nodes then nodes[id] else Blank(id);
      rec := rec.(lastSeen := ts, uptimeSec := msg.value.uptimeSec);
      rec := rec.(load := msg.value.load, latencyMs := msg.value.latencyMs);
      nodes := nodes[id := rec];
      return true;
    }

    /** None stands for a payload that does not decode. */
    method ApplyHealthJSON(msg: Option<Message>, now: int) returns (ok: bool)
      requires msg.Some? ==> msg.value.HealthJson?
      modifies this
      ensures ok == (msg.Some? && msg.value.nodeId != "")
      ensures nodes == if msg.Some? then Receive(old(nodes), msg.value, now) else old(nodes)
    {
      if msg.None? || msg.value.nodeId == "" {
        return false;
      }
      var id := msg.value.nodeId;
      var ts := now;
      if msg.value.timestampMs > 0 {
        ts := msg.value.timestampMs;
      }
      var rec := if id in nodes then nodes[id] else Blank(id);
      rec := rec.(lastSeen := ts, uptimeSec := msg.value.uptimeSec);
      rec := rec.(load := msg.value.load, latencyMs := msg.value.latencyMs);
      rec := rec.(ttftMs := msg.value.ttftMs, decodeTps := msg.value.decodeTps);
      if |msg.value.models| > 0 {
        rec := rec.(models := SortTexts(msg.value.models));
      }
      if |msg.value.modelPricing| > 0 {
        rec := rec.(modelPricing := msg.value.modelPricing);
      }
      nodes := nodes[id := rec];
      return true;
    }

    /** None stands for a nil message. */
    method ApplyNodeAnnounceProto(msg: Option<Message>, now: int) returns (ok: bool)
      requires msg.Some? ==> msg.value.Announce?
      modifies this
      ensures ok == (msg.Some? && msg.value.nodeId != "")
      ensures nodes == if msg.Some? then Receive(old(nodes), msg.value, now) else old(nodes)
    {
      if msg.None? || msg.value.nodeId == "" {
        return false;
      }
      var id := msg.value.nodeId;
      var ts := now;
      if msg.value.timestampMs > 0 {
        ts := msg.value.timestampMs;
      }
      var rec := if id in nodes then nodes[id] else Blank(id);
      rec := rec.(lastSeen := ts, models := SortTexts(msg.value.models), hardware := msg.value.hardware);
      rec := rec.(location := msg.value.location, pricing := msg.value.pricing);
      nodes := nodes[id := rec];
      return true;
    }

    method PruneStale(now: int) returns (removed: nat)
      modifies this
      ensures nodes == Prune(old(nodes), now - heartbeatMs * missedLimit)
      ensures removed == |old(nodes)| - |nodes|
    {
      var cutoff := now - heartbeatMs * missedLimit;
      removed := 0;
      var todo := nodes.Keys;
      ghost var before := nodes;
      while todo != {}
        invariant todo <= nodes.Keys <= before.Keys
        invariant forall id <- nodes :: nodes[id] == before[id]
        invariant forall id <- before :: id in nodes <==> id in todo || before[id].lastSeen >= cutoff
        invariant removed + |nodes| == |before|
        decreases |todo|
      {
        var id :| id in todo;
        todo := todo - {id};
        if nodes[id].lastSeen < cutoff {
          assert (nodes - {id}).Keys == nodes.Keys - {id};
          nodes := nodes - {id};
          removed := removed + 1;
        }
      }
    }

    method List() returns (out: seq<NodeRecord>)
      requires Filed(nodes)
      ensures Lists(nodes, Anything(), out)
    {
      out := Collect(Anything());
    }

    method NodesForModel(model: string) returns (out: seq<NodeRecord>)
      requires Filed(nodes)
      ensures Lists(nodes, Advertises(model), out)
    {
      out := Collect(Advertises(model));
    }

    /** The loop over the map, in whatever order it yields its records, followed by the sort on node id. */
    method Collect(keep: NodeRecord -> bool) returns (out: seq<NodeRecord>)
      requires Filed(nodes)
      ensures Lists(nodes, keep, out)
    {
      out := [];
      var todo := nodes.Keys;
      while todo != {}
        invariant todo <= nodes.Keys
        invariant forall rec :: rec in out <==>
                    rec.nodeId in nodes && rec.nodeId !in todo && nodes[rec.nodeId] == rec && keep(rec)
        invariant forall i, j :: 0 <= i < j < |out| ==> out[i].nodeId != out[j].nodeId
        decreases |todo|
      {
        var id :| id in todo;
        todo := todo - {id};
        if keep(nodes[id]) {
          out := out + [nodes[id]];
        }
      }
      ghost var unsorted := out;
      out := Sort(ById, out);
      IdsOrder(unsorted);
      SortSorts(ById, unsorted);
      SameElements(out, unsorted);
      SortedIdsAscend(unsorted, out);
    }
  }

  /** On records with distinct ids, the order by id is a strict total order. */
  lemma {:induction false} IdsOrder(xs: seq<NodeRecord>)
    requires forall i, j :: 0 <= i < j < |xs| ==> xs[i].nodeId != xs[j].nodeId
    ensures Orders(ById, xs) && Distinct(xs)
  {
    forall a <- xs, b <- xs ensures !ById(a, a) && (a != b ==> ById(a, b) || ById(b, a)) {
      TextLessTotal(a.nodeId, b.nodeId);
      TextLessTotal(a.nodeId, a.nodeId);
    }
    forall a <- xs, b <- xs, c <- xs | ById(a, b) && ById(b, c) ensures ById(a, c) {
      TextLessTransitive(a.nodeId, b.nodeId, c.nodeId);
    }
  }

  lemma {:induction false} SortedIdsAscend(xs: seq<NodeRecord>, out: seq<NodeRecord>)
    requires Orders(ById, xs) && Distinct(xs) && IsSortOf(ById, xs, out)
    ensures forall i, j :: 0 <= i < j < |out| ==> ById(out[i], out[j])
  {
    DistinctPermutes(xs, out);
    SameElements(out, xs);
    forall i, j | 0 <= i < j < |out| ensures ById(out[i], out[j]) {
      assert out[i] in xs && out[j] in xs && out[i] != out[j];
    }
  }

  // ---------------------------------------------------------------- the listings

  function Select(keep: NodeRecord -> bool, xs: seq<NodeRecord>): seq<NodeRecord> {
    if xs == [] then []
    else Select(keep, xs[..|xs| - 1]) + (if keep(xs[|xs| - 1]) then [xs[|xs| - 1]] else [])
  }

  lemma {:induction false} SelectKeepsOrder(keep: NodeRecord -> bool, xs: seq<NodeRecord>)
    requires forall i, j :: 0 <= i < j < |xs| ==> ById(xs[i], xs[j])
    ensures forall rec :: rec in Select(keep, xs) <==> rec in xs && keep(rec)
    ensures forall i, j :: 0 <= i < j < |Select(keep, xs)| ==> ById(Select(keep, xs)[i], Select(keep, xs)[j])
  {
    if xs != [] {
      var n := |xs| - 1;
      SelectKeepsOrder(keep, xs[..n]);
      assert xs == xs[..n] + [xs[n]];
      forall rec <- Select(keep, xs[..n]) ensures ById(rec, xs[n]) {
        assert rec in xs[..n];
      }
    }
  }

  lemma {:induction false} AscendingUnique(xs: seq<NodeRecord>, ys: seq<NodeRecord>)
    requires forall i, j :: 0 <= i < j < |xs| ==> ById(xs[i], xs[j])
    requires forall i, j :: 0 <= i < j < |ys| ==> ById(ys[i], ys[j])
    requires forall rec :: rec in xs <==> rec in ys
    ensures xs == ys
  {
    forall a, b | ById(a, b) ensures a.nodeId != b.nodeId && !ById(b, a) {
      TextLessTotal(a.nodeId, b.nodeId);
    }
    IdsOrder(xs);
    SortUnique(ById, xs, ys);
  }

  /** NodesForModel is the sublist of List that advertises the model. */
  lemma {:induction false} ModelListIsSublist(nodes: Nodes, model: string, all: seq<NodeRecord>, some: seq<NodeRecord>)
    requires Lists(nodes, Anything(), all)
    requires Lists(nodes, Advertises(model), some)
    ensures some == Select(Advertises(model), all)
  {
    var keep := Advertises(model);
    SelectKeepsOrder(keep, all);
    assert forall rec :: rec in some <==> rec in all && keep(rec);
    AscendingUnique(some, Select(keep, all));
  }

  // ---------------------------------------------------------------- runs of messages and prunes

  datatype Event = Gossip(m: Message, now: int) | PruneAt(cutoff: int)

  function Step(nodes: Nodes, ev: Event): Nodes {
    match ev
    case Gossip(m, now) => Receive(nodes, m, now)
    case PruneAt(cutoff) => Prune(nodes, cutoff)
  }

  function After(events: seq<Event>): Nodes {
    if events == [] then map[] else Step(After(events[..|events| - 1]), events[|events| - 1])
  }

  datatype Heard = Heard(m: Message, now: int)

  /** A node's messages since it was last pruned: a prune forgets them if the last one is older than the cutoff. */
  function Life(events: seq<Event>, id: string): seq<Heard> {
    if events == [] then []
    else
      var before := Life(events[..|events| - 1], id);
      match events[|events| - 1]
      case Gossip(m, now) => if m.nodeId == id && id != "" then before + [Heard(m, now)] else before
      case PruneAt(cutoff) =>
        if before != [] && Stamp(before[|before| - 1].m, before[|before| - 1].now) < cutoff then [] else before
  }

  /** The last message of a kind. */
  function LastOf(life: seq<Heard>, kind: Message -> bool): (last: Option<Message>)
    ensures last.Some? ==> kind(last.value)
  {
    if life == [] then None
    else if kind(life[|life| - 1].m) then Some(life[|life| - 1].m)
    else LastOf(life[..|life| - 1], kind)
  }

  predicate IsHealth(m: Message) { !m.Announce? }
  predicate IsJson(m: Message) { m.HealthJson? }
  predicate IsAnnounce(m: Message) { m.Announce? }
  predicate ListsModels(m: Message) { m.Announce? || (m.HealthJson? && |m.models| > 0) }
  predicate ListsPricing(m: Message) { m.HealthJson? && |m.modelPricing| > 0 }

  /** What a record should say, read off the message history without any state. */
  function Summary(id: string, life: seq<Heard>): NodeRecord
    requires life != []
  {
    var last := life[|life| - 1];
    var health := LastOf(life, IsHealth);
    var json := LastOf(life, IsJson);
    var announce := LastOf(life, IsAnnounce);
    var listing := LastOf(life, ListsModels);
    var priced := LastOf(life, ListsPricing);
    NodeRecord(
      id,
      if listing.None? then [] else SortTexts(listing.value.models),
      if priced.None? then map[] else priced.value.modelPricing,
      if announce.None? then "" else announce.value.hardware,
      if announce.None? then "" else announce.value.location,
      if announce.None? then "" else announce.value.pricing,
      Stamp(last.m, last.now),
      if health.None? then 0 else health.value.uptimeSec,
      if health.None? then 0.0 else health.value.load,
      if health.None? then 0 else health.value.latencyMs,
      if json.None? then 0 else json.value.ttftMs,
      if json.None? then 0.0 else json.value.decodeTps)
  }

  lemma {:induction false} LastOfSnoc(life: seq<Heard>, h: Heard, kind: Message -> bool)
    ensures LastOf(life + [h], kind) == if kind(h.m) then Some(h.m) else LastOf(life, kind)
  {
  }

  lemma {:induction false} MergeSummarizes(id: string, life: seq<Heard>, m: Message, now: int)
    ensures Merge(if life == [] then Blank(id) else Summary(id, life), m, now) == Summary(id, life + [Heard(m, now)])
  {
    var h := Heard(m, now);
    LastOfSnoc(life, h, IsHealth);
    LastOfSnoc(life, h, IsJson);
    LastOfSnoc(life, h, IsAnnounce);
    LastOfSnoc(life, h, ListsModels);
    LastOfSnoc(life, h, ListsPricing);
  }

  /** The models are the sorted list of those in the last announce or non-empty health update, if any. */
  ghost predicate ModelsListed(life: seq<Heard>, models: seq<string>) {
    match LastOf(life, ListsModels)
    case None => models == []
    case Some(listing) => IsSortOf(TextLess, listing.models, models)
  }

  lemma {:induction false} SummaryListsModels(id: string, life: seq<Heard>)
    ensures life != [] ==> ModelsListed(life, Summary(id, life).models)
  {
    var listing := LastOf(life, ListsModels);
    if listing.Some? {
      TextsSort(listing.value.models);
    }
  }

  lemma {:induction false} RecordsAreSummaries(events: seq<Event>, id: string)
    ensures id in After(events) <==> Life(events, id) != []
    ensures id in After(events) ==> After(events)[id] == Summary(id, Life(events, id))
  {
    if events != [] {
      var before := events[..|events| - 1];
      RecordsAreSummaries(before, id);
      match events[|events| - 1]
      case Gossip(m, now) =>
        if m.nodeId == id {
          MergeSummarizes(id, Life(before, id), m, now);
        }
      case PruneAt(cutoff) =>
    }
  }

  /** A node is known exactly while it has messages since its last prune, and its record is their summary. */
  lemma {:induction false} RecordsSummarizeLives(events: seq<Event>, id: string)
    ensures id in After(events) <==> Life(events, id) != []
    ensures id in After(events) ==> After(events)[id] == Summary(id, Life(events, id))
    ensures id in After(events) ==> ModelsListed(Life(events, id), After(events)[id].models)
  {
    RecordsAreSummaries(events, id);
    SummaryListsModels(id, Life(events, id));
  }

  /** A message dates its sender's record by its own time stamp where it has one, and else by the receiver's clock. */
  lemma {:induction false} MessagesDateRecords(events: seq<Event>, m: Message, now: int)
    requires m.nodeId != ""
    ensures var nodes := After(events + [Gossip(m, now)]);
            m.nodeId in nodes && nodes[m.nodeId].lastSeen == if m.timestampMs > 0 then m.timestampMs else now
  {
    assert (events + [Gossip(m, now)])[..|events|] == events;
  }

  /** A prune keeps exactly the records last seen at the cutoff or later, unchanged. */
  lemma {:induction false} PrunesDropOldRecords(events: seq<Event>, cutoff: int, id: string)
    ensures var before, after := After(events), After(events + [PruneAt(cutoff)]);
            && (id in after <==> id in before && before[id].lastSeen >= cutoff)
            && (id in after ==> after[id] == before[id])
  {
    assert (events + [PruneAt(cutoff)])[..|events|] == events;
  }

  /** A record is listed for a model exactly when it carries that very name, and none for the empty name. */
  lemma {:induction false} ListedForItsModels(nodes: Nodes, model: string, out: seq<NodeRecord>, id: string)
    requires Filed(nodes) && Lists(nodes, Advertises(model), out) && id in nodes
    ensures nodes[id] in out <==> model != "" && exists i :: 0 <= i < |nodes[id].models| && nodes[id].models[i] == model
  {
  }

  lemma {:induction false} AfterFiled(events: seq<Event>)
    ensures Filed(After(events))
  {
    if events != [] {
      AfterFiled(events[..|events| - 1]);
    }
  }
}
