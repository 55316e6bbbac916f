/** The order in which the gateway tries the nodes that serve a model. */
module Ranking {
  import opened Wrappers
  import opened Order
  import opened NodeRegistry

  /** Load, time to first token, decode rate, latency, uptime, last seen, id: missing samples rank last. */
  predicate RankLess(a: NodeRecord, b: NodeRecord) {
    if a.load != b.load then a.load < b.load
    else
      var aHasTtft, bHasTtft := a.ttftMs > 0, b.ttftMs > 0;
      if aHasTtft != bHasTtft then aHasTtft
      else if aHasTtft && a.ttftMs != b.ttftMs then a.ttftMs < b.ttftMs
      else
        var aHasDecode, bHasDecode := a.decodeTps > 0.0, b.decodeTps > 0.0;
        if aHasDecode != bHasDecode then aHasDecode
        else if aHasDecode && a.decodeTps != b.decodeTps then a.decodeTps > b.decodeTps
        else if a.latencyMs != b.latencyMs then a.latencyMs < b.latencyMs
        else if a.uptimeSec != b.uptimeSec then a.uptimeSec > b.uptimeSec
        else if a.lastSeen != b.lastSeen then a.lastSeen > b.lastSeen
        else TextLess(a.nodeId, b.nodeId)
  }

  /** The comparator's levels above the id, smaller first; a missing sample outweighs every sample. */
  function Levels(a: NodeRecord): seq<real> {
    [
      a.load,
      if a.ttftMs > 0 then 0.0 else 1.0, if a.ttftMs > 0 then a.ttftMs as real else 0.0,
      if a.decodeTps > 0.0 then 0.0 else 1.0, if a.decodeTps > 0.0 then -a.decodeTps else 0.0,
      a.latencyMs as real, -(a.uptimeSec as real), -(a.lastSeen as real)
    ]
  }

  ghost predicate FirstDifferenceAt(xs: seq<real>, ys: seq<real>, k: nat) {
    k < |xs| == |ys| && xs[k] < ys[k] && forall j :: 0 <= j < k ==> xs[j] == ys[j]
  }

  /** The comparator is the lexicographic order of its levels, and of the ids where all levels agree. */
  lemma {:induction false} RankIsLexicographic(a: NodeRecord, b: NodeRecord)
    ensures RankLess(a, b) <==>
              || (exists k: nat :: FirstDifferenceAt(Levels(a), Levels(b), k))
              || (Levels(a) == Levels(b) && TextLess(a.nodeId, b.nodeId))
  {
    var xs, ys := Levels(a), Levels(b);
    if xs != ys {
      var k := FirstDifference(xs, ys);
      assert (k > 0 ==> xs[0] == ys[0]) && (k > 1 ==> xs[1] == ys[1]) && (k > 2 ==> xs[2] == ys[2])
        && (k > 3 ==> xs[3] == ys[3]) && (k > 4 ==> xs[4] == ys[4]) && (k > 5 ==> xs[5] == ys[5])
        && (k > 6 ==> xs[6] == ys[6]);
      assert RankLess(a, b) <==> xs[k] < ys[k];
    }
  }

  lemma {:induction false} FirstDifference(xs: seq<real>, ys: seq<real>) returns (k: nat)
    requires |xs| == |ys| && xs != ys
    ensures k < |xs| && xs[k] != ys[k] && forall j :: 0 <= j < k ==> xs[j] == ys[j]
    ensures (exists i: nat :: FirstDifferenceAt(xs, ys, i)) <==> xs[k] < ys[k]
  {
    k := 0;
    while xs[k] == ys[k]
      invariant k < |xs| && forall j :: 0 <= j < k ==> xs[j] == ys[j]
      decreases |xs| - k
    {
      assert k == |xs| - 1 ==> xs == ys;
      k := k + 1;
    }
    assert xs[k] < ys[k] ==> FirstDifferenceAt(xs, ys, k);
  }

  lemma {:induction false} RankTransitive(a: NodeRecord, b: NodeRecord, c: NodeRecord)
    requires RankLess(a, b) && RankLess(b, c)
    ensures RankLess(a, c)
  {
    if TextLess(a.nodeId, b.nodeId) && TextLess(b.nodeId, c.nodeId) {
      TextLessTransitive(a.nodeId, b.nodeId, c.nodeId);
    }
  }

  ghost predicate DistinctIds(xs: seq<NodeRecord>) {
    forall i, j :: 0 <= i < j < |xs| ==> xs[i].nodeId != xs[j].nodeId
  }

  /** On records with distinct ids the nine-level comparator is a strict total order. */
  lemma {:induction false} RankOrders(xs: seq<NodeRecord>)
    requires DistinctIds(xs)
    ensures Orders(RankLess, xs) && Distinct(xs)
  {
    forall a <- xs, b <- xs ensures !RankLess(a, a) && (a != b ==> RankLess(a, b) || RankLess(b, a)) {
      TextLessTotal(a.nodeId, b.nodeId);
      TextLessTotal(a.nodeId, a.nodeId);
    }
    forall a <- xs, b <- xs, c <- xs | RankLess(a, b) && RankLess(b, c) ensures RankLess(a, c) {
      RankTransitive(a, b, c);
    }
  }

  /** The nodes that advertise the model, best first. */
  ghost predicate IsRanking(nodes: Nodes, model: string, out: seq<NodeRecord>) {
    && (forall rec :: rec in out <==> rec.nodeId in nodes && nodes[rec.nodeId] == rec && Advertises(model)(rec))
    && DistinctIds(out)
    && Sorted(RankLess, out)
  }

  /** Whatever order the map is iterated in and however the slice is sorted, the ranking is the same. */
  lemma {:induction false} RankingIsUnique(nodes: Nodes, model: string, xs: seq<NodeRecord>, ys: seq<NodeRecord>)
    requires IsRanking(nodes, model, xs) && IsRanking(nodes, model, ys)
    ensures xs == ys
  {
    RankOrders(xs);
    RankOrders(ys);
    SortUnique(RankLess, xs, ys);
  }

  method RankedNodesForModel(reg: Registry, model: string) returns (out: seq<NodeRecord>)
    requires Filed(reg.nodes)
    ensures IsRanking(reg.nodes, model, out)
  {
    var listed := reg.NodesForModel(model);
    forall i, j | 0 <= i < j < |listed| ensures listed[i].nodeId != listed[j].nodeId {
      TextLessTotal(listed[i].nodeId, listed[j].nodeId);
    }
    out := Sort(RankLess, listed);
    RankOrders(listed);
    SortSorts(RankLess, listed);
    SameElements(out, listed);
    DistinctPermutes(listed, out);
    assert forall rec :: rec in out <==> rec in listed;
    IdsStayDistinct(listed, out);
  }

  lemma {:induction false} IdsStayDistinct(xs: seq<NodeRecord>, ys: seq<NodeRecord>)
    requires DistinctIds(xs) && Distinct(ys) && forall rec <- ys :: rec in xs
    ensures DistinctIds(ys)
  {
    forall i, j | 0 <= i < j < |ys| ensures ys[i].nodeId != ys[j].nodeId {
      assert ys[i] in xs && ys[j] in xs && ys[i] != ys[j];
    }
  }

  // ---------------------------------------------------------------- reordering by ping

  /** Durations are nanoseconds; None is a failed ping. */
  type Pings = string -> Option<int>

  datatype Candidate = Candidate(rec: NodeRecord, pingMs: int, hasPing: bool, fallback: int)

  function Probe(pings: Pings, rec: NodeRecord): Candidate {
    var d := pings(rec.nodeId);
    if d.Some? && d.value >= 0 then Candidate(rec, d.value / 1_000_000, true, rec.latencyMs)
    else Candidate(rec, rec.latencyMs, false, rec.latencyMs)
  }

  predicate PingLess(a: Candidate, b: Candidate) {
    if a.pingMs != b.pingMs then a.pingMs < b.pingMs
    else if a.hasPing != b.hasPing then a.hasPing
    else if a.fallback != b.fallback then a.fallback < b.fallback
    else TextLess(a.rec.nodeId, b.rec.nodeId)
  }

  /** The probed node with its latency replaced by the measured one. */
  function Measured(c: Candidate): NodeRecord {
    c.rec.(latencyMs := c.pingMs)
  }

  /** out lists exactly the probed input nodes, in ping order. */
  ghost predicate IsPingOrder(pings: Pings, nodes: seq<NodeRecord>, probed: seq<Candidate>) {
    && (forall c :: c in probed <==> c.rec in nodes && c == Probe(pings, c.rec))
    && Distinct(probed)
    && Sorted(PingLess, probed)
  }

  function MeasuredAll(probed: seq<Candidate>): seq<NodeRecord> {
    seq(|probed|, i requires 0 <= i < |probed| => Measured(probed[i]))
  }

  lemma {:induction false} PingOrders(probed: seq<Candidate>, nodes: seq<NodeRecord>)
    requires DistinctIds(nodes) && forall c <- probed :: c.rec in nodes
    requires forall c <- probed, d <- probed :: c.rec == d.rec ==> c == d
    ensures Orders(PingLess, probed)
  {
    forall a <- probed, b <- probed ensures !PingLess(a, a) && (a != b ==> PingLess(a, b) || PingLess(b, a)) {
      TextLessTotal(a.rec.nodeId, b.rec.nodeId);
      TextLessTotal(a.rec.nodeId, a.rec.nodeId);
    }
    forall a <- probed, b <- probed, c <- probed | PingLess(a, b) && PingLess(b, c) ensures PingLess(a, c) {
      if TextLess(a.rec.nodeId, b.rec.nodeId) && TextLess(b.rec.nodeId, c.rec.nodeId) {
        TextLessTransitive(a.rec.nodeId, b.rec.nodeId, c.rec.nodeId);
      }
    }
  }

  /** With fixed ping results the order depends on the set of nodes only, not on the order they came in. */
  lemma {:induction false} PingOrderIsUnique(pings: Pings, nodes: seq<NodeRecord>, others: seq<NodeRecord>,
          xs: seq<Candidate>, ys: seq<Candidate>)
    requires DistinctIds(nodes) && DistinctIds(others) && forall rec :: rec in nodes <==> rec in others
    requires IsPingOrder(pings, nodes, xs) && IsPingOrder(pings, others, ys)
    ensures MeasuredAll(xs) == MeasuredAll(ys)
  {
    PingOrders(xs, nodes);
    assert forall c :: c in xs <==> c in ys;
    SortUnique(PingLess, xs, ys);
  }

  // What the order means, from the ping results and the input nodes alone.

  predicate Answers(pings: Pings, rec: NodeRecord) {
    pings(rec.nodeId).Some? && pings(rec.nodeId).value >= 0
  }

  /** A node's reported latency: the whole milliseconds of its ping, or what it advertises when it did not answer. */
  predicate Reports(pings: Pings, rec: NodeRecord, out: NodeRecord) {
    && out.(latencyMs := rec.latencyMs) == rec
    && (Answers(pings, rec) ==>
          1_000_000 * out.latencyMs <= pings(rec.nodeId).value < 1_000_000 * (out.latencyMs + 1))
    && (!Answers(pings, rec) ==> out.latencyMs == rec.latencyMs)
  }

  /**
   * Reported latencies ascend; among equal ones the nodes that answered come first, then smaller advertised
   * latencies, then smaller ids.
   */
  predicate InOrder(pings: Pings, a: NodeRecord, b: NodeRecord, first: NodeRecord, second: NodeRecord) {
    && first.latencyMs <= second.latencyMs
    && (first.latencyMs == second.latencyMs ==>
          && (Answers(pings, b) ==> Answers(pings, a))
          && (Answers(pings, a) == Answers(pings, b) ==>
                && a.latencyMs <= b.latencyMs
                && (a.latencyMs == b.latencyMs ==> TextLess(a.nodeId, b.nodeId))))
  }

  /** The nodes with their reported latencies, every two of them in order. */
  ghost predicate FastestFirst(pings: Pings, sources: seq<NodeRecord>, out: seq<NodeRecord>) {
    && |out| == |sources|
    && (forall i :: 0 <= i < |out| ==> Reports(pings, sources[i], out[i]))
    && (forall i, j :: 0 <= i < j < |out| ==> InOrder(pings, sources[i], sources[j], out[i], out[j]))
  }

  /** The nodes behind the candidates. */
  function Sources(probed: seq<Candidate>): seq<NodeRecord> {
    seq(|probed|, i requires 0 <= i < |probed| => probed[i].rec)
  }

  lemma {:induction false} NotAfter(pings: Pings, a: NodeRecord, b: NodeRecord)
    requires a.nodeId != b.nodeId && !PingLess(Probe(pings, b), Probe(pings, a))
    ensures InOrder(pings, a, b, Measured(Probe(pings, a)), Measured(Probe(pings, b)))
  {
    TextLessTotal(a.nodeId, b.nodeId);
  }

  lemma {:induction false} ProbeReports(pings: Pings, rec: NodeRecord)
    ensures Reports(pings, rec, Measured(Probe(pings, rec)))
  {
  }

  lemma {:induction false} PingOrderMeans(pings: Pings, nodes: seq<NodeRecord>, probed: seq<Candidate>)
    requires DistinctIds(nodes) && IsPingOrder(pings, nodes, probed)
    ensures FastestFirst(pings, Sources(probed), MeasuredAll(probed))
    ensures forall rec :: rec in Sources(probed) <==> rec in nodes
    ensures DistinctIds(Sources(probed))
  {
    SourcesAreNodes(pings, nodes, probed);
    var sources, out := Sources(probed), MeasuredAll(probed);
    forall i | 0 <= i < |probed|
      ensures out[i] == Measured(Probe(pings, sources[i])) && Reports(pings, sources[i], out[i])
    {
      assert probed[i] in probed;
      ProbeReports(pings, sources[i]);
    }
    forall i, j | 0 <= i < j < |probed|
      ensures sources[i].nodeId != sources[j].nodeId && InOrder(pings, sources[i], sources[j], out[i], out[j])
    {
      assert probed[i] in probed && probed[j] in probed;
      assert probed[i] == Probe(pings, sources[i]) && probed[j] == Probe(pings, sources[j]);
      assert sources[i] in nodes && sources[j] in nodes;
      SameIdSameNode(nodes, sources[i], sources[j]);
      NotAfter(pings, sources[i], sources[j]);
    }
  }

  lemma {:induction false} SourcesAreNodes(pings: Pings, nodes: seq<NodeRecord>, probed: seq<Candidate>)
    requires IsPingOrder(pings, nodes, probed)
    ensures forall rec :: rec in Sources(probed) <==> rec in nodes
  {
    forall rec ensures rec in Sources(probed) <==> rec in nodes {
      if rec in nodes {
        assert Probe(pings, rec) in probed;
        var i :| 0 <= i < |probed| && probed[i] == Probe(pings, rec);
        assert Sources(probed)[i] == rec;
      }
      if rec in Sources(probed) {
        var i :| 0 <= i < |probed| && Sources(probed)[i] == rec;
        assert probed[i] in probed;
      }
    }
  }

  lemma {:induction false} SameIdSameNode(nodes: seq<NodeRecord>, a: NodeRecord, b: NodeRecord)
    requires DistinctIds(nodes) && a in nodes && b in nodes
    ensures a.nodeId == b.nodeId ==> a == b
  {
  }

  method ProbeAll(pings: Pings, nodes: seq<NodeRecord>) returns (candidates: seq<Candidate>)
    ensures |candidates| == |nodes| && forall k :: 0 <= k < |nodes| ==> candidates[k] == Probe(pings, nodes[k])
  {
    candidates := [];
    for i := 0 to |nodes|
      invariant |candidates| == i
      invariant forall k :: 0 <= k < i ==> candidates[k] == Probe(pings, nodes[k])
    {
      var c := Candidate(nodes[i], nodes[i].latencyMs, false, nodes[i].latencyMs);
      var d := pings(nodes[i].nodeId);
      if d.Some? && d.value >= 0 {
        c := c.(pingMs := d.value / 1_000_000, hasPing := true);
      }
      candidates := candidates + [c];
    }
  }

  method ReorderNodesByPing(pings: Option<Pings>, nodes: seq<NodeRecord>) returns (out: seq<NodeRecord>,
          ghost probed: seq<Candidate>)
    requires DistinctIds(nodes)
    ensures pings.None? || |nodes| < 2 ==> out == nodes
    ensures pings.Some? && |nodes| >= 2 ==> IsPingOrder(pings.value, nodes, probed) && out == MeasuredAll(probed)
    ensures pings.Some? && |nodes| >= 2 ==>
              && FastestFirst(pings.value, Sources(probed), out)
              && (forall rec :: rec in Sources(probed) <==> rec in nodes) && DistinctIds(Sources(probed))
  {
    probed := [];
    if pings.None? || |nodes| < 2 {
      return nodes, [];
    }
    var candidates := ProbeAll(pings.value, nodes);
    var sorted := Sort(PingLess, candidates);
    SortedCandidates(pings.value, nodes, candidates);
    probed := sorted;
    PingOrderMeans(pings.value, nodes, probed);
    out := TakeMeasured(sorted);
  }

  method TakeMeasured(sorted: seq<Candidate>) returns (out: seq<NodeRecord>)
    ensures out == MeasuredAll(sorted)
  {
    out := [];
    for i := 0 to |sorted|
      invariant |out| == i
      invariant forall k :: 0 <= k < i ==> out[k] == Measured(sorted[k])
    {
      out := out + [sorted[i].rec.(latencyMs := sorted[i].pingMs)];
    }
  }

  lemma {:induction false} SortedCandidates(pings: Pings, nodes: seq<NodeRecord>, candidates: seq<Candidate>)
    requires DistinctIds(nodes) && |candidates| == |nodes|
    requires forall k :: 0 <= k < |nodes| ==> candidates[k] == Probe(pings, nodes[k])
    ensures IsPingOrder(pings, nodes, Sort(PingLess, candidates))
  {
    var sorted := Sort(PingLess, candidates);
    PingOrders(candidates, nodes);
    SortSorts(PingLess, candidates);
    SameElements(sorted, candidates);
    DistinctPermutes(candidates, sorted);
    forall c ensures c in sorted <==> c.rec in nodes && c == Probe(pings, c.rec) {
      ProbedOf(pings, nodes, candidates, c);
    }
  }

  lemma {:induction false} ProbedOf(pings: Pings, nodes: seq<NodeRecord>, candidates: seq<Candidate>, c: Candidate)
    requires |candidates| == |nodes|
    requires forall k :: 0 <= k < |nodes| ==> candidates[k] == Probe(pings, nodes[k])
    ensures c in candidates <==> c.rec in nodes && c == Probe(pings, c.rec)
  {
  }
}
