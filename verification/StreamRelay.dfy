/** Streamed answers: the node's relay of its backend, the gateway's failover, and the two composed. */
module StreamRelay {
  import opened Wrappers

  /**
   * An error message may carry a payment demand; only a demand that decodes can be passed on to the client.
   * Undecodable is the node's message for a backend stream it cannot decode.
   */
  datatype ErrorText = NoError | Plain(text: string) | Undecodable(reason: string) | PaymentDemand(relayable: bool)

  datatype BackendItem =
    | Chunk(model: string, content: string, promptEval: int, eval: int, done: bool)
    | Broken(reason: string)

  datatype WireChunk = WireChunk(
    model: string, content: string, tokensUsed: int, done: bool, ok: bool, error: ErrorText)

  // ---------------------------------------------------------------- the node

  /** A request is refused before its backend stream opens, or its backend items are relayed until EOF. */
  datatype NodeInput = Refused(error: ErrorText) | Streaming(items: seq<BackendItem>)

  function Failure(error: ErrorText): WireChunk {
    WireChunk("", "", 0, true, false, error)
  }

  const END_OF_STREAM := WireChunk("", "", 0, true, true, NoError)

  function Relayed(item: BackendItem): WireChunk
    requires item.Chunk?
  {
    WireChunk(item.model, item.content, item.promptEval + item.eval, item.done, true, NoError)
  }

  function NodeEmits(items: seq<BackendItem>): seq<WireChunk> {
    if items == [] then [END_OF_STREAM]
    else if items[0].Broken? then [Failure(Undecodable(items[0].reason))]
    else [Relayed(items[0])] + (if items[0].done then [] else NodeEmits(items[1..]))
  }

  /** Where the backend stream stops counting: at its first done or broken item, or at EOF. */
  function StopAt(items: seq<BackendItem>): (n: nat)
    ensures n <= |items|
    ensures n < |items| ==> items[n].Broken? || items[n].done
    ensures forall i :: 0 <= i < n ==> items[i].Chunk? && !items[i].done
  {
    if items == [] || items[0].Broken? || items[0].done then 0 else 1 + StopAt(items[1..])
  }

  predicate BreaksOff(items: seq<BackendItem>) {
    StopAt(items) < |items| && items[StopAt(items)].Broken?
  }

  /** The tokens a done item reports: prompt plus completion. */
  function BackendTokens(items: seq<BackendItem>): int {
    if StopAt(items) == |items| || BreaksOff(items) then 0
    else items[StopAt(items)].promptEval + items[StopAt(items)].eval
  }

  function Emission(input: NodeInput): seq<WireChunk> {
    if input.Refused? then [Failure(input.error)] else NodeEmits(input.items)
  }

  /** The items whose text the user should see. */
  function Shown(items: seq<BackendItem>): seq<BackendItem> {
    if StopAt(items) < |items| then items[..StopAt(items) + 1] else items
  }

  /** The backend produced something, did not break off, and all it produced could be written. */
  predicate Served(items: seq<BackendItem>, writable: nat) {
    items != [] && !BreaksOff(items) && |Shown(items)| <= writable
  }

  function Prefix<T>(xs: seq<T>, n: nat): seq<T> {
    if |xs| <= n then xs else xs[..n]
  }

  /**
   * The stream handler. Writes after the first `writable` ones fail: a chunk that cannot be written ends the
   * handler, a terminal message that cannot be written is dropped.
   */
  method ServeStream(input: NodeInput, writable: nat) returns (sent: seq<WireChunk>, tokensUsed: int, success: bool)
    ensures sent == Prefix(Emission(input), writable)
    ensures success <==> input.Streaming? && Served(input.items, writable)
    ensures success || |Emission(input)| <= writable
        ==> tokensUsed == if input.Streaming? then BackendTokens(input.items) else 0
  {
    sent, tokensUsed, success := [], 0, false;
    if input.Refused? {
      sent := Prefix([Failure(input.error)], writable);
      return;
    }
    sent, tokensUsed, success := RelayBackend(input.items, writable);
  }

  lemma {:induction false} Shift<T>(sent: seq<T>, next: T, rest: seq<T>)
    ensures sent + ([next] + rest) == (sent + [next]) + rest
  {
  }

  lemma {:induction false} StopsHere(items: seq<BackendItem>, i: nat)
    requires i <= |items| && forall k :: 0 <= k < i ==> items[k].Chunk? && !items[k].done
    requires i < |items| ==> items[i].Broken? || items[i].done
    ensures StopAt(items) == i
  {
  }

  lemma {:induction false} EmitsAt(items: seq<BackendItem>, i: nat)
    requires i <= |items|
    ensures NodeEmits(items[i..])
         == if i == |items| then [END_OF_STREAM]
            else if items[i].Broken? then [Failure(Undecodable(items[i].reason))]
            else [Relayed(items[i])] + (if items[i].done then [] else NodeEmits(items[i + 1..]))
  {
  }

  /** What has been written so far, and what is still to be written. */
  ghost predicate Emitted(items: seq<BackendItem>, i: nat, sent: seq<WireChunk>) {
    i <= |items| && |sent| == i && NodeEmits(items) == sent + NodeEmits(items[i..])
  }

  lemma {:induction false} EmitNext(items: seq<BackendItem>, i: nat, sent: seq<WireChunk>)
    requires Emitted(items, i, sent) && i < |items| && items[i].Chunk? && !items[i].done
    ensures Emitted(items, i + 1, sent + [Relayed(items[i])])
  {
    EmitsAt(items, i);
    Shift(sent, Relayed(items[i]), NodeEmits(items[i + 1..]));
  }

  /** The chunk loop of the stream handler. */
  method RelayBackend(items: seq<BackendItem>, writable: nat) returns (sent: seq<WireChunk>, tokensUsed: int,
          success: bool)
    ensures sent == Prefix(NodeEmits(items), writable)
    ensures success <==> Served(items, writable)
    ensures success || |NodeEmits(items)| <= writable ==> tokensUsed == BackendTokens(items)
  {
    sent, tokensUsed, success := [], 0, false;
    var gotFirst := false;
    var i := 0;
    assert items[0..] == items;
    while true
      invariant Emitted(items, i, sent)
      invariant i <= writable && gotFirst == (i > 0) && !success && tokensUsed == 0
      invariant forall k :: 0 <= k < i ==> items[k].Chunk? && !items[k].done
      decreases |items| - i
    {
      EmitsAt(items, i);
      if i == |items| {
        StopsHere(items, i);
        success := gotFirst;
        sent := if |sent| < writable then sent + [END_OF_STREAM] else sent;
        return;
      }
      if items[i].Broken? {
        StopsHere(items, i);
        var terminal := Failure(Undecodable(items[i].reason));
        sent := if |sent| < writable then sent + [terminal] else sent;
        return;
      }
      gotFirst := true;
      if |sent| == writable {
        return;
      }
      if items[i].done {
        StopsHere(items, i);
        sent := sent + [Relayed(items[i])];
        tokensUsed := items[i].promptEval + items[i].eval;
        success := true;
        return;
      }
      EmitNext(items, i, sent);
      sent := sent + [Relayed(items[i])];
      i := i + 1;
    }
  }

  /** Non-terminal ok chunks, then exactly one terminal chunk. */
  ghost predicate TerminatedOnce(out: seq<WireChunk>) {
    && out != [] && out[|out| - 1].done
    && forall i :: 0 <= i < |out| - 1 ==> out[i].ok && !out[i].done
  }

  lemma {:induction false} NodeTerminatesOnce(items: seq<BackendItem>)
    ensures TerminatedOnce(NodeEmits(items))
  {
    if items != [] && items[0].Chunk? && !items[0].done {
      NodeTerminatesOnce(items[1..]);
    }
  }

  /** Each backend item that does not end the stream is written as one chunk with its model, text and both counts. */
  lemma {:induction false} EmittedItemByItem(items: seq<BackendItem>, i: nat)
    requires i <= |items| && forall k :: 0 <= k < i ==> items[k].Chunk? && !items[k].done
    ensures i < |NodeEmits(items)|
    ensures i == |items| ==> NodeEmits(items)[i] == WireChunk("", "", 0, true, true, NoError)
    ensures i < |items| && items[i].Broken? ==>
              NodeEmits(items)[i] == WireChunk("", "", 0, true, false, Undecodable(items[i].reason))
    ensures i < |items| && items[i].Chunk? ==>
              var item := items[i];
              NodeEmits(items)[i]
              == WireChunk(item.model, item.content, item.promptEval + item.eval, item.done, true, NoError)
  {
    if i > 0 {
      EmittedItemByItem(items[1..], i - 1);
    }
  }

  /** What counts as served: every chunk up to the done one, or all there are before EOF, was written. */
  lemma {:induction false} ServedItemByItem(items: seq<BackendItem>, i: nat, writable: nat)
    requires i <= |items| && forall k :: 0 <= k < i ==> items[k].Chunk? && !items[k].done
    ensures i == |items| ==> (Served(items, writable) <==> 0 < i <= writable)
    ensures i < |items| && items[i].Broken? ==> !Served(items, writable)
    ensures i < |items| && items[i].Chunk? && items[i].done ==> (Served(items, writable) <==> i < writable)
  {
    if i == |items| || items[i].Broken? || items[i].done {
      StopsHere(items, i);
    }
  }

  lemma {:induction false} OneTerminalChunk(input: NodeInput)
    ensures TerminatedOnce(Emission(input))
  {
    if input.Streaming? {
      NodeTerminatesOnce(input.items);
    }
  }

  // ---------------------------------------------------------------- the gateway

  datatype WireItem = Got(chunk: WireChunk) | Garbled

  /** One try at a node: no stream, or a stream whose first chunk does or does not arrive in time, then EOF. */
  datatype Attempt = DialFailed(error: ErrorText) | Opened(stream: seq<WireItem>, firstInTime: bool)

  datatype Verdict = Pass | Pay | Commit

  function ErrorVerdict(error: ErrorText): Verdict {
    if error.PaymentDemand? && error.relayable then Pay else Pass
  }

  /** Whether a try is passed over, ends the request with a payment demand, or is committed to. */
  function Judge(a: Attempt): Verdict {
    if a.DialFailed? then ErrorVerdict(a.error)
    else if !a.firstInTime || a.stream == [] || a.stream[0].Garbled? then Pass
    else if !a.stream[0].chunk.ok then ErrorVerdict(a.stream[0].chunk.error)
    else Commit
  }

  datatype Sse = Data(node: nat, content: string, finish: bool) | DoneMark(node: nat)

  /** Everything the client is sent from a committed stream. */
  function Relay(node: nat, stream: seq<WireItem>): seq<Sse> {
    if stream == [] then [DoneMark(node)]
    else if stream[0].Garbled? || !stream[0].chunk.ok then []
    else
      var c := stream[0].chunk;
      [Data(node, c.content, c.done)] + (if c.done then [DoneMark(node)] else Relay(node, stream[1..]))
  }

  /** The stream ends in [DONE], and every event before it reaches the client. */
  predicate Delivered(node: nat, stream: seq<WireItem>, writable: nat) {
    DoneMark(node) in Relay(node, stream) && |Relay(node, stream)| - 1 <= writable
  }

  /** The tokens reported by the chunk that ended the stream, never negative; 0 if it ended without one. */
  function ReportedTokens(stream: seq<WireItem>): int {
    if stream == [] || stream[0].Garbled? || !stream[0].chunk.ok then 0
    else if stream[0].chunk.done then (if stream[0].chunk.tokensUsed < 0 then 0 else stream[0].chunk.tokensUsed)
    else ReportedTokens(stream[1..])
  }

  datatype Ending = PaymentRelayed(node: nat) | Committed(node: nat) | CannotStream(node: nat) | LocalFallback

  const MAX_REMOTE_RETRIES := 2

  /** The tries the gateway is allowed to make. */
  function Allowed(attempts: seq<Attempt>): seq<Attempt> {
    Prefix(attempts, MAX_REMOTE_RETRIES + 1)
  }

  /** The ending that the verdicts dictate: the first try that is not passed over decides. */
  ghost predicate Decided(attempts: seq<Attempt>, flusher: bool, ending: Ending) {
    match ending
    case LocalFallback => forall i :: 0 <= i < |Allowed(attempts)| ==> Judge(attempts[i]) == Pass
    case PaymentRelayed(k) => DecidedAt(attempts, k) && Judge(attempts[k]) == Pay
    case Committed(k) => DecidedAt(attempts, k) && Judge(attempts[k]) == Commit && flusher
    case CannotStream(k) => DecidedAt(attempts, k) && Judge(attempts[k]) == Commit && !flusher
  }

  ghost predicate DecidedAt(attempts: seq<Attempt>, k: nat) {
    k < |Allowed(attempts)| && forall i :: 0 <= i < k ==> Judge(attempts[i]) == Pass
  }

  /**
   * The streaming handler's loop over the ranked nodes. The client takes the first `writable` events; an event
   * that cannot be written ends the relay without success.
   */
  method StreamFromNodes(attempts: seq<Attempt>, flusher: bool, writable: nat)
    returns (ending: Ending, sent: seq<Sse>, completion: int, success: bool)
    ensures Decided(attempts, flusher, ending)
    ensures ending.Committed? ==> sent == Prefix(Relay(ending.node, attempts[ending.node].stream), writable)
    ensures ending.Committed? ==> (success <==> Delivered(ending.node, attempts[ending.node].stream, writable))
    ensures ending.Committed? && (success || |Relay(ending.node, attempts[ending.node].stream)| <= writable)
        ==> completion == ReportedTokens(attempts[ending.node].stream)
    ensures !ending.Committed? ==> sent == [] && completion == 0 && !success
  {
    sent, completion, success := [], 0, false;
    var i := 0;
    while i < |attempts|
      invariant 0 <= i <= |Allowed(attempts)|
      invariant forall j :: 0 <= j < i ==> Judge(attempts[j]) == Pass
    {
      if i > MAX_REMOTE_RETRIES {
        break;
      }
      match attempts[i] {
        case DialFailed(error) =>
          if error.PaymentDemand? && error.relayable {
            return PaymentRelayed(i), [], 0, false;
          }
        case Opened(stream, firstInTime) =>
          if firstInTime && stream != [] && stream[0].Got? {
            var first := stream[0].chunk;
            if first.ok {
              if !flusher {
                return CannotStream(i), [], 0, false;
              }
              ending := Committed(i);
              sent, completion, success := RelayCommitted(i, stream, writable);
              return;
            }
            if first.error.PaymentDemand? && first.error.relayable {
              return PaymentRelayed(i), [], 0, false;
            }
          }
      }
      i := i + 1;
    }
    ending := LocalFallback;
  }

  /** The decode loop of a committed stream. */
  method RelayCommitted(node: nat, stream: seq<WireItem>, writable: nat)
    returns (sent: seq<Sse>, completion: int, success: bool)
    ensures sent == Prefix(Relay(node, stream), writable)
    ensures success <==> Delivered(node, stream, writable)
    ensures success || |Relay(node, stream)| <= writable ==> completion == ReportedTokens(stream)
  {
    sent, completion, success := [], 0, false;
    var i := 0;
    assert stream[0..] == stream;
    while i < |stream|
      invariant SentSoFar(node, stream, i, sent)
      invariant i <= writable && completion == 0
    {
      RelayAt(node, stream, i);
      if stream[i].Garbled? || !stream[i].chunk.ok {
        return;
      }
      var c := stream[i].chunk;
      if |sent| == writable {
        completion := if c.done then (if c.tokensUsed < 0 then 0 else c.tokensUsed) else 0;
        return;
      }
      if c.done {
        completion := if c.tokensUsed < 0 then 0 else c.tokensUsed;
        sent := sent + [Data(node, c.content, true)];
        break;
      }
      SendNext(node, stream, i, sent);
      sent := sent + [Data(node, c.content, false)];
      i := i + 1;
    }
    success := true;
    sent := if |sent| < writable then sent + [DoneMark(node)] else sent;
  }

  lemma {:induction false} RelayAt(node: nat, stream: seq<WireItem>, i: nat)
    requires i < |stream|
    ensures stream[i].Garbled? || !stream[i].chunk.ok ==>
              Relay(node, stream[i..]) == [] && ReportedTokens(stream[i..]) == 0
    ensures stream[i].Got? && stream[i].chunk.ok ==>
              var c := stream[i].chunk;
              && Relay(node, stream[i..])
                 == [Data(node, c.content, c.done)]
                    + (if c.done then [DoneMark(node)] else Relay(node, stream[i + 1..]))
              && ReportedTokens(stream[i..])
                 == if c.done then (if c.tokensUsed < 0 then 0 else c.tokensUsed) else ReportedTokens(stream[i + 1..])
  {
  }

  /** The events sent so far, all of them data, and those that the rest of the stream still gives. */
  ghost predicate SentSoFar(node: nat, stream: seq<WireItem>, i: nat, sent: seq<Sse>) {
    && i <= |stream| && |sent| == i
    && Relay(node, stream) == sent + Relay(node, stream[i..])
    && ReportedTokens(stream) == ReportedTokens(stream[i..])
    && DoneMark(node) !in sent
  }

  lemma {:induction false} SendNext(node: nat, stream: seq<WireItem>, i: nat, sent: seq<Sse>)
    requires SentSoFar(node, stream, i, sent) && i < |stream|
    requires stream[i].Got? && stream[i].chunk.ok && !stream[i].chunk.done
    ensures SentSoFar(node, stream, i + 1, sent + [Data(node, stream[i].chunk.content, false)])
  {
    RelayAt(node, stream, i);
    Shift(sent, Data(node, stream[i].chunk.content, false), Relay(node, stream[i + 1..]));
  }

  /** The ending and the deciding node are determined by the verdicts alone. */
  lemma {:induction false} DecisionIsUnique(attempts: seq<Attempt>, flusher: bool, a: Ending, b: Ending)
    requires Decided(attempts, flusher, a) && Decided(attempts, flusher, b)
    ensures a == b
    ensures !a.LocalFallback? ==> a.node <= MAX_REMOTE_RETRIES
  {
  }

  /** Nodes after the deciding one have no influence: with other nodes in their place it decides all the same. */
  lemma {:induction false} LaterNodesDoNotMatter(attempts: seq<Attempt>, others: seq<Attempt>, flusher: bool,
          a: Ending, b: Ending)
    requires Decided(attempts, flusher, a) && !a.LocalFallback? && Decided(others, flusher, b)
    requires a.node < |others| && others[..a.node + 1] == attempts[..a.node + 1]
    ensures a == b && others[b.node] == attempts[a.node]
  {
    forall i | 0 <= i <= a.node ensures others[i] == attempts[i] {
      assert others[i] == others[..a.node + 1][i];
    }
    DecisionIsUnique(others, flusher, a, b);
  }

  /**
   * Up to three nodes are tried: the first that is not passed over decides by its own verdict, and the request is
   * left to the local backend exactly when the first three, or all there are, were passed over.
   */
  lemma {:induction false} FirstWillingNodeDecides(attempts: seq<Attempt>, flusher: bool, k: nat, ending: Ending)
    requires k < |attempts| && k <= 2 && forall i :: 0 <= i < k ==> Judge(attempts[i]) == Pass
    requires Judge(attempts[k]) != Pass && Decided(attempts, flusher, ending)
    ensures ending == if Judge(attempts[k]) == Pay then PaymentRelayed(k)
                      else if flusher then Committed(k) else CannotStream(k)
  {
    assert k < |Allowed(attempts)|;
    if !ending.LocalFallback? {
      assert ending.node <= k && k <= ending.node;
    }
  }

  lemma {:induction false} ThreeTriesAtMost(attempts: seq<Attempt>, flusher: bool, ending: Ending)
    requires Decided(attempts, flusher, ending)
    ensures !ending.LocalFallback? ==> ending.node <= 2 && ending.node < |attempts|
    ensures ending.LocalFallback? <==> forall i :: 0 <= i < |attempts| && i <= 2 ==> Judge(attempts[i]) == Pass
  {
  }

  /**
   * A node is passed over when it cannot be dialled, is late, ends or garbles before its first chunk, or reports
   * an error without a payment demand that can be passed on; such a demand ends the request; an ok chunk in time
   * commits to the node.
   */
  lemma {:induction false} Verdicts(rest: seq<WireItem>, chunk: WireChunk, error: ErrorText, stream: seq<WireItem>)
    ensures Judge(DialFailed(error)) == if error == PaymentDemand(true) then Pay else Pass
    ensures Judge(Opened(stream, false)) == Pass
    ensures Judge(Opened([], true)) == Pass && Judge(Opened([Garbled] + rest, true)) == Pass
    ensures chunk.ok ==> Judge(Opened([Got(chunk)] + rest, true)) == Commit
    ensures !chunk.ok ==>
              Judge(Opened([Got(chunk)] + rest, true)) == if chunk.error == PaymentDemand(true) then Pay else Pass
  {
  }

  /** The refusal that a node writes is the one that the gateway judges. */
  lemma {:induction false} RefusalsArrive(error: ErrorText)
    ensures Judge(Opened(OnWire(Emission(Refused(error))), true)) == if error == PaymentDemand(true) then Pay else Pass
  {
    Verdicts([], Failure(error), error, []);
    assert OnWire(Emission(Refused(error))) == [Got(Failure(error))] + [];
  }

  /** The first n items of a stream are ok chunks that do not end it. */
  predicate Flows(stream: seq<WireItem>, n: nat) {
    n <= |stream| && forall i :: 0 <= i < n ==> stream[i].Got? && stream[i].chunk.ok && !stream[i].chunk.done
  }

  function Texts(node: nat, stream: seq<WireItem>, n: nat): seq<Sse>
    requires Flows(stream, n)
  {
    seq(n, i requires 0 <= i < n => Data(node, stream[i].chunk.content, false))
  }

  /**
   * What the client is sent, item by item: the texts of the chunks in order; then, where the stream just ends,
   * [DONE]; where its last chunk comes, its text marked as the end and [DONE]; and else nothing more.
   */
  lemma {:induction false} RelayedItemByItem(node: nat, stream: seq<WireItem>, n: nat)
    requires Flows(stream, n)
    ensures n == |stream| ==> Relay(node, stream) == Texts(node, stream, n) + [DoneMark(node)]
    ensures n < |stream| && stream[n].Got? && stream[n].chunk.ok && stream[n].chunk.done ==>
              Relay(node, stream)
              == Texts(node, stream, n) + [Data(node, stream[n].chunk.content, true), DoneMark(node)]
    ensures n < |stream| && (stream[n].Garbled? || !stream[n].chunk.ok) ==>
              Relay(node, stream) == Texts(node, stream, n)
  {
    if n > 0 {
      var rest := stream[1..];
      assert forall i :: 0 <= i < n - 1 ==> rest[i] == stream[i + 1];
      RelayedItemByItem(node, rest, n - 1);
      assert Texts(node, stream, n) == [Data(node, stream[0].chunk.content, false)] + Texts(node, rest, n - 1);
    }
  }

  /** What counts as delivered: every text up to the last chunk's, or all there are before EOF, was written. */
  lemma {:induction false} DeliveredItemByItem(node: nat, stream: seq<WireItem>, n: nat, writable: nat)
    requires Flows(stream, n)
    ensures n == |stream| ==> (Delivered(node, stream, writable) <==> n <= writable)
    ensures n < |stream| && stream[n].Got? && stream[n].chunk.ok && stream[n].chunk.done ==>
              (Delivered(node, stream, writable) <==> n < writable)
    ensures n < |stream| && (stream[n].Garbled? || !stream[n].chunk.ok) ==> !Delivered(node, stream, writable)
  {
    RelayedItemByItem(node, stream, n);
    assert DoneMark(node) !in Texts(node, stream, n);
  }

  /** The tokens that are billed: those of the chunk that ends the stream, none if it just ends or breaks off. */
  lemma {:induction false} ReportedItemByItem(stream: seq<WireItem>, n: nat)
    requires Flows(stream, n)
    ensures n < |stream| && stream[n].Got? && stream[n].chunk.ok && stream[n].chunk.done ==>
              stream[n].chunk.tokensUsed >= 0 ==> ReportedTokens(stream) == stream[n].chunk.tokensUsed
    ensures n == |stream| || stream[n].Garbled? || !stream[n].chunk.ok ==> ReportedTokens(stream) == 0
    ensures ReportedTokens(stream) >= 0
  {
    if n > 0 {
      assert forall i :: 0 <= i < n - 1 ==> stream[1..][i] == stream[i + 1];
      ReportedItemByItem(stream[1..], n - 1);
    } else if |stream| > 0 && stream[0].Got? && stream[0].chunk.ok && !stream[0].chunk.done {
      ReportedItemByItem(stream[1..], 0);
    }
  }

  // ---------------------------------------------------------------- node and gateway together

  function OnWire(chunks: seq<WireChunk>): seq<WireItem> {
    if chunks == [] then [] else [Got(chunks[0])] + OnWire(chunks[1..])
  }

  function Contents(items: seq<BackendItem>): string {
    if items == [] then ""
    else (if items[0].Chunk? then items[0].content else "") + Contents(items[1..])
  }

  function ClientText(events: seq<Sse>): string {
    if events == [] then ""
    else (if events[0].Data? then events[0].content else "") + ClientText(events[1..])
  }

  /**
   * Over an intact connection the client's text is the backend's contents up to its first done chunk, its EOF
   * or its first decode error, and [DONE] is sent exactly when it was not a decode error.
   */
  lemma {:induction false} ClientSeesBackend(node: nat, items: seq<BackendItem>)
    ensures var events := Relay(node, OnWire(NodeEmits(items)));
            && ClientText(events) == Contents(Shown(items))
            && (DoneMark(node) in events <==> !BreaksOff(items))
  {
    if items != [] && items[0].Chunk? && !items[0].done {
      ClientSeesBackend(node, items[1..]);
      RelayOne(node, Relayed(items[0]), NodeEmits(items[1..]));
      ShownOne(items);
    } else {
      ClientSeesLastItem(node, items);
    }
  }

  lemma {:induction false} RelayOne(node: nat, chunk: WireChunk, rest: seq<WireChunk>)
    requires chunk.ok && !chunk.done
    ensures var events := Relay(node, OnWire([chunk] + rest));
            && ClientText(events) == chunk.content + ClientText(Relay(node, OnWire(rest)))
            && (DoneMark(node) in events <==> DoneMark(node) in Relay(node, OnWire(rest)))
  {
    assert ([chunk] + rest)[1..] == rest;
    var wire := OnWire([chunk] + rest);
    assert wire[1..] == OnWire(rest);
    assert Relay(node, wire)[1..] == Relay(node, OnWire(rest));
  }

  lemma {:induction false} ShownOne(items: seq<BackendItem>)
    requires items != [] && items[0].Chunk? && !items[0].done
    ensures Contents(Shown(items)) == items[0].content + Contents(Shown(items[1..]))
    ensures BreaksOff(items) == BreaksOff(items[1..])
  {
    assert Shown(items)[1..] == Shown(items[1..]);
  }

  lemma {:induction false} ClientSeesLastItem(node: nat, items: seq<BackendItem>)
    requires items == [] || items[0].Broken? || items[0].done
    ensures var events := Relay(node, OnWire(NodeEmits(items)));
            && ClientText(events) == Contents(Shown(items))
            && (DoneMark(node) in events <==> !BreaksOff(items))
  {
    var last := NodeEmits(items)[0];
    assert OnWire(NodeEmits(items)) == [Got(last)];
    if last.ok {
      assert Relay(node, [Got(last)]) == [Data(node, last.content, true), DoneMark(node)];
      assert [Data(node, last.content, true), DoneMark(node)][1..] == [DoneMark(node)];
      assert ClientText([DoneMark(node)]) == "";
    }
    if items != [] {
      assert Shown(items) == [items[0]];
      assert Contents([items[0]]) == if items[0].Chunk? then items[0].content else "";
    }
  }

  /** The tokens billed for an intact stream: prompt plus completion as its done item counts them. */
  lemma {:induction false} TokensAreBackends(items: seq<BackendItem>)
    ensures ReportedTokens(OnWire(NodeEmits(items))) == if BackendTokens(items) < 0 then 0 else BackendTokens(items)
  {
    assert OnWire(NodeEmits(items))[0] == Got(NodeEmits(items)[0]);
    if items != [] && items[0].Chunk? && !items[0].done {
      TokensAreBackends(items[1..]);
      assert NodeEmits(items)[1..] == NodeEmits(items[1..]);
      assert OnWire(NodeEmits(items))[1..] == OnWire(NodeEmits(items[1..]));
    }
  }

  /** Over an intact connection the gateway commits exactly when the backend did not start with an error. */
  lemma {:induction false} CommitsToWorkingNodes(input: NodeInput)
    ensures Judge(Opened(OnWire(Emission(input)), true)) == Commit
       <==> input.Streaming? && (input.items == [] || input.items[0].Chunk?)
  {
  }

  // ---------------------------------------------------------------- unary answers

  datatype Reply = Answer(content: string, tokens: int) | Error(error: ErrorText)

  datatype UnaryEnding = Answered(node: nat) | Demanded(node: nat) | NoRemote

  function JudgeReply(r: Reply): Verdict {
    if r.Answer? then Commit else ErrorVerdict(r.error)
  }

  ghost predicate ReplyDecided(replies: seq<Reply>, ending: UnaryEnding) {
    match ending
    case NoRemote => forall i :: 0 <= i < |Prefix(replies, MAX_REMOTE_RETRIES + 1)| ==> JudgeReply(replies[i]) == Pass
    case Answered(k) => ReplyDecidedAt(replies, k) && JudgeReply(replies[k]) == Commit
    case Demanded(k) => ReplyDecidedAt(replies, k) && JudgeReply(replies[k]) == Pay
  }

  ghost predicate ReplyDecidedAt(replies: seq<Reply>, k: nat) {
    k < |Prefix(replies, MAX_REMOTE_RETRIES + 1)| && forall i :: 0 <= i < k ==> JudgeReply(replies[i]) == Pass
  }

  /** The non-streaming handler's loop: tries in order, at most three, the first answer or payment demand decides. */
  method AnswerFromNodes(replies: seq<Reply>) returns (ending: UnaryEnding, completion: int, success: bool)
    ensures ReplyDecided(replies, ending)
    ensures success <==> ending.Answered?
    ensures ending.Answered? ==>
              completion == if replies[ending.node].tokens < 0 then 0 else replies[ending.node].tokens
    ensures !ending.Answered? ==> completion == 0
  {
    completion, success := 0, false;
    for i := 0 to |replies|
      invariant i <= |Prefix(replies, MAX_REMOTE_RETRIES + 1)|
      invariant forall j :: 0 <= j < i ==> JudgeReply(replies[j]) == Pass
    {
      if i > MAX_REMOTE_RETRIES {
        break;
      }
      match replies[i] {
        case Error(error) =>
          if error.PaymentDemand? && error.relayable {
            return Demanded(i), 0, false;
          }
        case Answer(_, tokens) =>
          completion := if tokens < 0 then 0 else tokens;
          return Answered(i), completion, true;
      }
    }
    ending := NoRemote;
  }

  /** The same for answers in one piece: the first of three that is not passed over decides. */
  lemma {:induction false} FirstReplyDecides(replies: seq<Reply>, k: nat, ending: UnaryEnding)
    requires k < |replies| && k <= 2 && forall i :: 0 <= i < k ==> JudgeReply(replies[i]) == Pass
    requires JudgeReply(replies[k]) != Pass && ReplyDecided(replies, ending)
    ensures ending == if replies[k].Answer? then Answered(k) else Demanded(k)
    ensures JudgeReply(replies[k]) == Pay <==> replies[k] == Error(PaymentDemand(true))
  {
    assert k < |Prefix(replies, MAX_REMOTE_RETRIES + 1)|;
    if !ending.NoRemote? {
      assert ending.node <= k && k <= ending.node;
    }
  }

  lemma {:induction false} ThreeRepliesAtMost(replies: seq<Reply>, ending: UnaryEnding)
    requires ReplyDecided(replies, ending)
    ensures !ending.NoRemote? ==> ending.node <= 2 && ending.node < |replies|
    ensures ending.NoRemote?
       <==> forall i :: 0 <= i < |replies| && i <= 2 ==> replies[i].Error? && replies[i].error != PaymentDemand(true)
  {
    if ending.NoRemote? {
      forall i | 0 <= i < |replies| && i <= 2 ensures JudgeReply(replies[i]) == Pass {
        assert i < |Prefix(replies, MAX_REMOTE_RETRIES + 1)|;
      }
    }
  }
}
