/** Connection counting and debounced logging of peers coming and going. */
module PeerLifecycle {

  type Peer = string

  /** Milliseconds: a peer is reported gone, or back, only after this long without connections. */
  const DEBOUNCE := 10_000

  datatype Report = Connected | Disconnected
  datatype Line = Line(peer: Peer, report: Report)

  /** counts has no zero entries; timers maps a peer with a pending timer to its deadline. */
  datatype State = State(
    counts: map<Peer, nat>,
    gone: map<Peer, int>,
    timers: map<Peer, int>,
    logged: set<Peer>,
    lines: seq<Line>)

  datatype Event =
    | Connect(peer: Peer, at: int)
    | Disconnect(peer: Peer, at: int)
    | Fire(peer: Peer, at: int)
    | Observe(peer: Peer, at: int)

  function Count(s: State, p: Peer): nat {
    if p in s.counts then s.counts[p] else 0
  }

  predicate ShouldLog(bootstraps: set<Peer>, s: State, p: Peer) {
    p in bootstraps || p in s.logged
  }

  /** Whether a first connection counts as a return worth reporting. */
  predicate LongGone(s: State, p: Peer, at: int) {
    p !in s.gone || at - s.gone[p] >= DEBOUNCE
  }

  function Step(bootstraps: set<Peer>, s: State, ev: Event): State {
    var p := ev.peer;
    match ev
    case Connect(_, at) =>
      var back := Count(s, p) == 0 && LongGone(s, p, at) && ShouldLog(bootstraps, s, p);
      var report := if back then [Line(p, Connected)] else [];
      State(
        s.counts[p := Count(s, p) + 1],
        if Count(s, p) == 0 then s.gone - {p} else s.gone,
        s.timers - {p}, s.logged, s.lines + report)
    case Disconnect(_, at) =>
      if Count(s, p) <= 1 then
        s.(counts := s.counts - {p}, gone := s.gone[p := at], timers := s.timers[p := at + DEBOUNCE])
      else s.(counts := s.counts[p := Count(s, p) - 1])
    case Fire(_, at) =>
      if Count(s, p) > 0 then s
      else
        var report := if ShouldLog(bootstraps, s, p) then [Line(p, Disconnected)] else [];
        s.(timers := s.timers - {p}, lines := s.lines + report)
    case Observe(_, _) => s.(logged := s.logged + {p})
  }

  const INITIAL := State(map[], map[], map[], {}, [])

  function After(bootstraps: set<Peer>, events: seq<Event>): State {
    if events == [] then INITIAL else Step(bootstraps, After(bootstraps, events[..|events| - 1]), events[|events| - 1])
  }

  class Runtime {
    const bootstraps: set<Peer>
    var peerConnCount: map<Peer, nat>
    var peerLastGone: map<Peer, int>
    var peerDisconTmr: map<Peer, int>
    var peerLogged: set<Peer>
    var lines: seq<Line>

    function Contents(): State
      reads this
    {
      State(peerConnCount, peerLastGone, peerDisconTmr, peerLogged, lines)
    }

    constructor (bootstraps: set<Peer>)
      ensures this.bootstraps == bootstraps && Contents() == INITIAL
    {
      this.bootstraps := bootstraps;
      peerConnCount, peerLastGone, peerDisconTmr, peerLogged, lines := map[], map[], map[], {}, [];
    }

    method ShouldLogPeerLifecycle(p: Peer) returns (yes: bool)
      ensures yes == ShouldLog(bootstraps, Contents(), p)
    {
      if p in bootstraps {
        return true;
      }
      return p in peerLogged;
    }

    method ConnectedNotice(p: Peer, now: int)
      modifies this
      ensures Contents() == Step(bootstraps, old(Contents()), Connect(p, now))
    {
      var prev := if p in peerConnCount then peerConnCount[p] else 0;
      peerConnCount := peerConnCount[p := prev + 1];
      if p in peerDisconTmr {
        peerDisconTmr := peerDisconTmr - {p};
      }
      if prev == 0 {
        var longGone := p !in peerLastGone || now - peerLastGone[p] >= DEBOUNCE;
        peerLastGone := peerLastGone - {p};
        var log := ShouldLogPeerLifecycle(p);
        if longGone && log {
          lines := lines + [Line(p, Connected)];
        }
      }
      assert peerDisconTmr == old(peerDisconTmr) - {p};
    }

    method DisconnectedNotice(p: Peer, now: int)
      modifies this
      ensures Contents() == Step(bootstraps, old(Contents()), Disconnect(p, now))
    {
      var prev := if p in peerConnCount then peerConnCount[p] else 0;
      if prev <= 1 {
        peerConnCount := peerConnCount - {p};
        peerLastGone := peerLastGone[p := now];
        peerDisconTmr := peerDisconTmr[p := now + DEBOUNCE];
        return;
      }
      peerConnCount := peerConnCount[p := prev - 1];
    }

    method TimerFired(p: Peer, now: int)
      modifies this
      ensures Contents() == Step(bootstraps, old(Contents()), Fire(p, now))
    {
      if p in peerConnCount && peerConnCount[p] > 0 {
        return;
      }
      peerDisconTmr := peerDisconTmr - {p};
      var log := ShouldLogPeerLifecycle(p);
      if log {
        lines := lines + [Line(p, Disconnected)];
      }
    }
  }

  // ---------------------------------------------------------------- well-formed runs

  /** Connections opened minus connections closed. */
  function Open(events: seq<Event>, p: Peer): int {
    if events == [] then 0
    else
      var ev := events[|events| - 1];
      Open(events[..|events| - 1], p)
      + (if ev.peer != p then 0 else if ev.Connect? then 1 else if ev.Disconnect? then -1 else 0)
  }

  /** Closes match opens, timers fire only while pending and not before their deadline. */
  predicate Possible(s: State, ev: Event) {
    match ev
    case Disconnect(p, _) => Count(s, p) > 0
    case Fire(p, at) => p in s.timers && s.timers[p] <= at
    case _ => true
  }

  function Clock(events: seq<Event>): int {
    if events == [] then 0 else events[|events| - 1].at
  }

  /** Time does not run backwards. */
  predicate WellFormed(bootstraps: set<Peer>, events: seq<Event>) {
    events == [] || (
      var before := events[..|events| - 1];
      var ev := events[|events| - 1];
      WellFormed(bootstraps, before) && Clock(before) <= ev.at && Possible(After(bootstraps, before), ev))
  }

  /** A reconnection that overtakes a disconnect timer whose deadline has already passed. */
  predicate Overtakes(s: State, ev: Event, p: Peer) {
    ev.Connect? && ev.peer == p && p in s.timers && s.timers[p] <= ev.at
  }

  /** Timers of the peer fire promptly: no reconnection finds an overdue one. */
  predicate Prompt(bootstraps: set<Peer>, events: seq<Event>, p: Peer) {
    events == [] || (
      var before := events[..|events| - 1];
      Prompt(bootstraps, before, p) && !Overtakes(After(bootstraps, before), events[|events| - 1], p))
  }

  /** The reports about one peer. */
  function Story(lines: seq<Line>, p: Peer): seq<Report> {
    if lines == [] then []
    else
      var last := lines[|lines| - 1];
      Story(lines[..|lines| - 1], p) + (if last.peer == p then [last.report] else [])
  }

  predicate Alternates(story: seq<Report>) {
    forall i :: 0 <= i < |story| ==> story[i] == if i % 2 == 0 then Connected else Disconnected
  }

  /** Counts are open connections, a pending timer means no connection and a recorded last-gone time. */
  predicate Counted(s: State, p: Peer) {
    && (p in s.counts ==> s.counts[p] > 0)
    && (p in s.counts ==> p !in s.gone && p !in s.timers)
    && (p in s.timers ==> p in s.gone && s.timers[p] == s.gone[p] + DEBOUNCE)
  }

  lemma {:induction false} CountsAreOpenConnections(bootstraps: set<Peer>, events: seq<Event>, p: Peer)
    requires WellFormed(bootstraps, events)
    ensures var s := After(bootstraps, events);
            Count(s, p) == Open(events, p) && Counted(s, p)
            && (p in s.timers ==> Count(s, p) == 0 && p in s.gone)
  {
    if events != [] {
      CountsAreOpenConnections(bootstraps, events[..|events| - 1], p);
    }
  }

  /** What the last report about the peer is, given its state: up, in its debounce window, or long gone. */
  predicate InStep(s: State, p: Peer, now: int) {
    var story := Story(s.lines, p);
    && Alternates(story)
    && (story == [] <==> p !in s.counts && p !in s.gone)
    && (p in s.counts || p in s.timers ==> |story| % 2 == 1)
    && (p in s.gone && p !in s.timers ==> |story| % 2 == 0 && now >= s.gone[p] + DEBOUNCE)
  }

  lemma {:induction false} StorySnoc(lines: seq<Line>, line: Line, p: Peer)
    ensures Story(lines + [line], p) == Story(lines, p) + (if line.peer == p then [line.report] else [])
  {
  }

  lemma {:induction false} StepStory(bootstraps: set<Peer>, s: State, ev: Event, p: Peer)
    ensures Story(Step(bootstraps, s, ev).lines, p) == Story(s.lines, p) + (
              if ev.peer != p || !ShouldLog(bootstraps, s, p) || Count(s, p) > 0 then []
              else if ev.Connect? && LongGone(s, p, ev.at) then [Connected]
              else if ev.Fire? then [Disconnected]
              else [])
  {
    StorySnoc(s.lines, Line(ev.peer, Connected), p);
    StorySnoc(s.lines, Line(ev.peer, Disconnected), p);
    assert s.lines + [] == s.lines;
  }

  lemma {:induction false} StepInStep(bootstraps: set<Peer>, s: State, ev: Event, p: Peer, now: int)
    requires p in bootstraps && Counted(s, p) && InStep(s, p, now)
    requires now <= ev.at && Possible(s, ev) && !Overtakes(s, ev, p)
    ensures InStep(Step(bootstraps, s, ev), p, ev.at)
  {
    StepStory(bootstraps, s, ev, p);
    var next := Step(bootstraps, s, ev);
    if ev.peer != p || ev.Observe? {
      assert (p in next.counts <==> p in s.counts) && (p in next.timers <==> p in s.timers);
      assert (p in next.gone <==> p in s.gone) && (p in s.gone ==> next.gone[p] == s.gone[p]);
    } else if ev.Connect? {
      ConnectInStep(bootstraps, s, ev, p, now);
    } else if ev.Disconnect? {
      DisconnectInStep(bootstraps, s, ev, p, now);
    }
  }

  lemma {:induction false} ConnectInStep(bootstraps: set<Peer>, s: State, ev: Event, p: Peer, now: int)
    requires p in bootstraps && Counted(s, p) && InStep(s, p, now) && ev.peer == p && ev.Connect?
    requires now <= ev.at && !Overtakes(s, ev, p)
    ensures InStep(Step(bootstraps, s, ev), p, ev.at)
  {
    StepStory(bootstraps, s, ev, p);
    var story := Story(s.lines, p);
    if Count(s, p) == 0 && LongGone(s, p, ev.at) {
      assert |story| % 2 == 0;
      AlternatesSnoc(story, Connected);
    } else {
      assert |story| % 2 == 1;
      assert story + [] == story;
    }
  }

  lemma {:induction false} AlternatesSnoc(story: seq<Report>, next: Report)
    requires Alternates(story) && next == if |story| % 2 == 0 then Connected else Disconnected
    ensures Alternates(story + [next]) && |story + [next]| % 2 == 1 - |story| % 2
  {
  }

  lemma {:induction false} DisconnectInStep(bootstraps: set<Peer>, s: State, ev: Event, p: Peer, now: int)
    requires p in bootstraps && Counted(s, p) && InStep(s, p, now) && ev.peer == p && ev.Disconnect?
    requires now <= ev.at && Possible(s, ev)
    ensures InStep(Step(bootstraps, s, ev), p, ev.at)
  {
  }

  /** An overtaken timer makes two connected reports follow each other, and that is never mended. */
  lemma {:induction false} OvertakingBreaks(bootstraps: set<Peer>, s: State, ev: Event, p: Peer, now: int)
    requires p in bootstraps && Counted(s, p) && InStep(s, p, now)
    requires Overtakes(s, ev, p)
    ensures !Alternates(Story(Step(bootstraps, s, ev).lines, p))
  {
    StepStory(bootstraps, s, ev, p);
    var story := Story(s.lines, p);
    assert (story + [Connected])[|story|] == Connected;
  }

  lemma {:induction false} AfterSnoc(bootstraps: set<Peer>, events: seq<Event>, ev: Event)
    ensures After(bootstraps, events + [ev]) == Step(bootstraps, After(bootstraps, events), ev)
    ensures WellFormed(bootstraps, events + [ev])
       <==> WellFormed(bootstraps, events) && Clock(events) <= ev.at && Possible(After(bootstraps, events), ev)
  {
    assert (events + [ev])[..|events|] == events;
  }

  /** A reconnection at the very deadline of the disconnect timer, step by step. */
  lemma {:induction false} BackWhenDue(bootstraps: set<Peer>, p: Peer, s: State)
    requires p in bootstraps && s == Step(bootstraps, Step(bootstraps, INITIAL, Connect(p, 0)), Disconnect(p, 1))
    ensures Possible(Step(bootstraps, INITIAL, Connect(p, 0)), Disconnect(p, 1))
    ensures s.lines == [Line(p, Connected)]
    ensures Step(bootstraps, s, Connect(p, 10_001)).lines == [Line(p, Connected)] + [Line(p, Connected)]
  {
    var up := Step(bootstraps, INITIAL, Connect(p, 0));
    assert Count(INITIAL, p) == 0 && Count(up, p) == 1;
    assert up.lines == [] + [Line(p, Connected)];
    assert Count(s, p) == 0 && s.gone[p] == 1;
  }

  lemma {:induction false} RepeatedConnected(p: Peer)
    ensures !Alternates(Story([Line(p, Connected)] + [Line(p, Connected)], p))
  {
    var line := Line(p, Connected);
    StorySnoc([line], line, p);
    StorySnoc([], line, p);
    assert [] + [line] == [line];
    assert Story([line] + [line], p)[1] == Connected;
  }

  /** It does happen: a bootstrap peer that is back just when its timer is due is reported connected twice in a row. */
  lemma {:induction false} ReportsCanRepeat(bootstraps: set<Peer>, p: Peer)
    requires p in bootstraps
    ensures var events := [Connect(p, 0)] + [Disconnect(p, 1)] + [Connect(p, 10_001)];
            && WellFormed(bootstraps, events)
            && After(bootstraps, events).lines == [Line(p, Connected)] + [Line(p, Connected)]
            && !Alternates(Story(After(bootstraps, events).lines, p))
  {
    var first, second, third := Connect(p, 0), Disconnect(p, 1), Connect(p, 10_001);
    AfterSnoc(bootstraps, [], first);
    assert [] + [first] == [first];
    AfterSnoc(bootstraps, [first], second);
    AfterSnoc(bootstraps, [first] + [second], third);
    BackWhenDue(bootstraps, p, After(bootstraps, [first] + [second]));
    RepeatedConnected(p);
  }

  lemma {:induction false} BrokenStaysBroken(bootstraps: set<Peer>, s: State, ev: Event, p: Peer)
    requires !Alternates(Story(s.lines, p))
    ensures !Alternates(Story(Step(bootstraps, s, ev).lines, p))
  {
    StepStory(bootstraps, s, ev, p);
    var story := Story(s.lines, p);
    var i :| 0 <= i < |story| && story[i] != if i % 2 == 0 then Connected else Disconnected;
    assert Story(Step(bootstraps, s, ev).lines, p)[i] == story[i];
  }

  lemma {:induction false} RunInStep(bootstraps: set<Peer>, events: seq<Event>, p: Peer)
    requires p in bootstraps && WellFormed(bootstraps, events)
    ensures Prompt(bootstraps, events, p) ==> InStep(After(bootstraps, events), p, Clock(events))
    ensures !Prompt(bootstraps, events, p) ==> !Alternates(Story(After(bootstraps, events).lines, p))
  {
    if events != [] {
      var before := events[..|events| - 1];
      var ev := events[|events| - 1];
      var s := After(bootstraps, before);
      RunInStep(bootstraps, before, p);
      CountsAreOpenConnections(bootstraps, before, p);
      if !Prompt(bootstraps, before, p) {
        BrokenStaysBroken(bootstraps, s, ev, p);
      } else if Overtakes(s, ev, p) {
        OvertakingBreaks(bootstraps, s, ev, p, Clock(before));
      } else {
        StepInStep(bootstraps, s, ev, p, Clock(before));
      }
    }
  }

  /** The reports about a bootstrap peer alternate exactly when no reconnection overtakes an overdue timer. */
  lemma {:induction false} ReportsAlternateExactly(bootstraps: set<Peer>, events: seq<Event>, p: Peer)
    requires p in bootstraps && WellFormed(bootstraps, events)
    ensures Alternates(Story(After(bootstraps, events).lines, p)) <==> Prompt(bootstraps, events, p)
  {
    RunInStep(bootstraps, events, p);
  }

  /** A peer is reported on once it is a bootstrap peer or was observed. */
  lemma {:induction false} ReportedPeers(bootstraps: set<Peer>, events: seq<Event>, p: Peer)
    ensures ShouldLog(bootstraps, After(bootstraps, events), p)
       <==> p in bootstraps || exists ev <- events :: ev.Observe? && ev.peer == p
  {
    if events != [] {
      var before, ev := events[..|events| - 1], events[|events| - 1];
      ReportedPeers(bootstraps, before, p);
      assert events == before + [ev];
    }
  }

  /** Nothing is ever reported about any other peer. */
  lemma {:induction false} StrangersAreSilent(bootstraps: set<Peer>, events: seq<Event>, p: Peer)
    requires p !in bootstraps && forall ev <- events :: ev.Observe? ==> ev.peer != p
    ensures Story(After(bootstraps, events).lines, p) == []
  {
    if events != [] {
      var before, ev := events[..|events| - 1], events[|events| - 1];
      StrangersAreSilent(bootstraps, before, p);
      ReportedPeers(bootstraps, before, p);
      StepStory(bootstraps, After(bootstraps, before), ev, p);
    }
  }

  /** A first connection of a reported peer, and one ten seconds or more after the last loss, is reported. */
  lemma {:induction false} LongGapIsReported(bootstraps: set<Peer>, s: State, p: Peer, back: int)
    requires Count(s, p) == 0 && (p in bootstraps || p in s.logged)
    ensures Step(bootstraps, s, Connect(p, back)).lines
         == if p in s.gone && back < s.gone[p] + 10_000 then s.lines else s.lines + [Line(p, Connected)]
    ensures Step(bootstraps, s, Fire(p, back)).lines == s.lines + [Line(p, Disconnected)]
  {
  }

  /** A reconnection within ten seconds is never reported, neither as a loss nor as a return. */
  lemma {:induction false} ShortGapIsSilent(bootstraps: set<Peer>, s: State, p: Peer, lost: int, back: int)
    requires Count(s, p) == 1 && lost <= back < lost + 10_000
    ensures Possible(Step(bootstraps, s, Disconnect(p, lost)), Fire(p, lost + 10_000))
    ensures !Possible(Step(bootstraps, s, Disconnect(p, lost)), Fire(p, back))
    ensures var down := Step(bootstraps, s, Disconnect(p, lost));
            var up := Step(bootstraps, down, Connect(p, back));
            up.lines == s.lines && p !in up.timers && Count(up, p) == 1
  {
  }
}
