/** The connection watchdog of `BrokerSerial`.

    A loopback message sets `connected` and restarts the three-second connect timer; when
    that timer fires, `connected` is cleared.  The loopback timer sends the next probe,
    and the node name while the link is down. */
module Watchdog {
  import opened Millis
  import opened Timers
  import opened EventLoop
  import TimerRate

  const CONNECT_TIMEOUT: nat := 3000
  const LOOPBACK_INTERVAL: nat := 1000

  datatype Message = NodeName | Loopback(time: nat) | Latency(value: nat)

  // lastLoopback is history: when the last loopback message arrived, 0 before the first.
  datatype Link = Link(
    connected: bool, connectTimer: Timer, loopbackTimer: Timer, lastLoopback: nat, sent: seq<Message>)

  // Handlers run on one thread, each to its end.  due and now are the readings of a timer's request,
  // at and now those of the loopback handler, for the latency and for the restarted timer;
  // millis is the reading the loopback probe carries.
  datatype Event =
    | LoopbackArrives(sentAt: nat, at: nat, now: nat)
    | PollConnect(due: nat, now: nat)
    | PollLoopback(due: nat, now: nat, millis: nat)
    | SetNode

  function OnLoopback(k: Link, sentAt: nat, at: nat, now: nat): Link {
    Link(true, Started(k.connectTimer, now), k.loopbackTimer, now, k.sent + [Latency(Elapsed(at, sentAt))])
  }

  function OnConnectPoll(k: Link, due: nat, now: nat): Link {
    k.(connectTimer := Requested(k.connectTimer, due, now),
       connected := k.connected && due < k.connectTimer.expireTime)
  }

  function OnLoopbackPoll(k: Link, due: nat, now: nat, millis: nat): Link {
    if due < k.loopbackTimer.expireTime then k
    else
      k.(loopbackTimer := Fired(k.loopbackTimer, now),
         sent := k.sent + (if k.connected then [] else [NodeName]) + [Loopback(millis)])
  }

  function OnEvent(k: Link, e: Event): Link {
    match e
    case LoopbackArrives(sentAt, at, now) => OnLoopback(k, sentAt, at, now)
    case PollConnect(due, now) => OnConnectPoll(k, due, now)
    case PollLoopback(due, now, millis) => OnLoopbackPoll(k, due, now, millis)
    case SetNode => k.(connected := false)
  }

  function Run(k: Link, events: seq<Event>): Link {
    if events == [] then k else OnEvent(Run(k, events[..|events| - 1]), events[|events| - 1])
  }

  function InitialLink(start: nat): Link {
    Link(false,
         Started(Timer(CONNECT_TIMEOUT, true, NEVER), start),
         Started(Timer(LOOPBACK_INTERVAL, true, NEVER), start), 0, [])
  }

  /** The object; `sent` stands for the outgoing flow. */
  class BrokerSerial {
    var connected: bool
    const connectTimer: TimerSource
    const loopbackTimer: TimerSource
    ghost var lastLoopback: nat
    ghost var sent: seq<Message>

    ghost predicate Valid() {
      connectTimer != loopbackTimer
    }

    ghost function State(): Link
      reads this, connectTimer, loopbackTimer
    {
      Link(connected, connectTimer.State(), loopbackTimer.State(), lastLoopback, sent)
    }

    constructor (start: nat)
      ensures Valid() && State() == InitialLink(start) && fresh(connectTimer) && fresh(loopbackTimer)
    {
      var probe := new TimerSource(LOOPBACK_INTERVAL, true, start);
      var watch := new TimerSource(CONNECT_TIMEOUT, true, start);
      loopbackTimer, connectTimer := probe, watch;
      connected, lastLoopback, sent := false, 0, [];
    }

    method Node()
      modifies this`connected
      ensures State() == OnEvent(old(State()), SetNode)
    {
      connected := false;
    }

    method HandleLoopback(sentAt: nat, at: nat, now: nat)
      requires Valid()
      modifies this, connectTimer
      ensures State() == OnLoopback(old(State()), sentAt, at, now)
    {
      sent := sent + [Latency(Elapsed(at, sentAt))];
      connected := true;
      connectTimer.Reset(now);
      lastLoopback := now;
    }

    method HandleConnectTimer()
      modifies this`connected
      ensures !connected
    {
      connected := false;
    }

    method HandleLoopbackTimer(millis: nat)
      modifies this`sent
      ensures sent == old(sent) + (if connected then [] else [NodeName]) + [Loopback(millis)]
    {
      if !connected {
        sent := sent + [NodeName];
      }
      sent := sent + [Loopback(millis)];
    }

    // The loop requests a timer; its handler runs if it fires.
    method PollConnectTimer(due: nat, now: nat)
      requires Valid() && due <= now
      modifies this, connectTimer
      ensures State() == OnConnectPoll(old(State()), due, now)
    {
      var fired := connectTimer.Request(due, now);
      if fired {
        HandleConnectTimer();
      }
    }

    method PollLoopbackTimer(due: nat, now: nat, millis: nat)
      requires Valid() && due <= now
      modifies this, loopbackTimer
      ensures State() == OnLoopbackPoll(old(State()), due, now, millis)
    {
      var fired := loopbackTimer.Request(due, now);
      if fired {
        HandleLoopbackTimer(millis);
      }
    }
  }

  /* ---- The deadline follows the last loopback ---- */

  predicate Armed(k: Link) {
    k.connectTimer.interval == CONNECT_TIMEOUT
    && (k.connected ==> k.connectTimer.expireTime == k.lastLoopback + CONNECT_TIMEOUT)
  }

  lemma {:induction false} AlwaysArmed(start: nat, events: seq<Event>)
    ensures Armed(Run(InitialLink(start), events))
  {
    if events != [] {
      AlwaysArmed(start, events[..|events| - 1]);
    }
  }

  // Serviced three seconds or more after the last loopback, the timer takes the link down.
  lemma ServicedLateIsDown(start: nat, events: seq<Event>, due: nat, now: nat)
    requires due >= Run(InitialLink(start), events).lastLoopback + CONNECT_TIMEOUT
    ensures !OnEvent(Run(InitialLink(start), events), PollConnect(due, now)).connected
  {
    AlwaysArmed(start, events);
  }

  predicate EndsAt(e: Event, arrival: nat) {
    e.SetNode? || (e.PollConnect? && e.due >= arrival + CONNECT_TIMEOUT)
  }

  // The i-th event is a loopback, the last one, and nothing after it ends the connection.
  predicate KeptAlive(events: seq<Event>, i: nat) {
    && i < |events| && events[i].LoopbackArrives?
    && (forall j :: i < j < |events| ==> !events[j].LoopbackArrives? && !EndsAt(events[j], events[i].now))
  }

  lemma {:induction false} LastLoopbackRecorded(start: nat, events: seq<Event>, i: nat)
    requires i < |events| && events[i].LoopbackArrives?
    requires forall j :: i < j < |events| ==> !events[j].LoopbackArrives?
    ensures Run(InitialLink(start), events).lastLoopback == events[i].now
  {
    if i < |events| - 1 {
      LastLoopbackRecorded(start, events[..|events| - 1], i);
    }
  }

  lemma {:induction false} ConnectedIsKept(start: nat, events: seq<Event>) returns (i: nat)
    requires Run(InitialLink(start), events).connected
    ensures KeptAlive(events, i)
  {
    var n := |events| - 1;
    if events[n].LoopbackArrives? {
      i := n;
    } else {
      i := ConnectedIsKept(start, events[..n]);
      LastLoopbackRecorded(start, events[..n], i);
      AlwaysArmed(start, events[..n]);
    }
  }

  lemma {:induction false} KeptIsConnected(start: nat, events: seq<Event>, i: nat)
    requires KeptAlive(events, i)
    ensures Run(InitialLink(start), events).connected
  {
    var n := |events| - 1;
    if i < n {
      KeptIsConnected(start, events[..n], i);
      LastLoopbackRecorded(start, events[..n], i);
      AlwaysArmed(start, events[..n]);
    }
  }

  // In every run: connected exactly when some loopback arrived and nothing since has ended the connection.
  lemma ConnectedIff(start: nat, events: seq<Event>)
    ensures Run(InitialLink(start), events).connected <==> exists i :: KeptAlive(events, i)
  {
    if Run(InitialLink(start), events).connected {
      var i := ConnectedIsKept(start, events);
    }
    if i :| KeptAlive(events, i) {
      KeptIsConnected(start, events, i);
    }
  }

  // Once down, the link stays down until a loopback arrives.
  lemma StaysDown(start: nat, events: seq<Event>, more: seq<Event>)
    requires !Run(InitialLink(start), events).connected
    requires forall j :: 0 <= j < |more| ==> !more[j].LoopbackArrives?
    ensures !Run(InitialLink(start), events + more).connected
  {
    var all := events + more;
    if Run(InitialLink(start), all).connected {
      var i := ConnectedIsKept(start, all);
      assert all[i].LoopbackArrives?;
      assert forall j :: 0 <= j < |events| ==> all[j] == events[j];
      assert KeptAlive(events, i);
      KeptIsConnected(start, events, i);
    }
  }

  // The node announces itself exactly with those probes that go out while the link is down.
  lemma NodeNameSentIff(start: nat, events: seq<Event>, e: Event)
    ensures var before, after := Run(InitialLink(start), events), Run(InitialLink(start), events + [e]);
            && before.sent <= after.sent
            && (NodeName in after.sent[|before.sent|..] <==>
                  e.PollLoopback? && e.due >= before.loopbackTimer.expireTime && !exists i :: KeptAlive(events, i))
  {
    ConnectedIff(start, events);
    hide KeptAlive;
    var before, after := Run(InitialLink(start), events), Run(InitialLink(start), events + [e]);
    assert (events + [e])[..|events|] == events;
    assert after == OnEvent(before, e);
    var tail := after.sent[|before.sent|..];
    match e
    case LoopbackArrives(sentAt, at, _) => assert tail == [Latency(Elapsed(at, sentAt))];
    case PollLoopback(_, _, millis) =>
      var fires := e.due >= before.loopbackTimer.expireTime;
      assert tail == if !fires then [] else (if before.connected then [] else [NodeName]) + [Loopback(millis)];
    case _ => assert tail == [];
  }

  /* ---- What is sent ---- */

  // In every run: a loopback publishes how long it was under way, and a poll at or past the loopback timer's deadline
  // sends a probe, behind the node name if the link is down.  Nothing else is sent.
  lemma SentExactly(start: nat, events: seq<Event>, e: Event)
    requires e.LoopbackArrives? ==> e.sentAt < 0x1_0000_0000_0000_0000 && e.at < 0x1_0000_0000_0000_0000
    ensures var before, after := Run(InitialLink(start), events), Run(InitialLink(start), events + [e]);
            after.sent == before.sent +
              match e
              case LoopbackArrives(sentAt, at, _) =>
                [Latency(if sentAt <= at then at - sentAt else at - sentAt + 0x1_0000_0000_0000_0000)]
              case PollLoopback(due, _, millis) =>
                if due < before.loopbackTimer.expireTime then []
                else (if exists i :: KeptAlive(events, i) then [] else [NodeName]) + [Loopback(millis)]
              case _ => []
  {
    ConnectedIff(start, events);
    hide KeptAlive, Elapsed;
    assert (events + [e])[..|events|] == events;
    if e.LoopbackArrives? {
      Plain(e.at, e.sentAt);
    }
  }

  // What befalls the two timers: polls of the loopback timer, and polls and resets of the connect timer.
  function LoopbackTimerEvents(events: seq<Event>): seq<TimerRate.Event> {
    if events == [] then []
    else
      LoopbackTimerEvents(events[..|events| - 1]) +
      match events[|events| - 1]
      case PollLoopback(due, now, _) => [TimerRate.Poll(due, now)]
      case _ => []
  }

  function ConnectTimerEvents(events: seq<Event>): seq<TimerRate.Event> {
    if events == [] then []
    else
      ConnectTimerEvents(events[..|events| - 1]) +
      match events[|events| - 1]
      case PollConnect(due, now) => [TimerRate.Poll(due, now)]
      case LoopbackArrives(_, _, now) => [TimerRate.Reset(now)]
      case _ => []
  }

  lemma OnLastEvent(t: Timer, before: seq<TimerRate.Event>, e: TimerRate.Event)
    ensures TimerRate.Trace(t, before + [e]) == TimerRate.OnEvent(TimerRate.Trace(t, before), e)
    ensures before + [] == before
  {
    assert (before + [e])[..|before|] == before;
  }

  // The probe's timer runs as a repeating timer of 1000 ms does under its polls.
  lemma {:induction false} LoopbackTimerRuns(start: nat, events: seq<Event>)
    ensures Run(InitialLink(start), events).loopbackTimer
         == TimerRate.Trace(Timer(1000, true, start + 1000), LoopbackTimerEvents(events)).timer
  {
    if events != [] {
      var n := |events| - 1;
      LoopbackTimerRuns(start, events[..n]);
      var t, before := Timer(1000, true, start + 1000), LoopbackTimerEvents(events[..n]);
      match events[n]
      case PollLoopback(due, now, _) => OnLastEvent(t, before, TimerRate.Poll(due, now));
      case _ => assert before + [] == before;
    }
  }

  // The watchdog's timer runs as a repeating timer of 3000 ms does under its polls and the loopbacks.
  lemma {:induction false} ConnectTimerRuns(start: nat, events: seq<Event>)
    ensures Run(InitialLink(start), events).connectTimer
         == TimerRate.Trace(Timer(3000, true, start + 3000), ConnectTimerEvents(events)).timer
  {
    if events != [] {
      var n := |events| - 1;
      ConnectTimerRuns(start, events[..n]);
      var t, before := Timer(3000, true, start + 3000), ConnectTimerEvents(events[..n]);
      match events[n]
      case PollConnect(due, now) => OnLastEvent(t, before, TimerRate.Poll(due, now));
      case LoopbackArrives(_, _, now) => OnLastEvent(t, before, TimerRate.Reset(now));
      case _ => assert before + [] == before;
    }
  }

  function Probes(sent: seq<Message>): nat {
    if sent == [] then 0 else Probes(sent[..|sent| - 1]) + (if sent[|sent| - 1].Loopback? then 1 else 0)
  }

  lemma {:induction false} ProbesConcat(a: seq<Message>, b: seq<Message>)
    ensures Probes(a + b) == Probes(a) + Probes(b)
  {
    if b == [] {
      assert a + b == a;
    } else {
      assert (a + b)[..|a + b| - 1] == a + b[..|b| - 1];
      ProbesConcat(a, b[..|b| - 1]);
    }
  }

  // In every run as many probes were sent as the loopback timer fired.
  lemma {:induction false} ProbesCounted(start: nat, events: seq<Event>)
    ensures Probes(Run(InitialLink(start), events).sent)
         == |TimerRate.Trace(Timer(1000, true, start + 1000), LoopbackTimerEvents(events)).firings|
  {
    if events != [] {
      var n := |events| - 1;
      ProbesCounted(start, events[..n]);
      LoopbackTimerRuns(start, events[..n]);
      FiringCounted(start, events);
      OneProbe(Run(InitialLink(start), events[..n]), events[n]);
      hide OnEvent, LoopbackTimerEvents, Probes, TimerRate.Trace;
      ProbesAdded(Run(InitialLink(start), events[..n]).sent, Run(InitialLink(start), events).sent);
    }
  }

  lemma ProbesAdded(a: seq<Message>, b: seq<Message>)
    requires a <= b
    ensures Probes(b) == Probes(a) + Probes(b[|a|..])
  {
    ProbesConcat(a, b[|a|..]);
    assert a + b[|a|..] == b;
  }

  lemma FiringCounted(start: nat, events: seq<Event>)
    requires events != []
    ensures var n, t := |events| - 1, Timer(1000, true, start + 1000);
            var before := TimerRate.Trace(t, LoopbackTimerEvents(events[..n]));
            |TimerRate.Trace(t, LoopbackTimerEvents(events)).firings| == |before.firings| +
              (if events[n].PollLoopback? && events[n].due >= before.timer.expireTime then 1 else 0)
  {
    var n, t := |events| - 1, Timer(1000, true, start + 1000);
    var before := LoopbackTimerEvents(events[..n]);
    match events[n]
    case PollLoopback(due, now, _) => OnLastEvent(t, before, TimerRate.Poll(due, now));
    case _ => assert before + [] == before;
  }

  lemma OneProbe(k: Link, e: Event)
    ensures k.sent <= OnEvent(k, e).sent
    ensures Probes(OnEvent(k, e).sent[|k.sent|..])
         == if e.PollLoopback? && e.due >= k.loopbackTimer.expireTime then 1 else 0
  {
    var tail := OnEvent(k, e).sent[|k.sent|..];
    match e
    case LoopbackArrives(sentAt, at, _) =>
      assert tail == [Latency(Elapsed(at, sentAt))];
      assert tail[..0] == [];
    case PollLoopback(due, _, millis) =>
      if due >= k.loopbackTimer.expireTime {
        var names := if k.connected then [] else [NodeName];
        assert tail == names + [Loopback(millis)];
        ProbesConcat(names, [Loopback(millis)]);
        assert [Loopback(millis)][..0] == [] && [NodeName][..0] == [];
      }
    case _ =>
  }

  /* ---- The event loop gets to it ---- */

  // Events of the link other than a loopback and the service of the connect timer.
  predicate Incidental(more: seq<Event>) {
    forall j :: 0 <= j < |more| ==> more[j].PollLoopback? || more[j].SetNode?
  }

  function AfterTurn(k: Link, r: Reading, serviced: bool, more: seq<Event>): Link {
    Run(if serviced then OnConnectPoll(k, r.due, r.set_) else k, more)
  }

  // What turn r of the loop does to the link, the connect timer being timer a of the thread:
  // if the turn fires that timer, its handler runs; other handlers may run as well.
  ghost predicate LinkTurn(k: Link, r: Reading, fired: int, a: nat, k': Link) {
    exists more: seq<Event> :: Incidental(more) && k' == AfterTurn(k, r, fired == a, more)
  }

  // The loop and the link run together, and no loopback arrives.
  ghost predicate Together(
    p: Platform, states: seq<LoopState>, readings: seq<Reading>, fired: seq<int>, a: nat, links: seq<Link>)
  {
    && LoopRun(p, states, readings, fired) && |links| == |states|
    && (forall k :: 0 <= k < |states| ==> a < |states[k].timers| && states[k].timers[a] == links[k].connectTimer)
    && (forall k :: 0 <= k < |fired| ==> LinkTurn(links[k], readings[k], fired[k], a, links[k + 1]))
  }

  lemma {:induction false} IncidentalsKeep(k: Link, more: seq<Event>)
    requires Incidental(more)
    ensures Run(k, more).connectTimer == k.connectTimer && Run(k, more).lastLoopback == k.lastLoopback
    ensures Run(k, more).connected ==> k.connected
  {
    if more != [] {
      IncidentalsKeep(k, more[..|more| - 1]);
    }
  }

  // A turn can only take the link down, it does so when it fires the connect timer, and while the link
  // stays up the timer keeps its deadline.
  lemma TurnOnlyDisconnects(p: Platform, s: LoopState, r: Reading, fired: int, s': LoopState, a: nat, k: Link, k': Link)
    requires Iteration(p, s, r, fired, s') && a < |s.timers| && s.timers[a] == k.connectTimer
    requires LinkTurn(k, r, fired, a, k')
    ensures k'.lastLoopback == k.lastLoopback
    ensures k'.connected ==> k.connected && fired != a && k'.connectTimer == k.connectTimer
  {
    TurnFiresExactly(p, s.timers, r, a);
    hide Turn, Run;
    var more: seq<Event> :| Incidental(more) && k' == AfterTurn(k, r, fired == a, more);
    IncidentalsKeep(if fired == a then OnConnectPoll(k, r.due, r.set_) else k, more);
  }

  // If the link is still up, it has been all along, with the timer unfired and its deadline kept.
  lemma {:induction false} UpMeansUnfired(
    p: Platform, states: seq<LoopState>, readings: seq<Reading>, fired: seq<int>, a: nat, links: seq<Link>, n: nat)
    requires Together(p, states, readings, fired, a, links) && n <= |fired| && links[n].connected
    ensures links[0].connected && Waits(states, fired, a, n)
    ensures links[n].connectTimer == links[0].connectTimer
  {
    if n > 0 {
      assert Iteration(p, states[n - 1], readings[n - 1], fired[n - 1], states[n]);
      assert LinkTurn(links[n - 1], readings[n - 1], fired[n - 1], a, links[n]);
      hide Iteration, LinkTurn;
      TurnOnlyDisconnects(p, states[n - 1], readings[n - 1], fired[n - 1], states[n], a, links[n - 1], links[n]);
      UpMeansUnfired(p, states, readings, fired, a, links, n - 1);
    }
  }

  // From any state of the link in any run: with n timers on the thread, more than 2(n - 1) turns past three seconds
  // since the last loopback leave the link down.
  lemma WatchdogBites(
    p: Platform, start: nat, events: seq<Event>,
    states: seq<LoopState>, readings: seq<Reading>, fired: seq<int>, a: nat, links: seq<Link>)
    requires Together(p, states, readings, fired, a, links) && links[0] == Run(InitialLink(start), events)
    requires Ripe(p, links[0].lastLoopback + CONNECT_TIMEOUT, states[0].clock)
    requires |fired| > 2 * (|states[0].timers| - 1)
    ensures !links[|fired|].connected
  {
    if links[|fired|].connected {
      UpMeansUnfired(p, states, readings, fired, a, links, |fired|);
      AlwaysArmed(start, events);
      hide Ripe, Run, Iteration, LinkTurn;
      NoStarvation(p, states, readings, fired, a);
    }
  }
}
