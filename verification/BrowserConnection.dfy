/**
The browser's connection for one job (frontend/src/realtime/jobSubscription.ts): closure
variables, sockets and timers, changed by event handlers that run one at a time.
*/
module BrowserConnection {
  import opened Wrappers
  import opened Tables
  import opened JobSubscription

  datatype SocketState = Connecting | Opened | Closing | Closed

  datatype TimerKind = Reconnect | ConnectTimeout | Polling

  /**
  The closure variables, every socket ever created (the variable `socket` names the newest),
  the timers the browser has armed, the calls that await the page's callback, the HTTP
  requests in flight, and the updates handed to the page so far.
  */
  datatype Client = Client(
    sockets: seq<SocketState>,
    armed: map<nat, TimerKind>,
    nextTimer: nat,
    reconnectTimer: Option<nat>,
    connectionTimer: Option<nat>,
    pollingTimer: Option<nat>,
    reconnectAttempt: nat,
    stopped: bool,
    terminal: bool,
    previous: Option<View>,
    awaiting: seq<View>,
    fetching: nat,
    delivered: seq<View>)

  /** Sockets may have been added; what the page got and whether the story is over is as before. */
  predicate SameStory(c: Client, next: Client) {
    && next.delivered == c.delivered && next.previous == c.previous && next.stopped == c.stopped
    && next.terminal == c.terminal && |c.sockets| <= |next.sockets| && c.nextTimer <= next.nextTimer
  }

  /** Nothing new was started either. */
  predicate NothingStarted(c: Client, next: Client) {
    && SameStory(c, next) && |next.sockets| == |c.sockets| && next.nextTimer == c.nextTimer
    && next.fetching == c.fetching
  }

  // ------------------------------------------------------------------ handlers

  function Arm(c: Client, kind: TimerKind): (next: Client)
    ensures SameStory(c, next)
  {
    c.(armed := c.armed[c.nextTimer := kind], nextTimer := c.nextTimer + 1)
  }

  /** clearTimeout or clearInterval on a saved id. */
  function Disarm(c: Client, timer: Option<nat>): (next: Client)
    ensures NothingStarted(c, next)
  {
    if timer.Some? then c.(armed := c.armed - {timer.value}) else c
  }

  function Newest(c: Client): int { |c.sockets| - 1 }

  /** socket?.close(): the close event comes later. */
  function CloseSocket(c: Client): (next: Client)
    ensures NothingStarted(c, next)
  {
    if Newest(c) >= 0 && (c.sockets[Newest(c)].Connecting? || c.sockets[Newest(c)].Opened?)
    then c.(sockets := c.sockets[Newest(c) := Closing]) else c
  }

  function StopPolling(c: Client): (next: Client)
    ensures NothingStarted(c, next)
  {
    Disarm(c, c.pollingTimer).(pollingTimer := None)
  }

  /** pollJobStatus up to its await. */
  function Poll(c: Client): (next: Client)
    ensures NothingStarted(c, next.(fetching := c.fetching))
  {
    c.(fetching := c.fetching + 1)
  }

  function StartPolling(c: Client): (next: Client)
    ensures SameStory(c, next) && |next.sockets| == |c.sockets|
    ensures next.fetching - c.fetching == if c.pollingTimer.None? && next.pollingTimer.Some? then 1 else 0
  {
    if c.pollingTimer.Some? || c.terminal then c
    else
      var polled := Poll(c);
      Arm(polled, Polling).(pollingTimer := Some(polled.nextTimer))
  }

  function ScheduleReconnect(c: Client): (next: Client)
    ensures SameStory(c, next) && |next.sockets| == |c.sockets|
    ensures c.stopped || c.terminal ==> next == c
    ensures next.fetching - c.fetching == if c.pollingTimer.None? && next.pollingTimer.Some? then 1 else 0
  {
    if c.stopped || c.terminal then c
    else
      var counted := c.(reconnectAttempt := c.reconnectAttempt + 1);
      var polling := if counted.reconnectAttempt >= 3 then StartPolling(counted) else counted;
      Arm(polling, Reconnect).(reconnectTimer := Some(polling.nextTimer))
  }

  function OpenSocket(c: Client): (next: Client)
    ensures SameStory(c, next)
  {
    if c.stopped || c.terminal then c
    else Arm(c, ConnectTimeout).(sockets := c.sockets + [Connecting], connectionTimer := Some(c.nextTimer))
  }

  function ClearConnectionTimer(c: Client): (next: Client)
    ensures NothingStarted(c, next)
  {
    Disarm(c, c.connectionTimer).(connectionTimer := None)
  }

  /** deliverJobUpdate up to the await of the page's callback. */
  function Deliver(c: Client, view: View): Client {
    if c.previous == Some(view) then c
    else c.(previous := Some(view), awaiting := c.awaiting + [view], delivered := c.delivered + [view])
  }

  /** deliverJobUpdate after the callback. */
  function CallbackDone(c: Client, view: View): Client {
    if view.status.Terminal() then CloseSocket(StopPolling(c.(terminal := true))) else c
  }

  function SubscriptionConfirmed(c: Client): (next: Client)
    ensures NothingStarted(c, next)
  {
    StopPolling(c.(reconnectAttempt := 0))
  }

  /** The cleanup function returned to the page. */
  function Cleanup(c: Client): Client {
    CloseSocket(StopPolling(Disarm(Disarm(c.(stopped := true), c.connectionTimer), c.reconnectTimer)))
  }

  // -------------------------------------------------------------------- events

  datatype Incoming = Ready | Confirmed | JobMessage(view: View) | ErrorText

  datatype Happening =
    | SocketOpened(i: nat)
    | SocketMessage(i: nat, message: Incoming)
    | SocketError(i: nat)
    | SocketClosed(i: nat)
    | TimerFires(t: nat)
    | FetchEnds(answer: Option<View>)      // None is a failed request
    | CallbackEnds(k: nat, rejected: bool)
    | PageLeaves

  function Happen(c: Client, h: Happening): Client {
    match h
    case SocketOpened(i) =>
      if i < |c.sockets| && c.sockets[i].Connecting?
      then ClearConnectionTimer(c.(sockets := c.sockets[i := Opened])) else c
    case SocketMessage(i, m) =>
      if !(i < |c.sockets| && c.sockets[i].Opened?) then c
      else if m.Confirmed? then SubscriptionConfirmed(c)
      else if m.JobMessage? then Deliver(c, m.view)
      else c
    case SocketError(i) => if i < |c.sockets| && !c.sockets[i].Closed? then CloseSocket(c) else c
    case SocketClosed(i) =>
      if i < |c.sockets| && !c.sockets[i].Closed?
      then ScheduleReconnect(ClearConnectionTimer(c.(sockets := c.sockets[i := Closed]))) else c
    case TimerFires(t) =>
      if t !in c.armed then c
      else if c.armed[t].Polling? then Poll(c)
      else if c.armed[t].Reconnect? then OpenSocket(c.(armed := c.armed - {t}))
      else CloseSocket(c.(armed := c.armed - {t}))
    case FetchEnds(answer) =>
      if c.fetching == 0 then c
      else if answer.Some? then Deliver(c.(fetching := c.fetching - 1), answer.value)
      else c.(fetching := c.fetching - 1)
    case CallbackEnds(k, rejected) =>
      if k >= |c.awaiting| then c
      else
        var rest := c.(awaiting := c.awaiting[..k] + c.awaiting[k + 1..]);
        if rejected then rest else CallbackDone(rest, c.awaiting[k])
    case PageLeaves => if c.stopped then c else Cleanup(c)
  }

  function Fresh(): Client {
    Client([], map[], 0, None, None, None, 0, false, false, None, [], 0, [])
  }

  /** startJobSubscription opens the first socket at once. */
  function Started(): Client { OpenSocket(Fresh()) }

  function HappenAll(c: Client, run: seq<Happening>): Client
    decreases |run|
  {
    if run == [] then c else HappenAll(Happen(c, run[0]), run[1..])
  }

  // -------------------------------------------------------------- the invariant

  predicate IsArmed(c: Client, kind: TimerKind) {
    exists t | t in c.armed :: c.armed[t] == kind
  }

  /** An armed timer is the one its variable names. */
  predicate TimersNamed(c: Client) {
    && (forall t | t in c.armed :: t < c.nextTimer)
    && (forall t | t in c.armed && c.armed[t].Reconnect? :: c.reconnectTimer == Some(t))
    && (forall t | t in c.armed && c.armed[t].ConnectTimeout? :: c.connectionTimer == Some(t))
    && (forall t | t in c.armed && c.armed[t].Polling? :: c.pollingTimer == Some(t))
    && (c.pollingTimer.Some? ==> c.pollingTimer.value in c.armed && c.armed[c.pollingTimer.value].Polling?)
    && (c.reconnectTimer.Some? ==> c.reconnectTimer.value < c.nextTimer)
    && (c.connectionTimer.Some? ==> c.connectionTimer.value < c.nextTimer)
    && (c.reconnectTimer.Some? && c.reconnectTimer.value in c.armed ==> c.armed[c.reconnectTimer.value].Reconnect?)
    && (c.connectionTimer.Some? && c.connectionTimer.value in c.armed ==>
          c.armed[c.connectionTimer.value].ConnectTimeout?)
  }

  predicate Live(c: Client) { Newest(c) >= 0 && !c.sockets[Newest(c)].Closed? }

  predicate ClientInv(c: Client) {
    && TimersNamed(c)
    && |c.sockets| > 0
    && (forall i | 0 <= i < Newest(c) :: c.sockets[i].Closed?)
    && (IsArmed(c, Reconnect) ==> !Live(c))
    && (IsArmed(c, ConnectTimeout) ==> Live(c))
    && (!c.stopped && !c.terminal ==> Live(c) || IsArmed(c, Reconnect))
    && (c.stopped ==> c.armed == map[])
    && (c.terminal ==> c.pollingTimer.None?)
    && (c.pollingTimer.Some? ==> c.reconnectAttempt >= 3)
  }

  lemma StartedInv()
    ensures ClientInv(Started())
  {
    assert Started().armed[0] == ConnectTimeout;
  }

  // Each handler keeps the invariant, or the part of it that its caller restores.

  lemma CloseSocketKeepsInv(c: Client)
    requires ClientInv(c)
    ensures ClientInv(CloseSocket(c))
  {
    assert forall kind | IsArmed(CloseSocket(c), kind) :: IsArmed(c, kind);
    assert IsArmed(c, Reconnect) ==> IsArmed(CloseSocket(c), Reconnect);
  }

  lemma StopPollingKeepsInv(c: Client)
    requires ClientInv(c)
    ensures ClientInv(StopPolling(c))
  {
    var c' := StopPolling(c);
    if IsArmed(c, Reconnect) {
      var t :| t in c.armed && c.armed[t] == Reconnect;
      assert t in c'.armed;
    }
    assert forall kind | IsArmed(c', kind) :: IsArmed(c, kind);
  }

  lemma OpenedKeepsInv(c: Client, i: nat)
    requires ClientInv(c)
    ensures ClientInv(Happen(c, SocketOpened(i)))
  {
    var c' := Happen(c, SocketOpened(i));
    if c' != c {
      assert i == Newest(c) && Live(c');
      assert forall kind | IsArmed(c', kind) :: IsArmed(c, kind);
    }
  }

  /** The newest socket closes: its timeout goes, and a reconnect timer takes its place. */
  lemma ClosedKeepsInv(c: Client, i: nat)
    requires ClientInv(c)
    ensures ClientInv(Happen(c, SocketClosed(i)))
  {
    var c' := Happen(c, SocketClosed(i));
    if i < |c.sockets| && !c.sockets[i].Closed? {
      assert i == Newest(c) && Live(c) && !IsArmed(c, Reconnect);
      var cleared := ClearConnectionTimer(c.(sockets := c.sockets[i := Closed]));
      assert forall t | t in cleared.armed :: cleared.armed[t].Polling?;
      ReconnectAfterClose(cleared);
    }
  }

  lemma ReconnectAfterClose(c: Client)
    requires TimersNamed(c) && |c.sockets| > 0 && (forall i | 0 <= i < |c.sockets| :: c.sockets[i].Closed?)
    requires c.connectionTimer.None? && forall t | t in c.armed :: c.armed[t].Polling?
    requires c.stopped ==> c.armed == map[]
    requires c.terminal ==> c.pollingTimer.None?
    requires c.pollingTimer.Some? ==> c.reconnectAttempt >= 3
    ensures ClientInv(ScheduleReconnect(c))
  {
    var c' := ScheduleReconnect(c);
    if !c.stopped && !c.terminal {
      assert c'.armed[c'.reconnectTimer.value] == Reconnect;
    }
  }

  lemma ReconnectFiresKeepsInv(c: Client, t: nat)
    requires ClientInv(c) && t in c.armed && c.armed[t].Reconnect?
    ensures ClientInv(Happen(c, TimerFires(t)))
  {
    assert IsArmed(c, Reconnect);
    var spent := c.(armed := c.armed - {t});
    assert forall u | u in spent.armed :: u in c.armed && spent.armed[u] == c.armed[u];
    assert !IsArmed(spent, Reconnect) && (IsArmed(spent, ConnectTimeout) ==> IsArmed(c, ConnectTimeout));
    var c' := OpenSocket(spent);
    if c' != spent {
      assert c'.armed[c.nextTimer] == ConnectTimeout;
      assert Live(c');
    }
  }

  lemma TimeoutFiresKeepsInv(c: Client, t: nat)
    requires ClientInv(c) && t in c.armed && c.armed[t].ConnectTimeout?
    ensures ClientInv(Happen(c, TimerFires(t)))
  {
    assert IsArmed(c, ConnectTimeout);
    var spent := c.(armed := c.armed - {t});
    assert forall kind | IsArmed(spent, kind) :: IsArmed(c, kind);
    CloseSocketKeepsInv(spent);
  }

  lemma FiresKeepsInv(c: Client, t: nat)
    requires ClientInv(c)
    ensures ClientInv(Happen(c, TimerFires(t)))
  {
    if t in c.armed {
      match c.armed[t]
      case Reconnect => ReconnectFiresKeepsInv(c, t);
      case ConnectTimeout => TimeoutFiresKeepsInv(c, t);
      case Polling => assert forall kind :: IsArmed(Poll(c), kind) == IsArmed(c, kind);
    }
  }

  lemma TerminalKeepsInv(c: Client)
    requires ClientInv(c)
    ensures ClientInv(CloseSocket(StopPolling(c.(terminal := true))))
  {
    StopPollingKeepsInv(c);
    var c' := StopPolling(c.(terminal := true));
    assert c' == StopPolling(c).(terminal := true);
    assert forall kind | IsArmed(c', kind) :: IsArmed(StopPolling(c), kind);
    CloseSocketKeepsInv(c');
  }

  lemma LeavesKeepsInv(c: Client)
    requires ClientInv(c) && !c.stopped
    ensures ClientInv(Cleanup(c))
  {
    var c1 := Disarm(Disarm(c.(stopped := true), c.connectionTimer), c.reconnectTimer);
    var c2 := StopPolling(c1);
    assert forall t | t in c2.armed :: t in c.armed && c2.armed[t] == c.armed[t];
    assert c2.armed == map[];
    CloseSocketKeepsInv(c2);
  }

  /** Steps that change nothing the invariant speaks of. */
  lemma DataKeepsInv(c: Client, c': Client)
    requires ClientInv(c)
    requires c' == c.(previous := c'.previous, awaiting := c'.awaiting,
                      delivered := c'.delivered, fetching := c'.fetching)
    ensures ClientInv(c')
  {
    assert forall kind :: IsArmed(c', kind) == IsArmed(c, kind);
  }

  lemma ConfirmedKeepsInv(c: Client)
    requires ClientInv(c)
    ensures ClientInv(SubscriptionConfirmed(c))
  {
    StopPollingKeepsInv(c);
    var c' := SubscriptionConfirmed(c);
    assert c' == StopPolling(c).(reconnectAttempt := 0);
    assert forall kind :: IsArmed(c', kind) == IsArmed(StopPolling(c), kind);
  }

  lemma MessageKeepsInv(c: Client, i: nat, m: Incoming)
    requires ClientInv(c)
    ensures ClientInv(Happen(c, SocketMessage(i, m)))
  {
    if m.Confirmed? {
      ConfirmedKeepsInv(c);
    } else {
      DataKeepsInv(c, Happen(c, SocketMessage(i, m)));
    }
  }

  lemma FetchKeepsInv(c: Client, answer: Option<View>)
    requires ClientInv(c)
    ensures ClientInv(Happen(c, FetchEnds(answer)))
  {
    DataKeepsInv(c, Happen(c, FetchEnds(answer)));
  }

  lemma CallbackKeepsInv(c: Client, k: nat, rejected: bool)
    requires ClientInv(c)
    ensures ClientInv(Happen(c, CallbackEnds(k, rejected)))
  {
    if k < |c.awaiting| {
      var rest := c.(awaiting := c.awaiting[..k] + c.awaiting[k + 1..]);
      DataKeepsInv(c, rest);
      TerminalKeepsInv(rest);
    }
  }

  lemma HappenKeepsInv(c: Client, h: Happening)
    requires ClientInv(c)
    ensures ClientInv(Happen(c, h))
  {
    match h
    case SocketOpened(i) => OpenedKeepsInv(c, i);
    case SocketMessage(i, m) => MessageKeepsInv(c, i, m);
    case SocketError(_) => CloseSocketKeepsInv(c);
    case SocketClosed(i) => ClosedKeepsInv(c, i);
    case TimerFires(t) => FiresKeepsInv(c, t);
    case FetchEnds(answer) => FetchKeepsInv(c, answer);
    case CallbackEnds(k, rejected) => CallbackKeepsInv(c, k, rejected);
    case PageLeaves =>
      if !c.stopped {
        LeavesKeepsInv(c);
      }
  }

  lemma {:induction false} HappenAllKeepsInv(c: Client, run: seq<Happening>)
    requires ClientInv(c)
    ensures ClientInv(HappenAll(c, run))
    decreases |run|
  {
    if run != [] {
      HappenKeepsInv(c, run[0]);
      HappenAllKeepsInv(Happen(c, run[0]), run[1..]);
    }
  }

  // ------------------------------------------------------------------- theorems

  function ArmedOf(c: Client, kind: TimerKind): set<nat> { set t | t in c.armed && c.armed[t] == kind }

  function NotClosed(c: Client): set<nat> { set i | 0 <= i < |c.sockets| && !c.sockets[i].Closed? }

  lemma OneNamed(s: set<nat>, name: Option<nat>)
    requires forall t | t in s :: name == Some(t)
    ensures |s| <= 1
  {
    if s != {} {
      assert s == {name.value};
    }
  }

  /**
  While neither stopped nor terminal there is exactly one of: one socket that is not yet
  closed, one pending reconnect timer. In every state there is at most one of them.
  */
  lemma OneConnectionOrTimer(run: seq<Happening>)
    ensures var c := HappenAll(Started(), run);
      && |NotClosed(c)| + |ArmedOf(c, Reconnect)| <= 1
      && (!c.stopped && !c.terminal ==> |NotClosed(c)| + |ArmedOf(c, Reconnect)| == 1)
  {
    StartedInv();
    HappenAllKeepsInv(Started(), run);
    var c := HappenAll(Started(), run);
    OneNamed(ArmedOf(c, Reconnect), c.reconnectTimer);
    OneNamed(NotClosed(c), Some(Newest(c)));
    if Live(c) {
      assert NotClosed(c) == {Newest(c)} && ArmedOf(c, Reconnect) == {} by {
        assert forall t | t in ArmedOf(c, Reconnect) :: IsArmed(c, Reconnect);
      }
    } else {
      assert NotClosed(c) == {};
      if IsArmed(c, Reconnect) {
        assert c.reconnectTimer.value in ArmedOf(c, Reconnect);
      }
    }
  }

  /** One event's count: a confirmation starts over, a close that leads to a reconnect adds one. */
  function Counted(c: Client, h: Happening, before: nat): nat {
    if h.SocketMessage? && h.message.Confirmed? && h.i < |c.sockets| && c.sockets[h.i].Opened? then 0
    else if h.SocketClosed? && h.i < |c.sockets| && !c.sockets[h.i].Closed? && !c.stopped && !c.terminal then before + 1
    else before
  }

  /** Failed attempts since the last confirmed subscription. */
  function FailedSince(c: Client, run: seq<Happening>, before: nat): nat
    decreases |run|
  {
    if run == [] then before else FailedSince(Happen(c, run[0]), run[1..], Counted(c, run[0], before))
  }

  lemma AttemptIsCounted(c: Client, h: Happening)
    ensures Happen(c, h).reconnectAttempt == Counted(c, h, c.reconnectAttempt)
  {}

  lemma {:induction false} AttemptsCountFailures(c: Client, run: seq<Happening>)
    ensures HappenAll(c, run).reconnectAttempt == FailedSince(c, run, c.reconnectAttempt)
    decreases |run|
  {
    if run != [] {
      AttemptIsCounted(c, run[0]);
      AttemptsCountFailures(Happen(c, run[0]), run[1..]);
    }
  }

  /** Polling is active only after at least three failed attempts since the last subscription. */
  lemma PollingNeedsThreeFailures(run: seq<Happening>)
    requires IsArmed(HappenAll(Started(), run), Polling)
    ensures FailedSince(Started(), run, 0) >= 3
  {
    StartedInv();
    HappenAllKeepsInv(Started(), run);
    AttemptsCountFailures(Started(), run);
  }

  lemma EndIsFinal(c: Client, h: Happening)
    requires ClientInv(c) && (c.stopped || c.terminal)
    ensures var c' := Happen(c, h);
      && |c'.sockets| == |c.sockets| && (c.stopped ==> c'.stopped) && (c.terminal ==> c'.terminal)
      && (c.stopped ==> c'.nextTimer == c.nextTimer)
  {}

  /**
  After cleanup or a terminal job no socket is ever opened again; after cleanup no timer is
  pending and none is ever armed.
  */
  lemma {:induction false} NothingOpensAfterTheEnd(c: Client, run: seq<Happening>)
    requires ClientInv(c) && (c.stopped || c.terminal)
    ensures var c' := HappenAll(c, run);
      && |c'.sockets| == |c.sockets|
      && (c.stopped ==> c'.armed == map[] && c'.nextTimer == c.nextTimer)
    decreases |run|
  {
    if run != [] {
      EndIsFinal(c, run[0]);
      HappenKeepsInv(c, run[0]);
      NothingOpensAfterTheEnd(Happen(c, run[0]), run[1..]);
    }
  }

  /** The page never gets the same update twice in a row. */
  predicate DeliveriesOk(c: Client) {
    && (forall k | 0 < k < |c.delivered| :: c.delivered[k] != c.delivered[k - 1])
    && c.previous == (if c.delivered == [] then None else Some(c.delivered[|c.delivered| - 1]))
  }

  /** Only a message or a fetched job reaches the page. */
  lemma OthersDeliverNothing(c: Client, h: Happening)
    requires !h.SocketMessage? && !h.FetchEnds?
    ensures Happen(c, h).delivered == c.delivered && Happen(c, h).previous == c.previous
  {}

  lemma DeliverKeepsDeliveries(c: Client, view: View)
    requires DeliveriesOk(c)
    ensures DeliveriesOk(Deliver(c, view))
  {}

  lemma HappenKeepsDeliveries(c: Client, h: Happening)
    requires DeliveriesOk(c)
    ensures DeliveriesOk(Happen(c, h))
  {
    match h
    case SocketMessage(_, m) =>
      if m.JobMessage? {
        DeliverKeepsDeliveries(c, m.view);
      }
    case FetchEnds(answer) =>
      if answer.Some? {
        DeliverKeepsDeliveries(c.(fetching := c.fetching - if c.fetching > 0 then 1 else 0), answer.value);
      }
    case _ => OthersDeliverNothing(c, h);
  }

  lemma {:induction false} ConsecutiveDeliveriesDiffer(c: Client, run: seq<Happening>)
    requires DeliveriesOk(c)
    ensures DeliveriesOk(HappenAll(c, run))
    decreases |run|
  {
    if run != [] {
      HappenKeepsDeliveries(c, run[0]);
      ConsecutiveDeliveriesDiffer(Happen(c, run[0]), run[1..]);
    }
  }

  // ------------------------------------------------ nothing is left undone

  /** The views this event brings to the page's side of the connection. */
  function ReceivedNow(c: Client, h: Happening): seq<View> {
    match h
    case SocketMessage(i, m) => if i < |c.sockets| && c.sockets[i].Opened? && m.JobMessage? then [m.view] else []
    case FetchEnds(answer) => if c.fetching > 0 && answer.Some? then [answer.value] else []
    case _ => []
  }

  function Received(c: Client, run: seq<Happening>): seq<View>
    decreases |run|
  {
    if run == [] then [] else ReceivedNow(c, run[0]) + Received(Happen(c, run[0]), run[1..])
  }

  /** A list of views without those that repeat the one before them. */
  function Changes(before: Option<View>, views: seq<View>): seq<View>
    decreases |views|
  {
    if views == [] then []
    else (if before == Some(views[0]) then [] else [views[0]]) + Changes(Some(views[0]), views[1..])
  }

  lemma {:induction false} ChangesAppend(before: Option<View>, first: View, rest: seq<View>)
    ensures Changes(before, [first] + rest) ==
            (if before == Some(first) then [] else [first]) + Changes(Some(first), rest)
  {}

  lemma ChangesGoOn(before: Option<View>, now: seq<View>, rest: seq<View>)
    requires |now| <= 1
    ensures now == [] ==> Changes(before, now + rest) == Changes(before, rest)
    ensures now != [] ==>
      Changes(before, now + rest) == (if before == Some(now[0]) then [] else [now[0]]) + Changes(Some(now[0]), rest)
  {
    if now == [] {
      assert now + rest == rest;
    } else {
      assert now == [now[0]];
      ChangesAppend(before, now[0], rest);
    }
  }

  lemma DeliversNow(c: Client, h: Happening)
    ensures |ReceivedNow(c, h)| <= 1
    ensures ReceivedNow(c, h) == [] ==> Happen(c, h).delivered == c.delivered && Happen(c, h).previous == c.previous
    ensures ReceivedNow(c, h) != [] ==>
      var view := ReceivedNow(c, h)[0];
      && Happen(c, h).previous == Some(view)
      && Happen(c, h).delivered == c.delivered + if c.previous == Some(view) then [] else [view]
  {
    if !h.SocketMessage? && !h.FetchEnds? {
      OthersDeliverNothing(c, h);
    }
  }

  /** The page gets everything that was received, once per change. */
  lemma {:induction false} EveryChangeIsDelivered(c: Client, run: seq<Happening>)
    ensures HappenAll(c, run).delivered == c.delivered + Changes(c.previous, Received(c, run))
    decreases |run|
  {
    if run != [] {
      var now, rest := ReceivedNow(c, run[0]), Received(Happen(c, run[0]), run[1..]);
      DeliversNow(c, run[0]);
      EveryChangeIsDelivered(Happen(c, run[0]), run[1..]);
      ChangesGoOn(c.previous, now, rest);
    }
  }

  /** The event ends the page's callback for a finished job. */
  predicate FinishesNow(c: Client, h: Happening) {
    h.CallbackEnds? && !h.rejected && h.k < |c.awaiting| && c.awaiting[h.k].status in {COMPLETED, FAILED, CANCELLED}
  }

  predicate Finishes(c: Client, run: seq<Happening>)
    decreases |run|
  {
    run != [] && (FinishesNow(c, run[0]) || Finishes(Happen(c, run[0]), run[1..]))
  }

  lemma EndsNow(c: Client, h: Happening)
    ensures Happen(c, h).terminal <==> c.terminal || FinishesNow(c, h)
    ensures Happen(c, h).stopped <==> c.stopped || h.PageLeaves?
  {}

  /** The connection is over exactly when a finished job was delivered, and stopped exactly when the page left. */
  lemma {:induction false} EndsExactly(c: Client, run: seq<Happening>)
    ensures HappenAll(c, run).terminal <==> c.terminal || Finishes(c, run)
    ensures HappenAll(c, run).stopped <==> c.stopped || PageLeaves in run
    decreases |run|
  {
    if run != [] {
      EndsNow(c, run[0]);
      EndsExactly(Happen(c, run[0]), run[1..]);
      assert PageLeaves in run <==> run[0].PageLeaves? || PageLeaves in run[1..];
    }
  }

  /** From the third failure on there is polling, and a connecting socket has its timeout. */
  predicate Backed(c: Client) {
    && (!c.stopped && !c.terminal && c.reconnectAttempt >= 3 ==> c.pollingTimer.Some?)
    && (!c.stopped && Newest(c) >= 0 && c.sockets[Newest(c)].Connecting? ==>
          c.connectionTimer.Some? && c.connectionTimer.value in c.armed)
  }

  lemma ScheduleKeepsBacked(c: Client)
    requires TimersNamed(c) && Backed(c) && (Newest(c) >= 0 ==> !c.sockets[Newest(c)].Connecting?)
    ensures Backed(ScheduleReconnect(c))
  {}

  lemma ClosingKeepsBacked(c: Client)
    requires ClientInv(c) && Backed(c)
    ensures Backed(CloseSocket(c))
    ensures c.terminal || c.stopped ==> Backed(CloseSocket(StopPolling(c)))
  {}

  lemma TimerKeepsBacked(c: Client, t: nat)
    requires ClientInv(c) && Backed(c)
    ensures Backed(Happen(c, TimerFires(t)))
  {
    if t in c.armed && c.armed[t].ConnectTimeout? {
      assert c.connectionTimer == Some(t);
    }
  }

  lemma EndKeepsBacked(c: Client, h: Happening)
    requires ClientInv(c) && Backed(c) && (h.CallbackEnds? || h.PageLeaves?)
    ensures Backed(Happen(c, h))
  {}

  lemma StepKeepsBacked(c: Client, h: Happening)
    requires ClientInv(c) && Backed(c) && !h.SocketClosed?
    ensures Backed(Happen(c, h))
  {
    match h
    case TimerFires(t) => TimerKeepsBacked(c, t);
    case CallbackEnds(_, _) => EndKeepsBacked(c, h);
    case PageLeaves => EndKeepsBacked(c, h);
    case _ =>
  }

  lemma HappenKeepsBacked(c: Client, h: Happening)
    requires ClientInv(c) && Backed(c)
    ensures Backed(Happen(c, h))
  {
    if !h.SocketClosed? {
      StepKeepsBacked(c, h);
    } else if h.i < |c.sockets| && !c.sockets[h.i].Closed? {
      ScheduleKeepsBacked(ClearConnectionTimer(c.(sockets := c.sockets[h.i := Closed])));
    }
  }

  lemma {:induction false} HappenAllKeepsBacked(c: Client, run: seq<Happening>)
    requires ClientInv(c) && Backed(c)
    ensures Backed(HappenAll(c, run))
    decreases |run|
  {
    if run != [] {
      HappenKeepsInv(c, run[0]);
      HappenKeepsBacked(c, run[0]);
      HappenAllKeepsBacked(Happen(c, run[0]), run[1..]);
    }
  }

  lemma TickAsks(c: Client, t: nat)
    requires ClientInv(c)
    ensures Happen(c, TimerFires(t)).fetching - c.fetching == if t in c.armed && c.armed[t].Polling? then 1 else 0
    ensures Happen(c, TimerFires(t)).pollingTimer == c.pollingTimer
  {}

  /** Polling asks at once when it starts, and again at every tick. */
  lemma PollingAsks(c: Client, h: Happening)
    requires ClientInv(c)
    ensures var c' := Happen(c, h);
      c'.fetching - c.fetching ==
        (if h.TimerFires? && h.t in c.armed && c.armed[h.t].Polling? then 1 else 0)
        + (if c.pollingTimer.None? && c'.pollingTimer.Some? then 1 else 0)
        - (if h.FetchEnds? && c.fetching > 0 then 1 else 0)
  {
    if h.TimerFires? {
      TickAsks(c, h.t);
    }
  }

  /** An error, a connection timeout, a finished job and the end of the page all close the socket in use. */
  lemma TroubleCloses(c: Client, h: Happening)
    requires ClientInv(c) && Live(c)
    requires || h == SocketError(|c.sockets| - 1)
             || (h.TimerFires? && h.t in c.armed && c.armed[h.t].ConnectTimeout?)
             || FinishesNow(c, h)
             || (h.PageLeaves? && !c.stopped)
    ensures |Happen(c, h).sockets| == |c.sockets| && Happen(c, h).sockets[|c.sockets| - 1].Closing?
  {}

  /** A socket that opens in time has no timeout any more. */
  lemma OpeningClearsTimeout(c: Client, i: nat)
    requires ClientInv(c) && i < |c.sockets| && c.sockets[i].Connecting?
    ensures Happen(c, SocketOpened(i)).sockets[i].Opened? && !IsArmed(Happen(c, SocketOpened(i)), ConnectTimeout)
  {}

  // ------------------------------------------------------------- all promises

  /** What a run of events leaves true of the client. */
  predicate Promises(c: Client, run: seq<Happening>) {
    && |NotClosed(c)| + |ArmedOf(c, Reconnect)| <= 1
    && (!c.stopped && !c.terminal ==> |NotClosed(c)| + |ArmedOf(c, Reconnect)| == 1)
    && (IsArmed(c, Polling) ==> FailedSince(Started(), run, 0) >= 3)
    && (!c.stopped && !c.terminal && FailedSince(Started(), run, 0) >= 3 ==> IsArmed(c, Polling))
    && (!c.stopped && c.sockets != [] && c.sockets[|c.sockets| - 1].Connecting? ==> IsArmed(c, ConnectTimeout))
    && (c.stopped ==> c.armed == map[])
    && (c.stopped <==> PageLeaves in run) && (c.terminal <==> Finishes(Started(), run))
    && DeliveriesOk(c) && c.delivered == Changes(None, Received(Started(), run))
  }

  lemma BackedPromises(run: seq<Happening>)
    ensures var c := HappenAll(Started(), run);
      && (!c.stopped && !c.terminal && FailedSince(Started(), run, 0) >= 3 ==> IsArmed(c, Polling))
      && (!c.stopped && c.sockets != [] && c.sockets[|c.sockets| - 1].Connecting? ==> IsArmed(c, ConnectTimeout))
  {
    var c := HappenAll(Started(), run);
    StartedInv();
    HappenAllKeepsInv(Started(), run);
    HappenAllKeepsBacked(Started(), run);
    AttemptsCountFailures(Started(), run);
  }

  lemma PromisesHold(run: seq<Happening>)
    ensures Promises(HappenAll(Started(), run), run)
  {
    StartedInv();
    HappenAllKeepsInv(Started(), run);
    OneConnectionOrTimer(run);
    if IsArmed(HappenAll(Started(), run), Polling) {
      PollingNeedsThreeFailures(run);
    }
    BackedPromises(run);
    EndsExactly(Started(), run);
    EveryChangeIsDelivered(Started(), run);
    ConsecutiveDeliveriesDiffer(Started(), run);
  }

  lemma {:induction false} HappenAllNext(c: Client, run: seq<Happening>, h: Happening)
    ensures HappenAll(c, run + [h]) == Happen(HappenAll(c, run), h)
    decreases |run|
  {
    if run == [] {
      assert HappenAll(c, [h]) == HappenAll(Happen(c, h), []);
    } else {
      assert (run + [h])[1..] == run[1..] + [h];
      HappenAllNext(Happen(c, run[0]), run[1..], h);
    }
  }

  // ----------------------------------------------------------------- the object

  class JobConnection {
    var sockets: seq<SocketState>
    var armed: map<nat, TimerKind>
    var nextTimer: nat
    var reconnectTimer: Option<nat>
    var connectionTimer: Option<nat>
    var fallbackPollingTimer: Option<nat>
    var reconnectAttempt: nat
    var stopped: bool
    var terminalJobReached: bool
    var previousJobPayload: Option<View>
    var awaiting: seq<View>
    var fetching: nat
    var delivered: seq<View>
    ghost var happened: seq<Happening>

    function State(): Client
      reads this
    {
      Client(sockets, armed, nextTimer, reconnectTimer, connectionTimer, fallbackPollingTimer, reconnectAttempt,
             stopped, terminalJobReached, previousJobPayload, awaiting, fetching, delivered)
    }

    /** The object is where the events so far have brought it. */
    ghost predicate Valid()
      reads this
    {
      State() == HappenAll(Started(), happened)
    }

    constructor ()
      ensures State() == Started() && happened == [] && Valid()
    {
      sockets, armed, nextTimer := [Connecting], map[0 := ConnectTimeout], 1;
      reconnectTimer, connectionTimer, fallbackPollingTimer, reconnectAttempt := None, Some(0), None, 0;
      stopped, terminalJobReached, previousJobPayload := false, false, None;
      awaiting, fetching, delivered, happened := [], 0, [], [];
    }

    method SetTimer(kind: TimerKind) returns (t: nat)
      modifies this`armed, this`nextTimer
      ensures t == old(nextTimer) && State() == Arm(old(State()), kind)
    {
      t := nextTimer;
      armed := armed[t := kind];
      nextTimer := t + 1;
    }

    method ClearTimer(timer: Option<nat>)
      modifies this`armed
      ensures State() == Disarm(old(State()), timer)
    {
      if timer.Some? {
        armed := armed - {timer.value};
      }
    }

    method Close()
      modifies this`sockets
      ensures State() == CloseSocket(old(State()))
    {
      if |sockets| > 0 && sockets[|sockets| - 1] in {Connecting, Opened} {
        sockets := sockets[|sockets| - 1 := Closing];
      }
    }

    method StopFallbackPolling()
      modifies this`armed, this`fallbackPollingTimer
      ensures State() == StopPolling(old(State()))
    {
      if fallbackPollingTimer.Some? {
        ClearTimer(fallbackPollingTimer);
        fallbackPollingTimer := None;
      }
    }

    method StartFallbackPolling()
      modifies this
      ensures State() == StartPolling(old(State()))
      ensures happened == old(happened)
    {
      if fallbackPollingTimer.Some? || terminalJobReached {
        return;
      }
      fetching := fetching + 1;
      var t := SetTimer(Polling);
      fallbackPollingTimer := Some(t);
    }

    method ScheduleReconnection()
      modifies this
      ensures State() == ScheduleReconnect(old(State()))
      ensures happened == old(happened)
    {
      if stopped || terminalJobReached {
        return;
      }
      reconnectAttempt := reconnectAttempt + 1;
      if reconnectAttempt >= 3 {
        StartFallbackPolling();
      }
      var t := SetTimer(Reconnect);
      reconnectTimer := Some(t);
    }

    method OpenNewSocket()
      modifies this
      ensures State() == OpenSocket(old(State()))
      ensures happened == old(happened)
    {
      if stopped || terminalJobReached {
        return;
      }
      sockets := sockets + [Connecting];
      var t := SetTimer(ConnectTimeout);
      connectionTimer := Some(t);
    }

    method DeliverJobUpdate(view: View)
      modifies this
      ensures State() == Deliver(old(State()), view)
      ensures happened == old(happened)
    {
      if previousJobPayload == Some(view) {
        return;
      }
      previousJobPayload := Some(view);
      delivered := delivered + [view];
      awaiting := awaiting + [view];
    }

    method AfterCallback(view: View)
      modifies this
      ensures State() == CallbackDone(old(State()), view)
      ensures happened == old(happened)
    {
      if view.status in {COMPLETED, FAILED, CANCELLED} {
        terminalJobReached := true;
        StopFallbackPolling();
        Close();
      }
    }

    method OnSubscribed()
      modifies this
      ensures State() == SubscriptionConfirmed(old(State()))
      ensures happened == old(happened)
    {
      reconnectAttempt := 0;
      StopFallbackPolling();
    }

    method OnOpen(i: nat)
      requires i < |sockets| && sockets[i].Connecting?
      modifies this`sockets, this`armed, this`connectionTimer
      ensures State() == Happen(old(State()), SocketOpened(i))
    {
      sockets := sockets[i := Opened];
      ClearTimer(connectionTimer);
      connectionTimer := None;
    }

    method OnMessage(i: nat, message: Incoming)
      requires i < |sockets| && sockets[i].Opened?
      modifies this
      ensures State() == Happen(old(State()), SocketMessage(i, message))
      ensures happened == old(happened)
    {
      match message
      case Ready =>                          // answered with the subscribe command
      case Confirmed => OnSubscribed();
      case JobMessage(view) => DeliverJobUpdate(view);
      case ErrorText =>                      // shown to the user
    }

    method OnClose(i: nat)
      requires i < |sockets| && !sockets[i].Closed?
      modifies this
      ensures State() == Happen(old(State()), SocketClosed(i))
      ensures happened == old(happened)
    {
      sockets := sockets[i := Closed];
      ClearTimer(connectionTimer);
      connectionTimer := None;
      ScheduleReconnection();
    }

    /** The browser removes a timeout that fires; an interval stays. */
    method OnTimer(t: nat)
      requires t in armed
      modifies this
      ensures State() == Happen(old(State()), TimerFires(t))
      ensures happened == old(happened)
    {
      match armed[t]
      case Polling => fetching := fetching + 1;
      case Reconnect =>
        armed := armed - {t};
        OpenNewSocket();
      case ConnectTimeout =>
        armed := armed - {t};
        Close();
    }

    /** pollJobStatus after its request; a failed one is only shown. */
    method OnFetchEnd(answer: Option<View>)
      requires fetching > 0
      modifies this
      ensures State() == Happen(old(State()), FetchEnds(answer))
      ensures happened == old(happened)
    {
      fetching := fetching - 1;
      if answer.Some? {
        DeliverJobUpdate(answer.value);
      }
    }

    /** The page's callback ends; when it throws, the rest of deliverJobUpdate is skipped. */
    method OnCallbackEnd(k: nat, rejected: bool)
      requires k < |awaiting|
      modifies this
      ensures State() == Happen(old(State()), CallbackEnds(k, rejected))
      ensures happened == old(happened)
    {
      var view := awaiting[k];
      awaiting := awaiting[..k] + awaiting[k + 1..];
      if !rejected {
        AfterCallback(view);
      }
    }

    method Leave()
      requires !stopped
      modifies this
      ensures State() == Happen(old(State()), PageLeaves)
      ensures happened == old(happened)
    {
      stopped := true;
      ClearTimer(connectionTimer);
      ClearTimer(reconnectTimer);
      StopFallbackPolling();
      Close();
    }

    /** The browser dispatches one event; an event of something that is gone does not come. */
    method Dispatch(h: Happening)
      modifies this
      ensures State() == Happen(old(State()), h)
      ensures happened == old(happened)
    {
      match h
      case SocketOpened(i) =>
        if i < |sockets| && sockets[i].Connecting? {
          OnOpen(i);
        }
      case SocketMessage(i, message) =>
        if i < |sockets| && sockets[i].Opened? {
          OnMessage(i, message);
        }
      case SocketError(i) =>
        if i < |sockets| && !sockets[i].Closed? {
          Close();
        }
      case SocketClosed(i) =>
        if i < |sockets| && !sockets[i].Closed? {
          OnClose(i);
        }
      case TimerFires(t) =>
        if t in armed {
          OnTimer(t);
        }
      case FetchEnds(answer) =>
        if fetching > 0 {
          OnFetchEnd(answer);
        }
      case CallbackEnds(k, rejected) =>
        if k < |awaiting| {
          OnCallbackEnd(k, rejected);
        }
      case PageLeaves =>
        if !stopped {
          Leave();
        }
    }

    /** One turn of the event loop: what the theorems promise holds of the object after every one. */
    method Turn(h: Happening)
      requires Valid()
      modifies this
      ensures Valid() && happened == old(happened) + [h] && State() == Happen(old(State()), h)
      ensures Promises(State(), happened)
    {
      HappenAllNext(Started(), happened, h);
      Dispatch(h);
      happened := happened + [h];
      PromisesHold(happened);
    }
  }
}
