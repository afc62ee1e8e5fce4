/**
What becomes of a refresh call on a socket's current subscription: some read that started
at or after it is accepted, or a read failed. Both directions, in every interleaving.
*/
module SubscriptionCalls {
  import opened Wrappers
  import opened Tables
  import opened JobSubscription
  import opened SubscriptionRuns
  import opened SubscriptionTheorems

  /** The event calls refreshSubscription on the current object. */
  predicate CallsRefresh(c: Conn, e: SocketEvent, i: nat) {
    && c.current == Some(i) && i < |c.subs|
    && ((e.Notify? && e.job == c.subs[i].jobId) || (e.Timer? && e.sub == i && c.subs[i].timer))
  }

  // --------------------------------------------------- one call, in every later state

  /** What is known of a call on object `i` made at `time`, when the row had this version. */
  predicate Owed(c: Conn, i: nat, time: nat, version: nat)
    requires |c.subs| == |c.notes|
  {
    && i < |c.subs| && time < c.clock && version <= Latest(c, c.subs[i].jobId)
    && Served(c, i, time)
    && (time <= c.notes[i].accepted ==> version <= c.notes[i].seen)
    && (forall r | r in c.pending && c.pending[r].Refresh? && c.pending[r].sub == i ::
          time <= c.pending[r].clock ==> version <= c.pending[r].since)
  }

  lemma NextReadIsNew(c: Conn)
    requires Inv(c)
    ensures forall r | r in c.pending :: r < c.nextRead
  {
    forall r | r in c.pending
      ensures r < c.nextRead
    {
      assert PendingOk(c, r);
    }
  }

  lemma ObjectsStay(c: Conn, e: SocketEvent)
    requires |c.subs| == |c.notes|
    ensures |c.subs| <= |Next(c, e).subs|
  {}

  lemma CallIsOwed(c: Conn, e: SocketEvent, i: nat)
    requires Inv(c) && CallsRefresh(c, e, i)
    ensures Owed(Next(c, e), i, c.clock, Latest(c, c.subs[i].jobId))
    ensures Next(c, e).current == Some(i) && Next(c, e).subs[i].jobId == c.subs[i].jobId
  {
    assert SubOk(c, i);
    forall r | r in c.pending && c.pending[r].Refresh?
      ensures c.pending[r].clock < c.clock
    {
      assert PendingOk(c, r);
    }
  }

  lemma OwedAfterCall(c: Conn, i: nat, time: nat, version: nat)
    requires Inv(c) && Owed(c, i, time, version) && c.current == Some(i)
    ensures Owed(Call(c, i).(clock := c.clock + 1), i, time, version)
    ensures Call(c, i).subs[i].jobId == c.subs[i].jobId
  {
    assert SubOk(c, i);
    NextReadIsNew(c);
    if c.notes[i].reading.Some? {
      assert PendingOk(c, c.notes[i].reading.value);
    }
  }

  lemma OwedAfterRead(c: Conn, r: nat, answer: Answer, i: nat, time: nat, version: nat)
    requires Inv(c) && Owed(c, i, time, version) && RefreshAnswered(c, r, answer) && c.current == Some(i)
    requires RefreshEnded(c, r, answer).current == Some(i)
    ensures Owed(RefreshEnded(c, r, answer), i, time, version)
    ensures RefreshEnded(c, r, answer).subs[i].jobId == c.subs[i].jobId
  {
    assert SubOk(c, i) && PendingOk(c, r);
    NextReadIsNew(c);
    if c.pending[r].sub != i {
      RefreshEndedShape(c, r, answer);
    }
  }

  /** A finished lookup leaves what older objects wait for. */
  lemma LookupEndedShape(c: Conn, r: nat, answer: Answer, i: nat)
    requires Inv(c) && LookupAnswered(c, r, answer) && i < |c.subs|
    ensures var c' := LookupEnded(c, r, answer);
      && i < |c'.subs| == |c'.notes| && c'.notes[i] == c.notes[i] && c'.pending == c.pending - {r}
      && c'.subs[i].jobId == c.subs[i].jobId && c'.subs[i].refreshRequested == c.subs[i].refreshRequested
      && c'.history == c.history && c'.clock == c.clock + 1
  {}

  lemma OwedAfterLookup(c: Conn, r: nat, answer: Answer, i: nat, time: nat, version: nat)
    requires Inv(c) && Owed(c, i, time, version) && LookupAnswered(c, r, answer)
    ensures Owed(LookupEnded(c, r, answer), i, time, version)
    ensures LookupEnded(c, r, answer).subs[i].jobId == c.subs[i].jobId
  {
    assert SubOk(c, i);
    LookupEndedShape(c, r, answer, i);
  }

  lemma OwedAfterOthers(c: Conn, e: SocketEvent, i: nat, time: nat, version: nat)
    requires Inv(c) && Owed(c, i, time, version) && !e.Answered? && !e.Notify? && !e.Timer?
    ensures Owed(Next(c, e), i, time, version) && Next(c, e).subs[i].jobId == c.subs[i].jobId
  {
    assert SubOk(c, i);
    NextReadIsNew(c);
  }

  /** No event that leaves the object current loses track of a call. */
  lemma NextKeepsOwed(c: Conn, e: SocketEvent, i: nat, time: nat, version: nat)
    requires Inv(c) && Owed(c, i, time, version) && c.current == Some(i) && Next(c, e).current == Some(i)
    ensures Owed(Next(c, e), i, time, version) && Next(c, e).subs[i].jobId == c.subs[i].jobId
  {
    match e
    case Answered(r, answer) =>
      if RefreshAnswered(c, r, answer) {
        OwedAfterRead(c, r, answer, i, time, version);
      } else if LookupAnswered(c, r, answer) {
        OwedAfterLookup(c, r, answer, i, time, version);
      }
    case Notify(job) =>
      if c.subs[i].jobId == job {
        OwedAfterCall(c, i, time, version);
      }
    case Timer(k) =>
      if k < |c.subs| && c.subs[k].timer {
        assert SubOk(c, k);
        OwedAfterCall(c, i, time, version);
      }
    case _ => OwedAfterOthers(c, e, i, time, version);
  }

  lemma {:induction false} RetiredForever(c: Conn, events: seq<SocketEvent>, i: nat)
    requires FullInv(c) && i < |c.subs| && c.current != Some(i)
    ensures Play(c, events).current != Some(i)
    decreases |events|
  {
    if events != [] {
      RetiredStaysApart(c, events[0], i);
      NextKeepsFullInv(c, events[0]);
      RetiredForever(Next(c, events[0]), events[1..], i);
    }
  }

  lemma {:induction false} PlayKeepsOwed(c: Conn, events: seq<SocketEvent>, i: nat, time: nat, version: nat)
    requires FullInv(c) && Owed(c, i, time, version) && c.current == Some(i) && Play(c, events).current == Some(i)
    ensures Owed(Play(c, events), i, time, version) && Play(c, events).subs[i].jobId == c.subs[i].jobId
    decreases |events|
  {
    if events != [] {
      var next := Next(c, events[0]);
      NextKeepsFullInv(c, events[0]);
      if next.current == Some(i) {
        NextKeepsOwed(c, events[0], i, time, version);
        PlayKeepsOwed(next, events[1..], i, time, version);
      } else {
        ObjectsStay(c, events[0]);
        RetiredForever(next, events[1..], i);
      }
    }
  }

  /**
  No lost wakeup. After any refresh call on the current subscription, in every later state
  in which the subscription is still current, whether or not reads are pending and more
  calls came: a read that started at or after the call was accepted, or is pending, or
  follows the pending one, or a read failed since the call. Once such a read was accepted,
  the payload is a version at least as new as the database at the call, and while the
  socket is open it is the last update the browser was sent.
  */
  lemma NoLostWakeup(c: Conn, e: SocketEvent, events: seq<SocketEvent>, i: nat)
    requires FullInv(c) && CallsRefresh(c, e, i) && Play(Next(c, e), events).current == Some(i)
    ensures var z, job := Play(Next(c, e), events), c.subs[i].jobId;
      && i < |z.subs| == |z.notes| && z.subs[i].jobId == job
      && (c.clock <= z.notes[i].accepted || c.clock <= z.notes[i].failed || Waiting(z, i, c.clock))
      && (c.clock <= z.notes[i].accepted ==>
            Latest(c, job) <= z.notes[i].seen <= Latest(z, job)
            && z.subs[i].previous == Versions(z, job)[z.notes[i].seen])
      && (z.isOpen ==>
            exists at, view :: LastUpdate(z.sent, i) == Some(Update(i, at, view)) && z.subs[i].previous == Some(view))
  {
    var z := Play(Next(c, e), events);
    NextKeepsFullInv(c, e);
    CallIsOwed(c, e, i);
    PlayKeepsOwed(Next(c, e), events, i, c.clock, Latest(c, c.subs[i].jobId));
    PlayKeepsFullInv(Next(c, e), events);
    assert SubOk(z, i);
    if z.isOpen {
      LastIsPrevious(z, i);
    }
  }

  /**
  The end of a read decides the calls that wait for it. If the row was found, a call made
  before the read started is served now, and one made while it ran is served by the read
  that starts now; if the read failed, and only then, both are dropped with no read left.
  */
  lemma ReadDecides(c: Conn, r: nat, answer: Answer, time: nat)
    requires Inv(c) && RefreshAnswered(c, r, answer) && c.current == Some(c.pending[r].sub)
    requires var i := c.pending[r].sub; c.notes[i].accepted < time < c.clock && Waiting(c, i, time)
    requires RefreshEnded(c, r, answer).current == Some(c.pending[r].sub)
    ensures var z, i := RefreshEnded(c, r, answer), c.pending[r].sub;
      && |z.subs| == |z.notes| == |c.subs|
      && (answer.Rejected? <==> !(time <= z.notes[i].accepted || Waiting(z, i, time)))
      && (answer.Rejected? ==> z.notes[i].reading.None?)
      && (answer.At? && time <= c.pending[r].clock ==> time <= z.notes[i].accepted)
      && (answer.At? && c.pending[r].clock < time ==>
            z.notes[i].reading.Some? && z.notes[i].reading.value in z.pending
            && z.pending[z.notes[i].reading.value].clock == c.clock)
  {
    assert SubOk(c, c.pending[r].sub) && PendingOk(c, r);
  }

  // --------------------------------------------------------- exactly when it is served

  /** While a read is pending, the last call is neither served nor dropped yet. */
  predicate CallOk(c: Conn, i: nat)
    requires i < |c.subs| == |c.notes|
  {
    var n := c.notes[i];
    && n.failed < c.clock
    && (n.reading.Some? ==> n.accepted < n.called && n.failed < n.called)
    && (n.reading.Some? && n.reading.value in c.pending && c.subs[i].refreshRequested ==>
          c.pending[n.reading.value].clock < n.called)
    && (n.called <= n.failed ==> n.accepted < n.called)
  }

  predicate CallsOk(c: Conn)
    requires |c.subs| == |c.notes|
  {
    forall i | 0 <= i < |c.subs| :: CallOk(c, i)
  }

  lemma CallKeepsCallOk(c: Conn, k: nat, i: nat)
    requires Inv(c) && CallsOk(c) && k < |c.subs| && i < |c.subs|
    ensures CallOk(Call(c, k).(clock := c.clock + 1), i)
  {
    assert SubOk(c, i) && CallOk(c, i);
    if c.notes[i].reading.Some? {
      assert PendingOk(c, c.notes[i].reading.value);
    }
  }

  lemma ReadKeepsOwnCallOk(c: Conn, r: nat, answer: Answer)
    requires Inv(c) && CallsOk(c) && RefreshAnswered(c, r, answer)
    ensures |RefreshEnded(c, r, answer).subs| == |c.subs| == |RefreshEnded(c, r, answer).notes|
    ensures CallOk(RefreshEnded(c, r, answer), c.pending[r].sub)
  {
    var i := c.pending[r].sub;
    assert SubOk(c, i) && CallOk(c, i) && PendingOk(c, r);
  }

  lemma ReadKeepsOtherCallOk(c: Conn, r: nat, answer: Answer, i: nat)
    requires Inv(c) && CallsOk(c) && RefreshAnswered(c, r, answer) && i < |c.subs| && c.pending[r].sub != i
    ensures |RefreshEnded(c, r, answer).subs| == |c.subs| == |RefreshEnded(c, r, answer).notes|
    ensures CallOk(RefreshEnded(c, r, answer), i)
  {
    assert SubOk(c, i) && CallOk(c, i);
    NextReadIsNew(c);
    RefreshEndedShape(c, r, answer);
  }

  lemma LookupKeepsCallsOk(c: Conn, r: nat, answer: Answer)
    requires Inv(c) && CallsOk(c) && LookupAnswered(c, r, answer)
    ensures CallsOk(LookupEnded(c, r, answer))
  {
    assert PendingOk(c, r);
    var c' := LookupEnded(c, r, answer);
    forall i | 0 <= i < |c'.subs|
      ensures CallOk(c', i)
    {
      if i < |c.subs| {
        assert SubOk(c, i) && CallOk(c, i);
        LookupEndedShape(c, r, answer, i);
      }
    }
  }

  lemma OthersKeepCallsOk(c: Conn, e: SocketEvent)
    requires Inv(c) && CallsOk(c) && !e.Answered? && !e.Notify? && !e.Timer?
    ensures CallsOk(Next(c, e))
  {
    var c' := Next(c, e);
    NextReadIsNew(c);
    forall i | 0 <= i < |c'.subs|
      ensures CallOk(c', i)
    {
      assert SubOk(c, i) && CallOk(c, i);
    }
  }

  lemma IdleKeepsCallsOk(c: Conn, c': Conn)
    requires Inv(c) && CallsOk(c) && c' == c.(clock := c.clock + 1)
    ensures CallsOk(c')
  {
    forall i | 0 <= i < |c'.subs|
      ensures CallOk(c', i)
    {
      assert CallOk(c, i);
    }
  }

  lemma AnsweredKeepsCallsOk(c: Conn, r: nat, answer: Answer)
    requires Inv(c) && CallsOk(c)
    ensures CallsOk(Next(c, Answered(r, answer)))
  {
    if RefreshAnswered(c, r, answer) {
      RefreshEndedShape(c, r, answer);
      forall i | 0 <= i < |c.subs|
        ensures CallOk(RefreshEnded(c, r, answer), i)
      {
        if i == c.pending[r].sub {
          ReadKeepsOwnCallOk(c, r, answer);
        } else {
          ReadKeepsOtherCallOk(c, r, answer, i);
        }
      }
    } else if LookupAnswered(c, r, answer) {
      LookupKeepsCallsOk(c, r, answer);
    } else {
      IdleKeepsCallsOk(c, Next(c, Answered(r, answer)));
    }
  }

  lemma CalledKeepsCallsOk(c: Conn, k: nat)
    requires Inv(c) && CallsOk(c) && k < |c.subs|
    ensures CallsOk(Call(c, k).(clock := c.clock + 1))
  {
    var c' := Call(c, k).(clock := c.clock + 1);
    forall i | 0 <= i < |c'.subs|
      ensures CallOk(c', i)
    {
      CallKeepsCallOk(c, k, i);
    }
  }

  lemma NextKeepsCallsOk(c: Conn, e: SocketEvent)
    requires Inv(c) && CallsOk(c)
    ensures CallsOk(Next(c, e))
  {
    match e
    case Answered(r, answer) => AnsweredKeepsCallsOk(c, r, answer);
    case Notify(job) =>
      if c.current.Some? && c.subs[c.current.value].jobId == job {
        CalledKeepsCallsOk(c, c.current.value);
      } else {
        IdleKeepsCallsOk(c, Next(c, e));
      }
    case Timer(k) =>
      if k < |c.subs| && c.subs[k].timer {
        CalledKeepsCallsOk(c, k);
      } else {
        IdleKeepsCallsOk(c, Next(c, e));
      }
    case _ => OthersKeepCallsOk(c, e);
  }

  lemma {:induction false} PlayKeepsCallsOk(c: Conn, events: seq<SocketEvent>)
    requires FullInv(c) && CallsOk(c)
    ensures FullInv(Play(c, events)) && CallsOk(Play(c, events))
    decreases |events|
  {
    if events != [] {
      NextKeepsFullInv(c, events[0]);
      NextKeepsCallsOk(c, events[0]);
      PlayKeepsCallsOk(Next(c, events[0]), events[1..]);
    }
  }

  /** No refresh read of object `i` is pending. */
  predicate Quiet(c: Conn, i: nat) {
    forall r | r in c.pending && c.pending[r].Refresh? :: c.pending[r].sub != i
  }

  /**
  Exactly when the last refresh call was served: on a current subscription with no read
  pending, a read that started at or after the last call was accepted if and only if no
  read failed since that call.
  */
  lemma LastCallIsServedExactly(history: map<JobId, seq<Option<View>>>, events: seq<SocketEvent>, i: nat)
    requires var z := Play(Open(history), events); z.current == Some(i) && Quiet(z, i)
    ensures var z := Play(Open(history), events);
      && i < |z.subs| == |z.notes|
      && (z.notes[i].called <= z.notes[i].accepted <==> z.notes[i].failed < z.notes[i].called)
  {
    OpenFullInv(history);
    PlayKeepsCallsOk(Open(history), events);
    var z := Play(Open(history), events);
    assert SubOk(z, i) && CallOk(z, i) && CallServed(z, i);
  }

  /** A failed read of the current object drops its last call: no read is left and nothing was accepted. */
  lemma FailedReadDropsCalls(c: Conn, r: nat)
    requires FullInv(c) && CallsOk(c) && r in c.pending && c.pending[r].Refresh? && c.current == Some(c.pending[r].sub)
    ensures var i, c' := c.pending[r].sub, Next(c, Answered(r, Rejected));
      && c'.current == Some(i) && i < |c'.notes| == |c'.subs| && !c'.subs[i].isRefreshing && Quiet(c', i)
      && c'.notes[i].accepted < c'.notes[i].called && c'.subs[i].previous == c.subs[i].previous
  {
    var i := c.pending[r].sub;
    assert PendingOk(c, r) && SubOk(c, i) && CallOk(c, i);
    forall q | q in c.pending && q != r && c.pending[q].Refresh?
      ensures c.pending[q].sub != i
    {
      assert PendingOk(c, q);
    }
  }

  // ----------------------------------------------------------- dropped calls exist

  /** A fresh socket subscribes to a job that has one version. */
  function Subscribing(job: JobId): seq<SocketEvent> { [Subscribe(job), Answered(0, At(0))] }

  /** Its state: one object that was sent this view. */
  function Watching(job: JobId, view: View): Conn {
    Conn(2, map[job := [Some(view)]], true, 1, Some(0), [NewSubscription(job, view)], [Notes(None, 0, 0, 0, 0, -1)],
         map[], 1, [Control(Message.Subscribed(job)), Update(0, 0, view)])
  }

  lemma PlayOne(c: Conn, e: SocketEvent)
    requires |c.subs| == |c.notes|
    ensures Play(c, [e]) == Next(c, e)
  {}

  lemma {:induction false} PlayAppend(c: Conn, first: seq<SocketEvent>, second: seq<SocketEvent>)
    requires |c.subs| == |c.notes|
    ensures Play(c, first + second) == Play(Play(c, first), second)
    decreases |first|
  {
    if first == [] {
      assert first + second == second;
    } else {
      assert (first + second)[1..] == first[1..] + second;
      PlayAppend(Next(c, first[0]), first[1..], second);
    }
  }

  lemma PlayTwo(c: Conn, e: SocketEvent, f: SocketEvent)
    requires |c.subs| == |c.notes|
    ensures Play(c, [e, f]) == Next(Next(c, e), f)
  {
    assert [e, f] == [e] + [f];
    PlayAppend(c, [e], [f]);
  }

  lemma SubscribingWatches(job: JobId, view: View)
    ensures Play(Open(map[job := [Some(view)]]), Subscribing(job)) == Watching(job, view)
  {
    var c := Open(map[job := [Some(view)]]);
    var asked := Next(c, Subscribe(job));
    assert asked == c.(clock := 1, version := 1, pending := map[0 := Lookup(job, 1, 0, 0)], nextRead := 1);
    PlayTwo(c, Subscribe(job), Answered(0, At(0)));
    var answered := Next(asked, Answered(0, At(0)));
    assert answered.pending == map[];
    assert answered.sent == [Control(Message.Subscribed(job)), Update(0, 0, view)];
  }

  /** The socket never learns of the newest version, and nothing will tell it: no read is left. */
  predicate MissedIt(z: Conn, i: nat, job: JobId) {
    && i < |z.subs| == |z.notes| && z.isOpen && z.current == Some(i) && z.subs[i].jobId == job && z.pending == map[]
    && z.notes[i].accepted < z.notes[i].called
    && z.notes[i].calledVersion == Latest(z, job) && z.subs[i].previous != Versions(z, job)[Latest(z, job)]
  }

  /** A notification remembered while a read runs is dropped when that read fails. */
  lemma RememberedCallIsDropped(job: JobId, view: View, later: View)
    requires view != later
    ensures var events :=
        Subscribing(job) + [Notify(job), DbChange(job, Some(later))] + [Notify(job), Answered(1, Rejected)];
      MissedIt(Play(Open(map[job := [Some(view)]]), events), 0, job)
  {
    var c := Open(map[job := [Some(view)]]);
    var w := Watching(job, view);
    SubscribingWatches(job, view);
    PlayAppend(c, Subscribing(job), [Notify(job), DbChange(job, Some(later))]);
    PlayAppend(c, Subscribing(job) + [Notify(job), DbChange(job, Some(later))], [Notify(job), Answered(1, Rejected)]);
    PlayTwo(w, Notify(job), DbChange(job, Some(later)));
    var reading := Next(w, Notify(job));
    assert reading.pending == map[1 := Refresh(0, 2, 0)];
    var changed := Next(reading, DbChange(job, Some(later)));
    PlayTwo(changed, Notify(job), Answered(1, Rejected));
    var remembered := Next(changed, Notify(job));
    assert remembered.pending == map[1 := Refresh(0, 2, 0)] && remembered.notes[0].called == 4;
    assert Next(remembered, Answered(1, Rejected)).pending == map[];
  }

  /** So is the call whose own read fails. */
  lemma OwnReadFailureDropsCall(job: JobId, view: View, later: View)
    requires view != later
    ensures var events := Subscribing(job) + [DbChange(job, Some(later)), Notify(job)] + [Answered(1, Rejected)];
      MissedIt(Play(Open(map[job := [Some(view)]]), events), 0, job)
  {
    var c := Open(map[job := [Some(view)]]);
    var w := Watching(job, view);
    SubscribingWatches(job, view);
    PlayAppend(c, Subscribing(job), [DbChange(job, Some(later)), Notify(job)]);
    PlayAppend(c, Subscribing(job) + [DbChange(job, Some(later)), Notify(job)], [Answered(1, Rejected)]);
    PlayTwo(w, DbChange(job, Some(later)), Notify(job));
    var changed := Next(w, DbChange(job, Some(later)));
    var reading := Next(changed, Notify(job));
    assert reading.pending == map[1 := Refresh(0, 3, 1)] && reading.notes[0].called == 3;
    PlayOne(reading, Answered(1, Rejected));
    assert Next(reading, Answered(1, Rejected)).pending == map[];
  }
}
