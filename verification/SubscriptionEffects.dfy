/**
That a subscription does its work: subscribing takes effect and unsubscribing silences, the
browser is told how every read ended, and the safety timer runs exactly while it is needed.
*/
module SubscriptionEffects {
  import opened Wrappers
  import opened Tables
  import opened JobSubscription
  import opened SubscriptionRuns
  import opened SubscriptionTheorems
  import opened SubscriptionCalls

  // ------------------------------------------------------------- the safety timer

  /** The object and the view that this event makes its newest snapshot, if any. */
  function Taken(c: Conn, e: SocketEvent): Option<(nat, View)> {
    if !(e.Answered? && e.answer.At? && e.read in c.pending) then None
    else
      var p, v := c.pending[e.read], e.answer.version;
      match p
      case Refresh(i, _, since) =>
        if c.current == Some(i) && i < |c.subs| && since <= v <= Latest(c, c.subs[i].jobId)
           && Versions(c, c.subs[i].jobId)[v].Some?
        then Some((i, Versions(c, c.subs[i].jobId)[v].value)) else None
      case Lookup(job, version, _, since) =>
        if c.version == version && since <= v <= Latest(c, job) && Versions(c, job)[v].Some?
        then Some((|c.subs|, Versions(c, job)[v].value)) else None
  }

  /** All snapshots object `i` accepted, the one it started with included. */
  function Snapshots(c: Conn, events: seq<SocketEvent>, i: nat): seq<View>
    requires |c.subs| == |c.notes|
    decreases |events|
  {
    if events == [] then []
    else
      var t := Taken(c, events[0]);
      (if t.Some? && t.value.0 == i then [t.value.1] else []) + Snapshots(Next(c, events[0]), events[1..], i)
  }

  predicate Over(view: View) { view.status in {COMPLETED, FAILED, CANCELLED} }

  /** One event on the current object: its timer stops exactly at a snapshot of a finished job. */
  lemma TimerStep(c: Conn, e: SocketEvent, i: nat)
    requires Inv(c) && i < |c.subs| && c.current == Some(i) && Next(c, e).current == Some(i)
    ensures i < |Next(c, e).subs|
    ensures Next(c, e).subs[i].timer <==>
            c.subs[i].timer && !(Taken(c, e).Some? && Taken(c, e).value.0 == i && Over(Taken(c, e).value.1))
  {
    match e
    case Answered(r, answer) =>
      if RefreshAnswered(c, r, answer) {
        TimerAfterRead(c, r, answer, i);
      }
    case _ =>
  }

  lemma TimerAfterRead(c: Conn, r: nat, answer: Answer, i: nat)
    requires Inv(c) && RefreshAnswered(c, r, answer) && i < |c.subs| && c.current == Some(i)
    requires RefreshEnded(c, r, answer).current == Some(i)
    ensures |RefreshEnded(c, r, answer).subs| == |c.subs|
    ensures var t := Taken(c, Answered(r, answer));
      RefreshEnded(c, r, answer).subs[i].timer <==> c.subs[i].timer && !(t.Some? && t.value.0 == i && Over(t.value.1))
  {
    RefreshEndedShape(c, r, answer);
  }

  /** A new object starts with a timer exactly if the job is not finished. */
  lemma TimerStarts(c: Conn, e: SocketEvent)
    requires Inv(c) && |c.subs| < |Next(c, e).subs|
    ensures var i := |c.subs|;
      && |Next(c, e).subs| == i + 1 && Next(c, e).current == Some(i)
      && Taken(c, e).Some? && Taken(c, e).value.0 == i
      && (Next(c, e).subs[i].timer <==> !Over(Taken(c, e).value.1))
  {}

  lemma NothingTaken(c: Conn, e: SocketEvent, i: nat)
    requires Inv(c) && |Next(c, e).subs| <= i
    ensures !(Taken(c, e).Some? && Taken(c, e).value.0 == i)
  {}

  lemma {:induction false} TimerInRuns(c: Conn, events: seq<SocketEvent>, i: nat)
    requires FullInv(c) && (i < |c.subs| ==> c.current == Some(i)) && Play(c, events).current == Some(i)
    ensures i < |Play(c, events).subs|
    ensures Play(c, events).subs[i].timer <==>
            (i < |c.subs| ==> c.subs[i].timer) && forall v | v in Snapshots(c, events, i) :: !Over(v)
    decreases |events|
  {
    if events != [] {
      var next, t := Next(c, events[0]), Taken(c, events[0]);
      NextKeepsFullInv(c, events[0]);
      ObjectsStay(c, events[0]);
      if i < |next.subs| && next.current != Some(i) {
        RetiredForever(next, events[1..], i);
        assert false;
      }
      TimerInRuns(next, events[1..], i);
      if i < |c.subs| {
        TimerStep(c, events[0], i);
      } else if i < |next.subs| {
        TimerStarts(c, events[0]);
      } else {
        NothingTaken(c, events[0], i);
      }
      var rest := Snapshots(next, events[1..], i);
      assert Snapshots(c, events, i) == (if t.Some? && t.value.0 == i then [t.value.1] else []) + rest;
    }
  }

  /**
  The safety refresh runs exactly while it is needed: the current subscription has its timer
  if and only if no snapshot it accepted, the first one included, was of a finished job.
  */
  lemma TimerRunsUntilFinished(history: map<JobId, seq<Option<View>>>, events: seq<SocketEvent>, i: nat)
    requires Play(Open(history), events).current == Some(i)
    ensures i < |Play(Open(history), events).subs|
    ensures Play(Open(history), events).subs[i].timer <==>
            forall v | v in Snapshots(Open(history), events, i) :: v.status !in {COMPLETED, FAILED, CANCELLED}
  {
    OpenFullInv(history);
    TimerInRuns(Open(history), events, i);
  }

  // ------------------------------------------------------------ what the browser is told

  /** How the end of a refresh read of the current subscription shows on an open socket. */
  lemma RefreshAnswerIsTold(c: Conn, r: nat, answer: Answer)
    requires Inv(c) && RefreshAnswered(c, r, answer) && c.current == Some(c.pending[r].sub) && c.isOpen
    ensures var z, i := Next(c, Answered(r, answer)), c.pending[r].sub;
      && |z.subs| == |c.subs|
      && (answer.Rejected? ==>
            z.sent == c.sent + [Control(ErrorMessage("Failed to fetch job status"))] && z.current == Some(i))
      && (answer.At? && Versions(c, c.subs[i].jobId)[answer.version].None? ==>
            z.sent == c.sent + [Control(ErrorMessage("Job not found"))] && z.current.None?)
      && (answer.At? && Versions(c, c.subs[i].jobId)[answer.version].Some? ==>
            var view := Versions(c, c.subs[i].jobId)[answer.version].value;
            && z.current == Some(i) && z.subs[i].previous == Some(view)
            && z.sent == c.sent + if c.subs[i].previous == Some(view) then [] else [Update(i, answer.version, view)])
  {}

  /** How the end of a lookup shows on an open socket; an outdated one only if it failed. */
  lemma LookupAnswerIsTold(c: Conn, r: nat, answer: Answer)
    requires Inv(c) && LookupAnswered(c, r, answer) && c.isOpen
    ensures var z, p, i := Next(c, Answered(r, answer)), c.pending[r], |c.subs|;
      && (answer.Rejected? ==>
            z.sent == c.sent + [Control(ErrorMessage("Failed to handle WebSocket message"))] && z.current == c.current)
      && (answer.At? && c.version != p.version ==> z.sent == c.sent && z.current == c.current)
      && (answer.At? && c.version == p.version && Versions(c, p.job)[answer.version].None? ==>
            z.sent == c.sent + [Control(ErrorMessage("Job not found"))] && z.current == c.current)
      && (answer.At? && c.version == p.version && Versions(c, p.job)[answer.version].Some? ==>
            var view := Versions(c, p.job)[answer.version].value;
            && z.current == Some(i) && |z.subs| == i + 1 && z.subs[i].jobId == p.job && z.subs[i].previous == Some(view)
            && z.sent == c.sent + [Control(Message.Subscribed(p.job)), Update(i, answer.version, view)])
  {
    assert c.sent + [] == c.sent;
  }

  // ------------------------------------------------------ subscribing, unsubscribing

  /** No newer action of the browser, and not yet the answer. */
  predicate Undisturbed(events: seq<SocketEvent>, r: nat) {
    forall e | e in events :: !e.Subscribe? && !e.Unsubscribe? && !(e.Answered? && e.read == r)
  }

  lemma VersionStays(c: Conn, r: nat, answer: Answer)
    requires Inv(c) && RefreshAnswered(c, r, answer)
    ensures RefreshEnded(c, r, answer).version == c.version
  {}

  lemma LookupStays(c: Conn, e: SocketEvent, r: nat)
    requires Inv(c) && r in c.pending && c.pending[r].Lookup? && Undisturbed([e], r)
    ensures r in Next(c, e).pending && Next(c, e).pending[r] == c.pending[r] && Next(c, e).version == c.version
  {
    assert e in [e];
    NextReadIsNew(c);
    if e.Answered? && RefreshAnswered(c, e.read, e.answer) {
      RefreshEndedShape(c, e.read, e.answer);
      VersionStays(c, e.read, e.answer);
    }
  }

  lemma {:induction false} LookupWaits(c: Conn, events: seq<SocketEvent>, r: nat)
    requires FullInv(c) && r in c.pending && c.pending[r].Lookup? && Undisturbed(events, r)
    ensures var z := Play(c, events);
      FullInv(z) && r in z.pending && z.pending[r] == c.pending[r] && z.version == c.version
    decreases |events|
  {
    if events != [] {
      assert events[0] in events;
      assert Undisturbed([events[0]], r);
      LookupStays(c, events[0], r);
      NextKeepsFullInv(c, events[0]);
      LookupWaits(Next(c, events[0]), events[1..], r);
    }
  }

  /**
  Subscribing takes effect: whatever happens until the lookup answers, short of a newer
  action, the answer makes a subscription to this job the current one, with that snapshot.
  */
  lemma SubscribeTakesEffect(c: Conn, job: JobId, events: seq<SocketEvent>, v: nat)
    requires FullInv(c) && Undisturbed(events, c.nextRead)
    requires var z := Play(Next(c, Subscribe(job)), events);
      Latest(c, job) <= v <= Latest(z, job) && Versions(z, job)[v].Some?
    ensures var z := Play(Next(c, Subscribe(job)), events);
      var y, i := Next(z, Answered(c.nextRead, At(v))), |z.subs|;
      && y.current == Some(i) && i < |y.subs| && y.subs[i].jobId == job && y.subs[i].previous == Versions(z, job)[v]
  {
    NextKeepsFullInv(c, Subscribe(job));
    LookupWaits(Next(c, Subscribe(job)), events, c.nextRead);
  }

  /** Nothing is subscribed, and every lookup still running is outdated. */
  predicate Silenced(c: Conn) {
    c.current.None? && forall r | r in c.pending && c.pending[r].Lookup? :: c.pending[r].version < c.version
  }

  lemma UnsubscribeSilences(c: Conn)
    requires Inv(c)
    ensures Silenced(Next(c, Unsubscribe))
    ensures c.isOpen ==> Next(c, Unsubscribe).sent == c.sent + [Control(Message.Unsubscribed)]
  {
    forall r | r in c.pending && c.pending[r].Lookup?
      ensures c.pending[r].version <= c.version
    {
      assert PendingOk(c, r);
    }
  }

  predicate OnlyControl(sent: seq<Sent>, later: seq<Sent>) {
    sent <= later && forall k | |sent| <= k < |later| :: later[k].Control?
  }

  lemma SilencedStep(c: Conn, e: SocketEvent)
    requires Inv(c) && Silenced(c) && !e.Subscribe?
    ensures Silenced(Next(c, e)) && OnlyControl(c.sent, Next(c, e).sent)
  {
    assert !Accepts(c, e);
    UnacceptedIsControl(c, e);
    if e.Answered? && RefreshAnswered(c, e.read, e.answer) {
      RefreshEndedShape(c, e.read, e.answer);
    }
  }

  /** After an unsubscribe, until the next subscribe, no update reaches the browser. */
  lemma {:induction false} SilencedInRuns(c: Conn, events: seq<SocketEvent>)
    requires FullInv(c) && Silenced(c) && forall e | e in events :: !e.Subscribe?
    ensures Silenced(Play(c, events)) && OnlyControl(c.sent, Play(c, events).sent)
    decreases |events|
  {
    if events != [] {
      assert events[0] in events;
      SilencedStep(c, events[0]);
      NextKeepsFullInv(c, events[0]);
      SilencedInRuns(Next(c, events[0]), events[1..]);
    }
  }

  lemma UnsubscribedIsSilent(c: Conn, events: seq<SocketEvent>)
    requires FullInv(c) && forall e | e in events :: !e.Subscribe?
    ensures var u := Next(c, Unsubscribe);
      Play(u, events).current.None? && OnlyControl(u.sent, Play(u, events).sent)
  {
    UnsubscribeSilences(c);
    NextKeepsFullInv(c, Unsubscribe);
    SilencedInRuns(Next(c, Unsubscribe), events);
  }
}
