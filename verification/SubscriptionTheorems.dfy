/** What a WebSocket subscription promises under every interleaving of events. */
module SubscriptionTheorems {
  import opened Wrappers
  import opened Tables
  import opened JobSubscription
  import opened SubscriptionRuns

  predicate FullInv(c: Conn) { Inv(c) && WireOk(c.sent) && WireMatches(c) }

  /** Events in arrival order. */
  function Play(c: Conn, events: seq<SocketEvent>): (last: Conn)
    requires |c.subs| == |c.notes|
    ensures |last.subs| == |last.notes|
    decreases |events|
  {
    if events == [] then c else Play(Next(c, events[0]), events[1..])
  }

  lemma {:induction false} PlayKeepsFullInv(c: Conn, events: seq<SocketEvent>)
    requires FullInv(c)
    ensures FullInv(Play(c, events))
    decreases |events|
  {
    if events != [] {
      NextKeepsFullInv(c, events[0]);
      PlayKeepsFullInv(Next(c, events[0]), events[1..]);
    }
  }

  // ------------------------------------------------------------------ the wire

  lemma LastAfter(sent: seq<Sent>, x: Sent, i: nat)
    ensures LastUpdate(sent + [x], i) == if x.Update? && x.sub == i then Some(x) else LastUpdate(sent, i)
  {
    assert (sent + [x])[..|sent + [x]| - 1] == sent;
  }

  lemma WireAfter(sent: seq<Sent>, x: Sent)
    requires WireOk(sent)
    requires x.Update? ==>
      var last := LastUpdate(sent, x.sub);
      last.Some? && last.value.Update? ==> last.value.at <= x.at && last.value.view != x.view
    ensures WireOk(sent + [x])
  {
    forall k | 0 <= k < |sent + [x]| && (sent + [x])[k].Update?
      ensures var y := (sent + [x])[k];
        var before := LastUpdate((sent + [x])[..k], y.sub);
        before.Some? && before.value.Update? ==> before.value.at <= y.at && before.value.view != y.view
    {
      if k < |sent| {
        assert (sent + [x])[..k] == sent[..k];
      } else {
        assert (sent + [x])[..k] == sent;
      }
    }
  }

  lemma {:induction false} NoUpdateYet(sent: seq<Sent>, i: nat)
    requires forall k | 0 <= k < |sent| && sent[k].Update? :: sent[k].sub < i
    ensures LastUpdate(sent, i).None?
  {
    if sent != [] {
      NoUpdateYet(sent[..|sent| - 1], i);
    }
  }

  /** Events that send at most one control message and keep what the subscriptions know. */
  ghost predicate ControlStep(c: Conn, c': Conn)
    requires |c.subs| == |c.notes|
  {
    && |c'.subs| == |c'.notes| == |c.subs| && (c'.isOpen ==> c.isOpen)
    && (c'.sent == c.sent || exists m :: c'.sent == c.sent + [Control(m)])
    && (forall i | 0 <= i < |c.subs| ::
          c'.subs[i].previous == c.subs[i].previous && c'.notes[i].seen == c.notes[i].seen)
  }

  lemma ControlKeepsWire(c: Conn, c': Conn)
    requires FullInv(c) && ControlStep(c, c')
    ensures WireOk(c'.sent) && WireMatches(c')
  {
    if c'.sent != c.sent {
      var m :| c'.sent == c.sent + [Control(m)];
      WireAfter(c.sent, Control(m));
      forall i | 0 <= i < |c.subs|
        ensures LastUpdate(c'.sent, i) == LastUpdate(c.sent, i)
      {
        LastAfter(c.sent, Control(m), i);
      }
    }
  }

  lemma TagControl(c: Conn, sub: nat, at: nat, m: Message)
    requires !m.JobUpdate?
    ensures Tag(c, sub, at, [m]) == if c.isOpen then [Control(m)] else []
  {}

  /** What an accepted read leaves of object `i` and of the others. */
  predicate UpdateStep(c: Conn, c': Conn, i: nat, at: nat, view: View)
    requires |c.subs| == |c.notes|
  {
    && i < |c.subs| == |c'.subs| == |c'.notes| && c'.isOpen == c.isOpen
    && c'.sent == (if c.isOpen && c.subs[i].previous != Some(view) then c.sent + [Update(i, at, view)] else c.sent)
    && c'.subs[i].previous == Some(view) && c'.notes[i].seen == at && c.notes[i].seen <= at
    && (forall k | 0 <= k < |c.subs| && k != i ::
          c'.subs[k].previous == c.subs[k].previous && c'.notes[k].seen == c.notes[k].seen)
  }

  lemma UpdateLast(c: Conn, c': Conn, i: nat, at: nat, view: View, k: nat)
    requires FullInv(c) && UpdateStep(c, c', i, at, view) && k < |c.subs| && c'.sent != c.sent
    ensures LastUpdate(c'.sent, k) == if k == i then Some(Update(i, at, view)) else LastUpdate(c.sent, k)
  {
    LastAfter(c.sent, Update(i, at, view), k);
  }

  lemma UpdateMatches(c: Conn, c': Conn, i: nat, at: nat, view: View)
    requires FullInv(c) && UpdateStep(c, c', i, at, view)
    ensures WireMatches(c')
  {
    if c'.isOpen {
      forall k | 0 <= k < |c'.subs|
        ensures var last := LastUpdate(c'.sent, k);
          && last.Some? && last.value.Update?
          && last.value.at <= c'.notes[k].seen && c'.subs[k].previous == Some(last.value.view)
      {
        assert LastUpdate(c.sent, k).Some?;
        if c'.sent != c.sent {
          UpdateLast(c, c', i, at, view, k);
        }
      }
    }
  }

  /** One more update of object `i`, a newer version with a different view. */
  lemma UpdateKeepsWire(c: Conn, c': Conn, i: nat, at: nat, view: View)
    requires FullInv(c) && UpdateStep(c, c', i, at, view)
    ensures WireOk(c'.sent) && WireMatches(c')
  {
    UpdateMatches(c, c', i, at, view);
    if c'.sent != c.sent {
      assert LastUpdate(c.sent, i).Some?;
      WireAfter(c.sent, Update(i, at, view));
    }
  }

  /** What accepting a read does to its object and to the wire. */
  lemma AcceptEffect(c: Conn, r: nat, answer: Answer)
    requires Inv(c) && RefreshAnswered(c, r, answer) && c.current == Some(c.pending[r].sub)
    requires ReadOf(c, c.subs[c.pending[r].sub].jobId, answer).Found?
    ensures var c', i := RefreshEnded(c, r, answer), c.pending[r].sub;
      var view := ReadOf(c, c.subs[i].jobId, answer).view;
      && c'.isOpen == c.isOpen && i < |c'.subs| == |c'.notes|
      && c'.subs[i].previous == Some(view) && c'.notes[i].seen == answer.version
      && c'.sent == if c.isOpen && c.subs[i].previous != Some(view)
                    then c.sent + [Update(i, answer.version, view)] else c.sent
  {
    assert c.sent + [] == c.sent;
  }

  /** The current object accepted a read. */
  lemma AcceptKeepsWire(c: Conn, r: nat, answer: Answer)
    requires FullInv(c) && RefreshAnswered(c, r, answer) && c.current == Some(c.pending[r].sub)
    requires ReadOf(c, c.subs[c.pending[r].sub].jobId, answer).Found?
    ensures var c' := RefreshEnded(c, r, answer);
      |c'.subs| == |c'.notes| && WireOk(c'.sent) && WireMatches(c')
  {
    var i := c.pending[r].sub;
    assert SubOk(c, i) && PendingOk(c, r);
    RefreshEndedShape(c, r, answer);
    AcceptEffect(c, r, answer);
    UpdateKeepsWire(c, RefreshEnded(c, r, answer), i, answer.version, ReadOf(c, c.subs[i].jobId, answer).view);
  }

  /** A confirmation, then the first update of a new object. */
  predicate AddStep(c: Conn, c': Conn, hello: Message, at: nat, view: View)
    requires |c.subs| == |c.notes|
  {
    && |c'.subs| == |c'.notes| == |c.subs| + 1 && c'.isOpen == c.isOpen
    && c'.sent == (if c.isOpen then c.sent + [Control(hello)] + [Update(|c.subs|, at, view)] else c.sent)
    && c'.subs[|c.subs|].previous == Some(view) && c'.notes[|c.subs|].seen == at
    && (forall k | 0 <= k < |c.subs| ::
          c'.subs[k].previous == c.subs[k].previous && c'.notes[k].seen == c.notes[k].seen)
  }

  lemma AddMatches(c: Conn, c': Conn, hello: Message, at: nat, view: View)
    requires FullInv(c) && AddStep(c, c', hello, at, view)
    ensures WireMatches(c')
  {
    if c.isOpen {
      var x := Update(|c.subs|, at, view);
      forall k | 0 <= k < |c'.subs|
        ensures var last := LastUpdate(c'.sent, k);
          && last.Some? && last.value.Update?
          && last.value.at <= c'.notes[k].seen && c'.subs[k].previous == Some(last.value.view)
      {
        LastAfter(c.sent, Control(hello), k);
        LastAfter(c.sent + [Control(hello)], x, k);
      }
    }
  }

  lemma AddKeepsWireOk(c: Conn, c': Conn, hello: Message, at: nat, view: View)
    requires FullInv(c) && AddStep(c, c', hello, at, view)
    ensures WireOk(c'.sent)
  {
    if c.isOpen {
      NoUpdateYet(c.sent, |c.subs|);
      LastAfter(c.sent, Control(hello), |c.subs|);
      WireAfter(c.sent, Control(hello));
      WireAfter(c.sent + [Control(hello)], Update(|c.subs|, at, view));
    }
  }

  /** What accepting a lookup adds. */
  lemma LookupEffect(c: Conn, r: nat, answer: Answer)
    requires Inv(c) && LookupAnswered(c, r, answer) && c.version == c.pending[r].version
    requires ReadOf(c, c.pending[r].job, answer).Found?
    ensures AddStep(c, LookupEnded(c, r, answer), Message.Subscribed(c.pending[r].job), answer.version,
                    ReadOf(c, c.pending[r].job, answer).view)
  {}

  /** A lookup created a new object and confirmed it. */
  lemma AddKeepsWire(c: Conn, r: nat, answer: Answer)
    requires FullInv(c) && LookupAnswered(c, r, answer) && c.version == c.pending[r].version
    requires ReadOf(c, c.pending[r].job, answer).Found?
    ensures var c' := LookupEnded(c, r, answer);
      |c'.subs| == |c'.notes| && WireOk(c'.sent) && WireMatches(c')
  {
    var hello, view := Message.Subscribed(c.pending[r].job), ReadOf(c, c.pending[r].job, answer).view;
    LookupEffect(c, r, answer);
    AddMatches(c, LookupEnded(c, r, answer), hello, answer.version, view);
    AddKeepsWireOk(c, LookupEnded(c, r, answer), hello, answer.version, view);
  }

  /** Every event but an accepted read sends only control messages. */
  predicate Accepts(c: Conn, e: SocketEvent)
    requires Inv(c)
  {
    && e.Answered? && e.read in c.pending
    && ((RefreshAnswered(c, e.read, e.answer) && c.current == Some(c.pending[e.read].sub)
         && ReadOf(c, c.subs[c.pending[e.read].sub].jobId, e.answer).Found?)
     || (LookupAnswered(c, e.read, e.answer) && c.version == c.pending[e.read].version
         && ReadOf(c, c.pending[e.read].job, e.answer).Found?))
  }

  lemma RefusedReadSends(c: Conn, r: nat, answer: Answer)
    requires Inv(c) && RefreshAnswered(c, r, answer) && !Accepts(c, Answered(r, answer))
    ensures var sent := RefreshEnded(c, r, answer).sent;
      sent == c.sent || exists m :: sent == c.sent + [Control(m)]
  {
    var at := if answer.At? then answer.version else 0;
    TagControl(c, c.pending[r].sub, at, ErrorMessage("Job not found"));
    TagControl(c, c.pending[r].sub, at, ErrorMessage("Failed to fetch job status"));
    assert c.sent + [] == c.sent;
  }

  lemma RefusedReadIsControl(c: Conn, r: nat, answer: Answer)
    requires Inv(c) && RefreshAnswered(c, r, answer) && !Accepts(c, Answered(r, answer))
    ensures ControlStep(c, RefreshEnded(c, r, answer))
  {
    RefusedReadSends(c, r, answer);
    RefreshEndedShape(c, r, answer);
  }

  lemma RefusedLookupIsControl(c: Conn, r: nat, answer: Answer)
    requires Inv(c) && LookupAnswered(c, r, answer) && !Accepts(c, Answered(r, answer))
    ensures ControlStep(c, LookupEnded(c, r, answer))
  {
    var at := if answer.At? then answer.version else 0;
    TagControl(c, |c.subs|, at, ErrorMessage("Failed to handle WebSocket message"));
    TagControl(c, |c.subs|, at, ErrorMessage("Job not found"));
    assert c.sent + [] == c.sent;
  }

  lemma CallIsControl(c: Conn, i: nat)
    requires Inv(c) && i < |c.subs|
    ensures ControlStep(c, Call(c, i).(clock := c.clock + 1))
  {}

  lemma OthersAreControl(c: Conn, e: SocketEvent)
    requires Inv(c) && !e.Answered?
    ensures ControlStep(c, Next(c, e))
  {
    if (e.Notify? && c.current.Some? && c.subs[c.current.value].jobId == e.job) {
      CallIsControl(c, c.current.value);
    } else if e.Timer? && e.sub < |c.subs| && c.subs[e.sub].timer {
      CallIsControl(c, e.sub);
    } else if e.Invalid? {
      TagControl(c, 0, 0, ErrorMessage(e.text));
    } else if e.Unsubscribe? {
      TagControl(c, 0, 0, Message.Unsubscribed);
    }
    assert c.sent + [] == c.sent;
  }

  /** Every event sends at most one control message, unless it is an accepted read. */
  lemma UnacceptedIsControl(c: Conn, e: SocketEvent)
    requires Inv(c) && !Accepts(c, e)
    ensures ControlStep(c, Next(c, e))
  {
    if !e.Answered? {
      OthersAreControl(c, e);
    } else if RefreshAnswered(c, e.read, e.answer) {
      RefusedReadIsControl(c, e.read, e.answer);
    } else if LookupAnswered(c, e.read, e.answer) {
      RefusedLookupIsControl(c, e.read, e.answer);
    }
  }

  lemma NextKeepsFullInv(c: Conn, e: SocketEvent)
    requires FullInv(c)
    ensures FullInv(Next(c, e))
  {
    NextKeepsInv(c, e);
    if Accepts(c, e) {
      if RefreshAnswered(c, e.read, e.answer) {
        AcceptKeepsWire(c, e.read, e.answer);
      } else {
        AddKeepsWire(c, e.read, e.answer);
      }
    } else {
      UnacceptedIsControl(c, e);
      ControlKeepsWire(c, Next(c, e));
    }
  }

  lemma OpenFullInv(history: map<JobId, seq<Option<View>>>)
    ensures FullInv(Open(history))
  {}

  // ------------------------------------------------------------------- theorems

  /** Two refresh reads of one subscription object never overlap. */
  lemma ReadsNeverOverlap(history: map<JobId, seq<Option<View>>>, events: seq<SocketEvent>, r: nat, q: nat)
    requires var c := Play(Open(history), events);
      && r in c.pending && q in c.pending && c.pending[r].Refresh? && c.pending[q].Refresh?
      && c.pending[r].sub == c.pending[q].sub
    ensures r == q
  {
    OpenFullInv(history);
    PlayKeepsFullInv(Open(history), events);
    var c := Play(Open(history), events);
    assert PendingOk(c, r) && PendingOk(c, q);
  }

  /**
  Per subscription object, updates on the wire never go back in database order and
  consecutive ones differ; the previous payload is the latest accepted read, and only the
  current object has a timer.
  */
  lemma UpdatesMoveForward(history: map<JobId, seq<Option<View>>>, events: seq<SocketEvent>)
    ensures var c := Play(Open(history), events);
      && WireOk(c.sent)
      && forall i | 0 <= i < |c.subs| ::
           && i < |c.notes| && c.notes[i].seen <= Latest(c, c.subs[i].jobId)
           && c.subs[i].previous == Versions(c, c.subs[i].jobId)[c.notes[i].seen]
           && (c.subs[i].timer ==> c.current == Some(i))
  {
    OpenFullInv(history);
    PlayKeepsFullInv(Open(history), events);
    var c := Play(Open(history), events);
    forall i | 0 <= i < |c.subs|
      ensures i < |c.notes| && c.notes[i].seen <= Latest(c, c.subs[i].jobId)
      ensures c.subs[i].previous == Versions(c, c.subs[i].jobId)[c.notes[i].seen]
      ensures c.subs[i].timer ==> c.current == Some(i)
    {
      assert SubOk(c, i);
    }
  }

  /** No update of object `i` between these two states of the wire. */
  predicate SilentOn(sent: seq<Sent>, later: seq<Sent>, i: nat) {
    && |sent| <= |later|
    && forall k | |sent| <= k < |later| :: later[k].Update? ==> later[k].sub != i
  }

  lemma AcceptedElsewhere(c: Conn, e: SocketEvent, i: nat)
    requires Inv(c) && Accepts(c, e) && i < |c.subs| && c.current != Some(i)
    ensures SilentOn(c.sent, Next(c, e).sent, i)
  {
    if RefreshAnswered(c, e.read, e.answer) {
      AcceptEffect(c, e.read, e.answer);
    }
  }

  /** The current object changes only to none, or to an object that did not exist before. */
  lemma RetiredStaysApart(c: Conn, e: SocketEvent, i: nat)
    requires Inv(c) && i < |c.subs| && c.current != Some(i)
    ensures i < |Next(c, e).subs| && Next(c, e).current != Some(i)
  {
    if e.Answered? && RefreshAnswered(c, e.read, e.answer) {
      RefreshEndedShape(c, e.read, e.answer);
    }
  }

  lemma RetiredStaysRetired(c: Conn, e: SocketEvent, i: nat)
    requires FullInv(c) && i < |c.subs| && c.current != Some(i)
    ensures i < |Next(c, e).subs| && Next(c, e).current != Some(i) && SilentOn(c.sent, Next(c, e).sent, i)
  {
    RetiredStaysApart(c, e, i);
    if Accepts(c, e) {
      AcceptedElsewhere(c, e, i);
    } else {
      UnacceptedIsControl(c, e);
    }
  }

  /** Once replaced or cleared, a subscription object never sends an update again. */
  lemma {:induction false} RetiredSubscriptionIsSilent(c: Conn, events: seq<SocketEvent>, i: nat)
    requires FullInv(c) && i < |c.subs| && c.current != Some(i)
    ensures SilentOn(c.sent, Play(c, events).sent, i)
    decreases |events|
  {
    if events != [] {
      RetiredStaysRetired(c, events[0], i);
      NextKeepsFullInv(c, events[0]);
      SentOnlyGrows(Next(c, events[0]), events[1..]);
      RetiredSubscriptionIsSilent(Next(c, events[0]), events[1..], i);
    }
  }

  lemma {:induction false} SentOnlyGrows(c: Conn, events: seq<SocketEvent>)
    requires FullInv(c)
    ensures c.sent <= Play(c, events).sent
    decreases |events|
  {
    if events != [] {
      NextKeepsFullInv(c, events[0]);
      SentOnlyGrows(Next(c, events[0]), events[1..]);
    }
  }

  lemma LastIsPrevious(z: Conn, i: nat)
    requires FullInv(z) && i < |z.subs| && z.isOpen
    ensures exists at, view :: LastUpdate(z.sent, i) == Some(Update(i, at, view)) && z.subs[i].previous == Some(view)
  {
    LastIsOwn(z.sent, i);
    var last := LastUpdate(z.sent, i).value;
    assert last == Update(i, last.at, last.view);
  }

  lemma {:induction false} LastIsOwn(sent: seq<Sent>, i: nat)
    ensures LastUpdate(sent, i).Some? ==> LastUpdate(sent, i).value.Update? && LastUpdate(sent, i).value.sub == i
  {
    if sent != [] {
      LastIsOwn(sent[..|sent| - 1], i);
    }
  }
}
