/**
One socket over time: client commands, Kafka notifications, safety timers, database
changes and the ends of awaited reads, interleaved in any order. Subscription objects are
numbered in creation order; a database version is a position in the job's history.
*/
module SubscriptionRuns {
  import opened Wrappers
  import opened Tables
  import opened JobSubscription

  /** An awaited read: who waits, and when it started (event number and database version). */
  datatype Pending =
    | Refresh(sub: nat, clock: nat, since: nat)
    | Lookup(job: JobId, version: nat, clock: nat, since: nat)

  /**
  Observations about one subscription object: the read it waits for; the version of the
  last read it accepted and the event number at which that read started; the event number
  and version of the last refresh call made while it was current; the last failed read.
  */
  datatype Notes = Notes(
    reading: Option<nat>, seen: nat, accepted: nat, called: nat, calledVersion: nat, failed: int)

  /** A message on the wire; an update remembers its subscription object and version. */
  datatype Sent = Update(sub: nat, at: nat, view: View) | Control(message: Message)

  datatype Conn = Conn(
    clock: nat,
    history: map<JobId, seq<Option<View>>>,
    isOpen: bool,
    version: nat,
    current: Option<nat>,
    subs: seq<Sub>,
    notes: seq<Notes>,
    pending: map<nat, Pending>,
    nextRead: nat,
    sent: seq<Sent>)

  function Open(history: map<JobId, seq<Option<View>>>): Conn {
    Conn(0, history, true, 0, None, [], [], map[], 0, [])
  }

  /** The versions of a job's row as this socket's owner sees it; a job nobody wrote is absent. */
  function Versions(c: Conn, job: JobId): seq<Option<View>> {
    if job in c.history && c.history[job] != [] then c.history[job] else [None]
  }

  function Latest(c: Conn, job: JobId): nat { |Versions(c, job)| - 1 }

  datatype Answer = At(version: nat) | Rejected

  datatype SocketEvent =
    | DbChange(job: JobId, view: Option<View>)
    | Subscribe(job: JobId)
    | Unsubscribe
    | Invalid(text: string)
    | Notify(job: JobId)
    | Timer(sub: nat)
    | Answered(read: nat, answer: Answer)
    | Close

  // ---------------------------------------------------------------- steps

  function Tag(c: Conn, sub: nat, at: nat, messages: seq<Message>): seq<Sent> {
    if c.isOpen then
      seq(|messages|, i requires 0 <= i < |messages| =>
        if messages[i].JobUpdate? then Update(sub, at, messages[i].view) else Control(messages[i]))
    else []
  }

  /** clearSubscription: the current object loses its timer and its place. */
  function Clear(c: Conn): (next: Conn)
    ensures |next.subs| == |c.subs| && next.notes == c.notes && next.clock == c.clock && next.sent == c.sent
  {
    if c.current.Some? && c.current.value < |c.subs| then
      c.(subs := c.subs[c.current.value := Cleared(c.subs[c.current.value])], current := None)
    else c.(current := None)
  }

  /** A refresh read of object `i` starts now. */
  function StartRead(c: Conn, i: nat): (next: Conn)
    requires i < |c.subs| == |c.notes|
    ensures |next.subs| == |next.notes| && next.clock == c.clock && c.sent <= next.sent
  {
    c.(pending := c.pending[c.nextRead := Refresh(i, c.clock, Latest(c, c.subs[i].jobId))],
       nextRead := c.nextRead + 1,
       notes := c.notes[i := c.notes[i].(reading := Some(c.nextRead))])
  }

  /** A call of refreshSubscription on object `i`. */
  function Call(c: Conn, i: nat): (next: Conn)
    requires i < |c.subs| == |c.notes|
    ensures |next.subs| == |next.notes| && next.clock == c.clock && c.sent <= next.sent
  {
    var current := c.current == Some(i);
    var (sub, starts) := RefreshCalled(c.subs[i], current);
    var noted := if current
      then c.notes[i].(called := c.clock, calledVersion := Latest(c, c.subs[i].jobId)) else c.notes[i];
    var called := c.(subs := c.subs[i := sub], notes := c.notes[i := noted]);
    if starts then StartRead(called, i) else called
  }

  function ReadOf(c: Conn, job: JobId, answer: Answer): Read
    requires answer.At? ==> answer.version < |Versions(c, job)|
  {
    if answer.Rejected? then ReadFailed
    else match Versions(c, job)[answer.version]
         case None => Missing
         case Some(view) => Found(view)
  }

  /** The awaited refresh read `r` of object `i` ends. */
  function ResumeRefresh(c: Conn, r: nat, i: nat, start: nat, answer: Answer): (next: Conn)
    requires i < |c.subs| == |c.notes| && (answer.At? ==> answer.version < |Versions(c, c.subs[i].jobId)|)
    ensures |next.subs| == |next.notes| && next.clock == c.clock && c.sent <= next.sent
  {
    var current := c.current == Some(i);
    var read := ReadOf(c, c.subs[i].jobId, answer);
    var e := RefreshResumed(c.subs[i], current, read);
    var at := if answer.At? then answer.version else 0;
    var noted := c.notes[i].(reading := None);
    var noted' := if read.ReadFailed? then noted.(failed := c.clock)
                  else if current && read.Found? then noted.(seen := at, accepted := start) else noted;
    var next := c.(
      pending := c.pending - {r},
      subs := c.subs[i := e.sub],
      notes := c.notes[i := noted'],
      current := if e.clears then None else c.current,
      sent := c.sent + Tag(c, i, at, e.messages));
    if e.readsAgain then StartRead(next, i) else next
  }

  /** The awaited lookup of subscribeToJob ends. */
  function ResumeLookup(c: Conn, r: nat, p: Pending, answer: Answer): (next: Conn)
    requires p.Lookup? && (answer.At? ==> answer.version < |Versions(c, p.job)|)
    requires |c.subs| == |c.notes|
    ensures |next.subs| == |next.notes| && next.clock == c.clock && c.sent <= next.sent
  {
    var l := LookupResumed(p.job, c.version == p.version, ReadOf(c, p.job, answer));
    var base := c.(
      pending := c.pending - {r},
      sent := c.sent + Tag(c, |c.subs|, if answer.At? then answer.version else 0, l.messages));
    if l.replacement.None? then base
    else
      var cleared := Clear(base);
      cleared.(
        subs := cleared.subs + [l.replacement.value],
        notes := cleared.notes + [Notes(None, answer.version, p.clock, p.clock, p.since, -1)],
        current := Some(|c.subs|))
  }

  /** A read sees some version between its start and its end. */
  predicate Answers(c: Conn, job: JobId, since: nat, answer: Answer) {
    answer.At? ==> since <= answer.version <= Latest(c, job)
  }

  function Handle(c: Conn, e: SocketEvent): (next: Conn)
    requires |c.subs| == |c.notes|
    ensures |next.subs| == |next.notes| && next.clock == c.clock && c.sent <= next.sent
  {
    match e
    case DbChange(job, view) => c.(history := c.history[job := Versions(c, job) + [view]])
    case Subscribe(job) =>
      c.(version := NextVersion(c.version),
         pending := c.pending[c.nextRead := Lookup(job, NextVersion(c.version), c.clock, Latest(c, job))],
         nextRead := c.nextRead + 1)
    case Unsubscribe =>
      Clear(c).(version := NextVersion(c.version), sent := c.sent + Tag(c, 0, 0, UNSUBSCRIBED))
    case Invalid(text) => c.(sent := c.sent + Tag(c, 0, 0, [ErrorMessage(text)]))
    case Notify(job) =>
      if c.current.Some? && c.current.value < |c.subs| && c.subs[c.current.value].jobId == job
      then Call(c, c.current.value) else c
    case Timer(i) => if i < |c.subs| && c.subs[i].timer then Call(c, i) else c
    case Answered(r, answer) =>
      if r !in c.pending then c
      else if c.pending[r].Refresh? then
        var i := c.pending[r].sub;
        if i < |c.subs| && Answers(c, c.subs[i].jobId, c.pending[r].since, answer)
        then ResumeRefresh(c, r, i, c.pending[r].clock, answer) else c
      else
        if Answers(c, c.pending[r].job, c.pending[r].since, answer)
        then ResumeLookup(c, r, c.pending[r], answer) else c
    case Close => Clear(c).(isOpen := false)
  }

  /** One event; events are numbered by the clock. */
  function Next(c: Conn, e: SocketEvent): (next: Conn)
    requires |c.subs| == |c.notes|
    ensures |next.subs| == |next.notes| && next.clock == c.clock + 1 && c.sent <= next.sent
  {
    Handle(c, e).(clock := c.clock + 1)
  }

  // ------------------------------------------------------------ the invariant

  /** Timers belong to the current subscription, and refreshing means waiting for one read. */
  predicate SubOk(c: Conn, i: nat)
    requires i < |c.subs| == |c.notes|
  {
    var sub, n := c.subs[i], c.notes[i];
    && (sub.timer ==> c.current == Some(i))
    && (sub.isRefreshing <==> n.reading.Some?)
    && (n.reading.Some? ==> n.reading.value in c.pending && c.pending[n.reading.value].Refresh?
                            && c.pending[n.reading.value].sub == i)
    && n.seen <= Latest(c, sub.jobId)
    && sub.previous.Some? && Versions(c, sub.jobId)[n.seen] == sub.previous
    && n.called < c.clock && n.accepted < c.clock && n.calledVersion <= Latest(c, sub.jobId)
    && (n.called <= n.accepted ==> n.calledVersion <= n.seen)
  }

  /** A pending refresh read is the one its object waits for, and started from what it has seen. */
  predicate PendingOk(c: Conn, r: nat)
    requires r in c.pending && |c.subs| == |c.notes|
  {
    r < c.nextRead &&
    match c.pending[r]
    case Refresh(i, clock, since) =>
      && i < |c.subs| && c.notes[i].reading == Some(r)
      && c.notes[i].seen <= since <= Latest(c, c.subs[i].jobId) && clock < c.clock
      && c.notes[i].accepted <= clock
      && (c.notes[i].called <= clock ==> c.notes[i].calledVersion <= since)
    case Lookup(job, version, clock, since) =>
      since <= Latest(c, job) && clock < c.clock && version <= c.version
  }

  /** A read that serves a call made at `time` is pending, or follows the pending one. */
  predicate Waiting(c: Conn, i: nat, time: nat)
    requires i < |c.subs| == |c.notes|
  {
    var n := c.notes[i];
    n.reading.Some? && n.reading.value in c.pending &&
    (c.subs[i].refreshRequested || time <= c.pending[n.reading.value].clock)
  }

  /** A refresh call on object `i` made at `time` was served, is being served, or met a failed read. */
  predicate Served(c: Conn, i: nat, time: nat)
    requires i < |c.subs| == |c.notes|
  {
    time <= c.notes[i].accepted || time <= c.notes[i].failed || Waiting(c, i, time)
  }

  /** The last call, of all calls, is served. */
  predicate CallServed(c: Conn, i: nat)
    requires i < |c.subs| == |c.notes|
  {
    Served(c, i, c.notes[i].called)
  }

  predicate Inv(c: Conn) {
    && |c.subs| == |c.notes|
    && (c.current.Some? ==> c.current.value < |c.subs| && CallServed(c, c.current.value))
    && (forall i | 0 <= i < |c.subs| :: SubOk(c, i))
    && (forall r | r in c.pending :: PendingOk(c, r))
  }

  /** The last update of object `i` on the wire. */
  function LastUpdate(sent: seq<Sent>, i: nat): Option<Sent> {
    if sent == [] then None
    else if sent[|sent| - 1].Update? && sent[|sent| - 1].sub == i then Some(sent[|sent| - 1])
    else LastUpdate(sent[..|sent| - 1], i)
  }

  /** Per object: versions never go back and consecutive updates differ. */
  predicate WireOk(sent: seq<Sent>) {
    forall k | 0 <= k < |sent| && sent[k].Update? ::
      var before := LastUpdate(sent[..k], sent[k].sub);
      before.Some? && before.value.Update? ==> before.value.at <= sent[k].at && before.value.view != sent[k].view
  }

  /** While the socket is open, the last update of an object is its previous payload. */
  predicate WireMatches(c: Conn)
    requires |c.subs| == |c.notes|
  {
    && (forall k | 0 <= k < |c.sent| && c.sent[k].Update? :: c.sent[k].sub < |c.subs|)
    && (c.isOpen ==> forall i | 0 <= i < |c.subs| ::
          var last := LastUpdate(c.sent, i);
          && last.Some? && last.value.Update?
          && last.value.at <= c.notes[i].seen && c.subs[i].previous == Some(last.value.view))
  }

  // ------------------------------------------------------------- every event

  /** Histories only grow: versions already seen stay what they were. */
  lemma DbChangeKeepsInv(c: Conn, job: JobId, view: Option<View>)
    requires Inv(c)
    ensures Inv(Next(c, DbChange(job, view)))
  {
    var c' := Next(c, DbChange(job, view));
    forall j: JobId, v: nat | v <= Latest(c, j)
      ensures v <= Latest(c', j) && Versions(c', j)[v] == Versions(c, j)[v]
    {}
    forall i | 0 <= i < |c'.subs|
      ensures SubOk(c', i)
    {
      assert SubOk(c, i);
    }
    forall r | r in c'.pending
      ensures PendingOk(c', r)
    {
      assert PendingOk(c, r);
    }
  }

  lemma ClearKeepsInv(c: Conn, c': Conn)
    requires Inv(c)
    requires c'.subs == Clear(c).subs && c'.notes == c.notes && c'.pending == c.pending && c'.nextRead == c.nextRead
    requires c'.current.None? && c'.history == c.history && c.clock <= c'.clock && c.version <= c'.version
    ensures Inv(c')
  {
    forall i | 0 <= i < |c'.subs|
      ensures SubOk(c', i)
    {
      assert SubOk(c, i);
    }
    forall r | r in c'.pending
      ensures PendingOk(c', r)
    {
      assert PendingOk(c, r);
    }
  }

  lemma SubscribeKeepsInv(c: Conn, job: JobId)
    requires Inv(c)
    ensures Inv(Next(c, Subscribe(job)))
  {
    var c' := Next(c, Subscribe(job));
    assert c.nextRead in c.pending ==> PendingOk(c, c.nextRead);
    forall i | 0 <= i < |c'.subs|
      ensures SubOk(c', i)
    {
      assert SubOk(c, i);
    }
    forall r | r in c'.pending
      ensures PendingOk(c', r)
    {
      if r in c.pending {
        assert PendingOk(c, r);
      }
    }
  }

  lemma CallKeepsOwnSub(c: Conn, i: nat)
    requires Inv(c) && i < |c.subs| && c.current == Some(i)
    ensures SubOk(Call(c, i).(clock := c.clock + 1), i)
  {
    assert SubOk(c, i);
    if c.notes[i].reading.Some? {
      assert PendingOk(c, c.notes[i].reading.value);
    }
  }

  lemma CallKeepsOtherSub(c: Conn, i: nat, k: nat)
    requires Inv(c) && i < |c.subs| && c.current == Some(i) && k < |c.subs| && k != i
    ensures SubOk(Call(c, i).(clock := c.clock + 1), k)
  {
    assert SubOk(c, k);
    if c.notes[k].reading.Some? {
      assert PendingOk(c, c.notes[k].reading.value);
    }
  }

  lemma CallKeepsPending(c: Conn, i: nat, r: nat)
    requires Inv(c) && i < |c.subs| && c.current == Some(i) && r in Call(c, i).pending
    ensures PendingOk(Call(c, i).(clock := c.clock + 1), r)
  {
    assert SubOk(c, i);
    if r in c.pending {
      assert PendingOk(c, r);
    }
  }

  /** A refresh call: it is remembered by the running read, or starts one now. */
  lemma CallKeepsInv(c: Conn, i: nat)
    requires Inv(c) && i < |c.subs| && c.current == Some(i)
    ensures Inv(Call(c, i).(clock := c.clock + 1))
  {
    var c' := Call(c, i).(clock := c.clock + 1);
    assert SubOk(c, i);
    CallKeepsOwnSub(c, i);
    forall k | 0 <= k < |c'.subs|
      ensures SubOk(c', k)
    {
      if k != i {
        CallKeepsOtherSub(c, i, k);
      }
    }
    forall r | r in c'.pending
      ensures PendingOk(c', r)
    {
      CallKeepsPending(c, i, r);
    }
  }

  predicate RefreshAnswered(c: Conn, r: nat, answer: Answer)
    requires Inv(c)
  {
    && r in c.pending && c.pending[r].Refresh? && c.pending[r].sub < |c.subs|
    && Answers(c, c.subs[c.pending[r].sub].jobId, c.pending[r].since, answer)
  }

  function RefreshEnded(c: Conn, r: nat, answer: Answer): Conn
    requires Inv(c) && RefreshAnswered(c, r, answer)
  {
    ResumeRefresh(c, r, c.pending[r].sub, c.pending[r].clock, answer).(clock := c.clock + 1)
  }

  /** The end of a read touches only its own object, its own place in `pending`, and maybe a new one. */
  lemma RefreshEndedShape(c: Conn, r: nat, answer: Answer)
    requires Inv(c) && RefreshAnswered(c, r, answer)
    ensures var c', i := RefreshEnded(c, r, answer), c.pending[r].sub;
      && c'.history == c.history && c.clock < c'.clock && |c'.subs| == |c'.notes| == |c.subs|
      && (forall k | 0 <= k < |c.subs| && k != i :: c'.subs[k] == c.subs[k] && c'.notes[k] == c.notes[k])
      && (c'.current == c.current || c.current == Some(i))
      && (forall q | q in c.pending && q != r && q != c.nextRead :: q in c'.pending && c'.pending[q] == c.pending[q])
  {}

  lemma RefreshEndedOtherSub(c: Conn, r: nat, answer: Answer, k: nat)
    requires Inv(c) && RefreshAnswered(c, r, answer) && k < |c.subs| && k != c.pending[r].sub
    ensures |RefreshEnded(c, r, answer).subs| == |RefreshEnded(c, r, answer).notes| == |c.subs|
    ensures SubOk(RefreshEnded(c, r, answer), k)
  {
    var c' := RefreshEnded(c, r, answer);
    RefreshEndedShape(c, r, answer);
    SubFrame(c, c', r, k);
  }

  lemma SubFrame(c: Conn, c': Conn, r: nat, k: nat)
    requires Inv(c) && k < |c.subs| == |c'.subs| == |c'.notes| && r in c.pending
    requires c.pending[r].Refresh? && c.pending[r].sub != k
    requires c'.history == c.history && c.clock < c'.clock && c'.subs[k] == c.subs[k] && c'.notes[k] == c.notes[k]
    requires c.current == Some(k) ==> c'.current == c.current
    requires forall q | q in c.pending && q != r && q != c.nextRead :: q in c'.pending && c'.pending[q] == c.pending[q]
    ensures SubOk(c', k)
  {
    assert SubOk(c, k);
    if c.notes[k].reading.Some? {
      assert PendingOk(c, c.notes[k].reading.value);
    }
  }

  lemma AcceptingSub(c: Conn, r: nat, answer: Answer)
    requires Inv(c) && RefreshAnswered(c, r, answer) && c.current == Some(c.pending[r].sub)
    requires ReadOf(c, c.subs[c.pending[r].sub].jobId, answer).Found?
    ensures |RefreshEnded(c, r, answer).subs| == |RefreshEnded(c, r, answer).notes| == |c.subs|
    ensures SubOk(RefreshEnded(c, r, answer), c.pending[r].sub)
  {
    var i := c.pending[r].sub;
    assert SubOk(c, i) && PendingOk(c, r);
    var c' := RefreshEnded(c, r, answer);
    assert c'.history == c.history && c'.subs[i].jobId == c.subs[i].jobId;
    assert c'.subs[i].previous == Versions(c, c.subs[i].jobId)[answer.version];
    assert c'.notes[i].seen == answer.version && c'.notes[i].accepted == c.pending[r].clock;
  }

  /** A read that is not accepted leaves only its end. */
  lemma RefusingSub(c: Conn, r: nat, answer: Answer)
    requires Inv(c) && RefreshAnswered(c, r, answer)
    requires !(c.current == Some(c.pending[r].sub) && ReadOf(c, c.subs[c.pending[r].sub].jobId, answer).Found?)
    ensures |RefreshEnded(c, r, answer).subs| == |RefreshEnded(c, r, answer).notes| == |c.subs|
    ensures var c', i := RefreshEnded(c, r, answer), c.pending[r].sub; exists timer, failed ::
      && (timer ==> c.subs[i].timer && c'.current == c.current)
      && c'.subs[i] == c.subs[i].(isRefreshing := false, timer := timer)
      && c'.notes[i] == c.notes[i].(reading := None, failed := failed)
  {
    var c', i := RefreshEnded(c, r, answer), c.pending[r].sub;
    assert c'.subs[i] == c.subs[i].(isRefreshing := false, timer := c'.subs[i].timer);
    assert c'.notes[i] == c.notes[i].(reading := None, failed := c'.notes[i].failed);
  }

  /** The object whose read ended: its payload is what it read, if it accepted the read. */
  lemma RefreshEndedOwnSub(c: Conn, r: nat, answer: Answer)
    requires Inv(c) && RefreshAnswered(c, r, answer)
    ensures |RefreshEnded(c, r, answer).subs| == |RefreshEnded(c, r, answer).notes| == |c.subs|
    ensures SubOk(RefreshEnded(c, r, answer), c.pending[r].sub)
  {
    var i := c.pending[r].sub;
    if c.current == Some(i) && ReadOf(c, c.subs[i].jobId, answer).Found? {
      AcceptingSub(c, r, answer);
    } else {
      assert SubOk(c, i);
      RefusingSub(c, r, answer);
      RefreshEndedShape(c, r, answer);
    }
  }

  lemma RefreshEndedPending(c: Conn, r: nat, answer: Answer, q: nat)
    requires Inv(c) && RefreshAnswered(c, r, answer) && q in RefreshEnded(c, r, answer).pending
    ensures |RefreshEnded(c, r, answer).subs| == |RefreshEnded(c, r, answer).notes| == |c.subs|
    ensures PendingOk(RefreshEnded(c, r, answer), q)
  {
    assert SubOk(c, c.pending[r].sub) && PendingOk(c, r);
    if q in c.pending {
      assert PendingOk(c, q);
    }
  }

  lemma RefreshEndedServed(c: Conn, r: nat, answer: Answer)
    requires Inv(c) && RefreshAnswered(c, r, answer)
    ensures |RefreshEnded(c, r, answer).subs| == |RefreshEnded(c, r, answer).notes| == |c.subs|
    ensures var c' := RefreshEnded(c, r, answer);
      c'.current.Some? ==> c'.current == c.current && CallServed(c', c'.current.value)
  {
    assert SubOk(c, c.pending[r].sub) && PendingOk(c, r);
    if c.current.Some? {
      assert SubOk(c, c.current.value);
    }
  }

  lemma ResumeRefreshKeepsInv(c: Conn, r: nat, answer: Answer)
    requires Inv(c) && RefreshAnswered(c, r, answer)
    ensures Inv(RefreshEnded(c, r, answer))
  {
    var c' := RefreshEnded(c, r, answer);
    RefreshEndedServed(c, r, answer);
    forall k | 0 <= k < |c'.subs|
      ensures SubOk(c', k)
    {
      if k == c.pending[r].sub {
        RefreshEndedOwnSub(c, r, answer);
      } else {
        RefreshEndedOtherSub(c, r, answer, k);
      }
    }
    forall q | q in c'.pending
      ensures PendingOk(c', q)
    {
      RefreshEndedPending(c, r, answer, q);
    }
  }

  predicate LookupAnswered(c: Conn, r: nat, answer: Answer)
    requires Inv(c)
  {
    r in c.pending && c.pending[r].Lookup? && Answers(c, c.pending[r].job, c.pending[r].since, answer)
  }

  function LookupEnded(c: Conn, r: nat, answer: Answer): Conn
    requires Inv(c) && LookupAnswered(c, r, answer)
  {
    ResumeLookup(c, r, c.pending[r], answer).(clock := c.clock + 1)
  }

  /** A lookup that is no longer awaited. */
  lemma DropLookupKeepsInv(c: Conn, r: nat)
    requires Inv(c) && r in c.pending && c.pending[r].Lookup?
    ensures Inv(c.(pending := c.pending - {r}))
  {
    var c' := c.(pending := c.pending - {r});
    if c.current.Some? {
      assert SubOk(c, c.current.value);
    }
    forall k | 0 <= k < |c'.subs|
      ensures SubOk(c', k)
    {
      assert SubOk(c, k);
    }
    forall q | q in c'.pending
      ensures PendingOk(c', q)
    {
      assert PendingOk(c, q);
    }
  }

  /** A new subscription object becomes the current one. */
  lemma AddKeepsInv(c: Conn, job: JobId, view: View, at: nat, clock: nat, since: nat, sent: seq<Sent>)
    requires Inv(c) && c.current.None? && at <= Latest(c, job) && Versions(c, job)[at] == Some(view)
    requires clock < c.clock && since <= at
    ensures Inv(c.(subs := c.subs + [NewSubscription(job, view)],
                   notes := c.notes + [Notes(None, at, clock, clock, since, -1)],
                   current := Some(|c.subs|), sent := sent))
  {
    var c' := c.(subs := c.subs + [NewSubscription(job, view)],
                 notes := c.notes + [Notes(None, at, clock, clock, since, -1)],
                 current := Some(|c.subs|), sent := sent);
    forall k | 0 <= k < |c'.subs|
      ensures SubOk(c', k)
    {
      if k < |c.subs| {
        assert SubOk(c, k);
      }
    }
    forall q | q in c'.pending
      ensures PendingOk(c', q)
    {
      assert PendingOk(c, q);
    }
  }

  lemma ResumeLookupKeepsInv(c: Conn, r: nat, answer: Answer)
    requires Inv(c) && LookupAnswered(c, r, answer)
    ensures Inv(LookupEnded(c, r, answer))
  {
    var p := c.pending[r];
    var base := c.(pending := c.pending - {r});
    assert PendingOk(c, r);
    DropLookupKeepsInv(c, r);
    var read := ReadOf(c, p.job, answer);
    if read.Found? && c.version == p.version {
      ClearKeepsInv(base, Clear(base));
      var cleared := Clear(base);
      AddKeepsInv(cleared, p.job, read.view, answer.version, p.clock, p.since, LookupEnded(c, r, answer).sent);
      var added := ResumeLookup(c, r, p, answer);
      assert Inv(added);
      IdleKeepsInv(added, LookupEnded(c, r, answer));
    } else {
      IdleKeepsInv(base, LookupEnded(c, r, answer));
    }
  }

  lemma IdleKeepsInv(c: Conn, c': Conn)
    requires Inv(c) && c' == c.(clock := c.clock + 1, sent := c'.sent)
    ensures Inv(c')
  {
    forall k | 0 <= k < |c'.subs|
      ensures SubOk(c', k)
    {
      assert SubOk(c, k);
    }
    forall q | q in c'.pending
      ensures PendingOk(c', q)
    {
      assert PendingOk(c, q);
    }
  }

  lemma NotifyKeepsInv(c: Conn, job: JobId)
    requires Inv(c)
    ensures Inv(Next(c, Notify(job)))
  {
    if c.current.Some? && c.subs[c.current.value].jobId == job {
      CallKeepsInv(c, c.current.value);
    } else {
      IdleKeepsInv(c, Next(c, Notify(job)));
    }
  }

  lemma TimerKeepsInv(c: Conn, i: nat)
    requires Inv(c)
    ensures Inv(Next(c, Timer(i)))
  {
    if i < |c.subs| && c.subs[i].timer {
      assert SubOk(c, i);
      CallKeepsInv(c, i);
    } else {
      IdleKeepsInv(c, Next(c, Timer(i)));
    }
  }

  lemma AnsweredKeepsInv(c: Conn, r: nat, answer: Answer)
    requires Inv(c)
    ensures Inv(Next(c, Answered(r, answer)))
  {
    if RefreshAnswered(c, r, answer) {
      ResumeRefreshKeepsInv(c, r, answer);
    } else if LookupAnswered(c, r, answer) {
      ResumeLookupKeepsInv(c, r, answer);
    } else {
      IdleKeepsInv(c, Next(c, Answered(r, answer)));
    }
  }

  lemma NextKeepsInv(c: Conn, e: SocketEvent)
    requires Inv(c)
    ensures Inv(Next(c, e))
  {
    match e
    case DbChange(job, view) => DbChangeKeepsInv(c, job, view);
    case Subscribe(job) => SubscribeKeepsInv(c, job);
    case Unsubscribe => ClearKeepsInv(c, Next(c, e));
    case Close => ClearKeepsInv(c, Next(c, e));
    case Invalid(_) => IdleKeepsInv(c, Next(c, e));
    case Notify(job) => NotifyKeepsInv(c, job);
    case Timer(i) => TimerKeepsInv(c, i);
    case Answered(r, answer) => AnsweredKeepsInv(c, r, answer);
  }
}
