/** The outbox keeps the books: one created event per job, one status event per accepted write. */
module Conservation {
  import opened Tables
  import opened RowMoves
  import opened RowInvariants

  /** How many outbox rows of a topic carry the key of job `id`. */
  function CountEvents(outbox: seq<Event>, topic: Topic, id: JobId): nat {
    if outbox == [] then 0
    else CountEvents(outbox[..|outbox| - 1], topic, id) +
         (if outbox[|outbox| - 1].topic == topic && outbox[|outbox| - 1].key == id then 1 else 0)
  }

  lemma {:induction false} CountAppend(a: seq<Event>, b: seq<Event>, topic: Topic, id: JobId)
    ensures CountEvents(a + b, topic, id) == CountEvents(a, topic, id) + CountEvents(b, topic, id)
    decreases |b|
  {
    if b == [] {
      assert a + b == a;
    } else {
      assert (a + b)[..|a + b| - 1] == a + b[..|b| - 1];
      CountAppend(a, b[..|b| - 1], topic, id);
    }
  }

  lemma {:induction false} CountStatusEvents(order: seq<JobId>, topic: Topic, id: JobId)
    requires forall i, j :: 0 <= i < j < |order| ==> order[i] != order[j]
    ensures CountEvents(StatusEvents(order), topic, id) == if topic.JobStatus? && id in order then 1 else 0
  {
    if order != [] {
      var last := |order| - 1;
      assert StatusEvents(order)[..last] == StatusEvents(order[..last]);
      assert order == order[..last] + [order[last]];
      CountStatusEvents(order[..last], topic, id);
    }
  }

  /** Two outboxes whose rows differ at most in delivery state. */
  predicate SameRows(a: seq<Event>, b: seq<Event>) {
    |a| == |b| && forall i | 0 <= i < |a| :: a[i].topic == b[i].topic && a[i].key == b[i].key
  }

  lemma {:induction false} CountSameRows(a: seq<Event>, b: seq<Event>, topic: Topic, id: JobId)
    requires SameRows(a, b)
    ensures CountEvents(a, topic, id) == CountEvents(b, topic, id)
  {
    if a != [] {
      CountSameRows(a[..|a| - 1], b[..|b| - 1], topic, id);
    }
  }

  /** An accepted claim, begun attempt, owned update, or cancellation by the API or account deletion. */
  predicate ChangesStatus(db: Db, t: Txn, id: JobId) {
    id in db.jobs &&
    var m := Effect(db, t, id);
    m.Claim? || m.Begin? || m.Update? || m.Cancel? || (m.OwnerGone? && db.jobs[id].status.Active())
  }

  function Changes(db: Db, run: seq<Txn>, id: JobId): nat
    decreases |run|
  {
    if run == [] then 0
    else (if ChangesStatus(db, run[0], id) then 1 else 0) + Changes(Commit(db, run[0]), run[1..], id)
  }

  /** Every event names a job that was created; a created job has exactly one created event. */
  ghost predicate OutboxOk(db: Db) {
    && (forall i | 0 <= i < |db.outbox| :: db.outbox[i].key < db.nextJob)
    && (forall id: JobId :: CountEvents(db.outbox, JobCreated, id) == if id < db.nextJob then 1 else 0)
  }

  /** What one transaction appends to the outbox for one job. */
  function Emits(db: Db, t: Txn, topic: Topic, id: JobId): nat {
    match topic
    case JobStatus => if ChangesStatus(db, t, id) then 1 else 0
    case JobCreated => if id == db.nextJob && Commit(db, t).nextJob > db.nextJob then 1 else 0
  }

  lemma AppendOne(a: seq<Event>, e: Event, topic: Topic, id: JobId)
    ensures CountEvents(a + [e], topic, id) ==
            CountEvents(a, topic, id) + if e.topic == topic && e.key == id then 1 else 0
  {
    assert (a + [e])[..|a + [e]| - 1] == a;
  }

  /** The events transaction `t` appends. */
  function Appended(db: Db, t: Txn): seq<Event> {
    match t
    case CreateJob(owner, key, limit) => if Admits(db, owner, key, limit) then [CreatedEvent(db.nextJob)] else []
    case CancelJob(id, owner, _) => if Cancellable(db, id, owner) then [StatusEvent(id)] else []
    case DeleteAccount(user, order) =>
      if user in db.users && Enumerates(order, ActiveJobs(db, user)) then StatusEvents(order) else []
    case ClaimJob(id, _, timeout) => if ClaimAccepted(db, id, timeout) then [StatusEvent(id)] else []
    case BeginAttempt(id, w) => if OwnsLeased(db, id, w) then [StatusEvent(id)] else []
    case UpdateStatus(id, w, _, _) => if Owns(db, id, w) then [StatusEvent(id)] else []
    case _ => []
  }

  lemma StepAppends(db: Db, t: Txn)
    ensures !t.Publish? ==> Commit(db, t).outbox == db.outbox + Appended(db, t)
    ensures t.Publish? ==> SameRows(Commit(db, t).outbox, db.outbox)
  {}

  lemma DeletionCounts(db: Db, t: Txn, topic: Topic, id: JobId)
    requires RowsOk(db) && t.DeleteAccount?
    ensures CountEvents(Appended(db, t), topic, id) == Emits(db, t, topic, id)
  {
    if t.user in db.users && Enumerates(t.order, ActiveJobs(db, t.user)) {
      CountStatusEvents(t.order, topic, id);
      assert id in t.order <==> id in ActiveJobs(db, t.user);
    }
  }

  lemma WorkerCounts(db: Db, t: Txn, topic: Topic, id: JobId)
    requires t.ClaimJob? || t.BeginAttempt? || t.RefreshLease? || t.UpdateStatus?
    ensures CountEvents(Appended(db, t), topic, id) == Emits(db, t, topic, id)
  {
    SingleCount(StatusEvent(t.id), topic, id);
  }

  lemma SingleCount(e: Event, topic: Topic, id: JobId)
    ensures CountEvents([e], topic, id) == if e.topic == topic && e.key == id then 1 else 0
  {
    AppendOne([], e, topic, id);
    assert [e] == [] + [e];
  }

  lemma CreationCounts(db: Db, t: Txn, topic: Topic, id: JobId)
    requires RowsOk(db) && t.CreateJob?
    ensures CountEvents(Appended(db, t), topic, id) == Emits(db, t, topic, id)
  {
    SingleCount(CreatedEvent(db.nextJob), topic, id);
  }

  lemma CancellationCounts(db: Db, t: Txn, topic: Topic, id: JobId)
    requires t.CancelJob?
    ensures CountEvents(Appended(db, t), topic, id) == Emits(db, t, topic, id)
  {
    SingleCount(StatusEvent(t.id), topic, id);
  }

  /** Clock, adoption, cleanup and publishing append nothing and change no status. */
  lemma QuietCounts(db: Db, t: Txn, topic: Topic, id: JobId)
    requires t.Tick? || t.Register? || t.CreateSession? || t.Publish?
             || t.ClaimCleanup? || t.CompleteCleanup? || t.FailCleanup?
    ensures CountEvents(Appended(db, t), topic, id) == 0 == Emits(db, t, topic, id)
  {}

  lemma AppendedCounts(db: Db, t: Txn, topic: Topic, id: JobId)
    requires RowsOk(db)
    ensures CountEvents(Appended(db, t), topic, id) == Emits(db, t, topic, id)
  {
    if t.DeleteAccount? {
      DeletionCounts(db, t, topic, id);
    } else if t.ClaimJob? || t.BeginAttempt? || t.RefreshLease? || t.UpdateStatus? {
      WorkerCounts(db, t, topic, id);
    } else if t.CreateJob? {
      CreationCounts(db, t, topic, id);
    } else if t.CancelJob? {
      CancellationCounts(db, t, topic, id);
    } else {
      QuietCounts(db, t, topic, id);
    }
  }

  lemma StepEmits(db: Db, t: Txn, topic: Topic, id: JobId)
    requires RowsOk(db)
    ensures CountEvents(Commit(db, t).outbox, topic, id) ==
            CountEvents(db.outbox, topic, id) + Emits(db, t, topic, id)
  {
    StepAppends(db, t);
    if t.Publish? {
      CountSameRows(Commit(db, t).outbox, db.outbox, topic, id);
    } else {
      CountAppend(db.outbox, Appended(db, t), topic, id);
      AppendedCounts(db, t, topic, id);
    }
  }

  lemma AppendedKeys(db: Db, t: Txn)
    requires RowsOk(db)
    ensures forall e | e in Appended(db, t) :: e.key < Commit(db, t).nextJob && !e.published
    ensures forall e | e in Appended(db, t) :: e.topic.JobCreated? ==> t.CreateJob? && e.key == db.nextJob
  {
    if t.DeleteAccount? && Appended(db, t) != [] {
      forall e | e in Appended(db, t)
        ensures e.key in ActiveJobs(db, t.user) && e == StatusEvent(e.key)
      {
        var i :| 0 <= i < |t.order| && Appended(db, t)[i] == e;
      }
    }
  }

  lemma StepKeepsOutbox(db: Db, t: Txn)
    requires RowsOk(db) && OutboxOk(db)
    ensures OutboxOk(Commit(db, t))
  {
    StepCounters(db, t);
    StepAppends(db, t);
    AppendedKeys(db, t);
    forall id: JobId
      ensures CountEvents(Commit(db, t).outbox, JobCreated, id) == if id < Commit(db, t).nextJob then 1 else 0
    {
      StepEmits(db, t, JobCreated, id);
    }
  }

  lemma {:induction false} RunEmits(db: Db, run: seq<Txn>, id: JobId)
    requires DbOk(db) && OutboxOk(db)
    ensures DbOk(Run(db, run)) && OutboxOk(Run(db, run))
    ensures CountEvents(Run(db, run).outbox, JobStatus, id) ==
            CountEvents(db.outbox, JobStatus, id) + Changes(db, run, id)
    decreases |run|
  {
    if run != [] {
      StepKeepsDbOk(db, run[0]);
      StepKeepsOutbox(db, run[0]);
      StepEmits(db, run[0], JobStatus, id);
      RunEmits(Commit(db, run[0]), run[1..], id);
    }
  }

  /**
  Outbox conservation over every run from the empty tables: a created job has exactly one
  created event, and as many status events as it had accepted status changes. Rejected
  writes, heartbeats, cleanup and publishing add none.
  */
  lemma OutboxConservation(start: int, run: seq<Txn>, id: JobId)
    ensures var db := Run(EmptyDb(start), run);
      && CountEvents(db.outbox, JobCreated, id) == (if id < db.nextJob then 1 else 0)
      && CountEvents(db.outbox, JobStatus, id) == Changes(EmptyDb(start), run, id)
  {
    EmptyDbOk(start);
    RunEmits(EmptyDb(start), run, id);
  }
}
