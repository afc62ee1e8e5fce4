/**
The tables as a mutable store. The ghost history lists every transaction committed so
far, so a valid store is one that some run from the empty tables produced.
*/
module Store {
  import opened Tables
  import opened RowInvariants

  class Database {
    var now: int
    var jobs: map<JobId, Job>
    var outbox: seq<Event>
    var users: set<OwnerId>
    var nextJob: JobId
    var nextClaim: ClaimId
    ghost const start: int
    ghost var history: seq<Txn>

    function Snapshot(): Db
      reads this
    {
      Db(now, jobs, outbox, users, nextJob, nextClaim)
    }

    ghost predicate Valid()
      reads this
    {
      Snapshot() == Run(EmptyDb(start), history)
    }

    constructor (now: int)
      ensures Valid() && history == [] && Snapshot() == EmptyDb(now)
    {
      this.now, jobs, outbox, users, nextJob, nextClaim := now, map[], [], {}, 0, 0;
      start, history := now, [];
    }

    /** Adds a status event to the caller's open transaction. */
    method EnqueueJobStatusEvent(id: JobId)
      modifies this`outbox
      ensures outbox == old(outbox) + [StatusEvent(id)]
    {
      outbox := outbox + [Event(JobStatus, id, false, 0)];
    }

    /** Records that the statements since `before` committed as transaction `t`. */
    ghost method Committed(before: Db, t: Txn)
      requires before == Run(EmptyDb(start), history)
      requires Snapshot() == Commit(before, t)
      modifies this`history
      ensures Valid() && history == old(history) + [t]
    {
      RunAppend(EmptyDb(start), history, [t]);
      history := history + [t];
    }

    /** A transaction committed by some other process. */
    method CommitElsewhere(t: Txn)
      requires Valid()
      modifies this
      ensures Valid() && history == old(history) + [t] && Snapshot() == Commit(old(Snapshot()), t)
    {
      ghost var before := Snapshot();
      var after := Commit(Snapshot(), t);
      now, jobs, outbox, users, nextJob, nextClaim :=
        after.now, after.jobs, after.outbox, after.users, after.nextJob, after.nextClaim;
      Committed(before, t);
    }
  }

  /** How a database call ends: normally, or with an exception before or after its commit took effect. */
  datatype Answer = Heard | LostBefore | LostAfter

  /** A process's connection to the database. */
  class DatabaseLink {
    // Calls that ended with an exception.
    var lost: nat

    constructor ()
      ensures lost == 0
    {
      lost := 0;
    }

    method Call() returns (a: Answer)
      modifies this
      ensures lost == old(lost) + if a.Heard? then 0 else 1
    {
      a := *;
      if !a.Heard? {
        lost := lost + 1;
      }
    }
  }

  /** What is over at one point of a history is over at every later point. */
  lemma FinishedLater(start: int, earlier: seq<Txn>, later: seq<Txn>, id: JobId)
    requires earlier <= later && Finished(Run(EmptyDb(start), earlier), id)
    ensures Finished(Run(EmptyDb(start), later), id)
  {
    EmptyDbOk(start);
    RunKeepsDbOk(EmptyDb(start), earlier);
    var rest := later[|earlier|..];
    assert later == earlier + rest;
    RunAppend(EmptyDb(start), earlier, rest);
    FinishedIsStable(Run(EmptyDb(start), earlier), rest, id);
  }
}
