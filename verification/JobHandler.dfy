/**
The job lifecycle of one worker process (worker/job_handler.py, worker/lease.py and the
session loop of worker/main.py), with every other process, and this worker's own
heartbeat thread, free to commit anything between two of its statements.
*/
module JobHandler {
  import opened Wrappers
  import opened Tables
  import opened RowMoves
  import opened RowInvariants
  import opened Store
  import opened WorkerDatabase

  /** The shutdown flag: it is found set after some number of reads, and stays set. */
  class ShutdownSignal {
    var readsLeft: nat

    constructor (budget: nat)
      ensures readsLeft == budget
    {
      readsLeft := budget;
    }

    method IsSet() returns (b: bool)
      modifies this
      ensures b <==> old(readsLeft) == 0
      ensures readsLeft == if b then 0 else old(readsLeft) - 1
    {
      b := readsLeft == 0;
      if !b {
        readsLeft := readsLeft - 1;
      }
    }
  }

  // ------------------------------------------ counting this worker's own writes

  datatype Kind = Claims | Begins | Retries | FailedWrites

  predicate IsOwn(t: Txn, kind: Kind, worker: WorkerId, id: JobId) {
    match kind
    case Claims => t.ClaimJob? && t.id == id && t.worker == worker
    case Begins => t.BeginAttempt? && t.id == id && t.worker == worker
    case Retries => t.UpdateStatus? && t.id == id && t.worker == worker && t.write.status.RETRYING?
    case FailedWrites => t.UpdateStatus? && t.id == id && t.worker == worker && t.write.status.FAILED?
  }

  function CountOwn(h: seq<Txn>, kind: Kind, worker: WorkerId, id: JobId): nat {
    if h == [] then 0
    else CountOwn(h[..|h| - 1], kind, worker, id) + if IsOwn(h[|h| - 1], kind, worker, id) then 1 else 0
  }

  lemma CountNext(h: seq<Txn>, t: Txn, kind: Kind, worker: WorkerId, id: JobId)
    ensures CountOwn(h + [t], kind, worker, id) ==
            CountOwn(h, kind, worker, id) + if IsOwn(t, kind, worker, id) then 1 else 0
  {
    assert (h + [t])[..|h + [t]| - 1] == h;
  }

  /** How many claims, begins, RETRYING and FAILED writes of this worker a stretch of history holds. */
  datatype Tally = Tally(claims: nat, begins: nat, retries: nat, failed: nat)

  const NONE := Tally(0, 0, 0, 0)

  function Plus(a: Tally, b: Tally): Tally {
    Tally(a.claims + b.claims, a.begins + b.begins, a.retries + b.retries, a.failed + b.failed)
  }

  /** `later` continues `h` with exactly so many transactions of this worker for this job. */
  ghost predicate Extends(h: seq<Txn>, later: seq<Txn>, worker: WorkerId, id: JobId, n: Tally) {
    && h <= later
    && CountOwn(later, Claims, worker, id) == CountOwn(h, Claims, worker, id) + n.claims
    && CountOwn(later, Begins, worker, id) == CountOwn(h, Begins, worker, id) + n.begins
    && CountOwn(later, Retries, worker, id) == CountOwn(h, Retries, worker, id) + n.retries
    && CountOwn(later, FailedWrites, worker, id) == CountOwn(h, FailedWrites, worker, id) + n.failed
  }

  function TallyOf(t: Txn, worker: WorkerId, id: JobId): Tally {
    Tally(if IsOwn(t, Claims, worker, id) then 1 else 0,
          if IsOwn(t, Begins, worker, id) then 1 else 0,
          if IsOwn(t, Retries, worker, id) then 1 else 0,
          if IsOwn(t, FailedWrites, worker, id) then 1 else 0)
  }

  lemma ExtendsByOne(h: seq<Txn>, t: Txn, worker: WorkerId, id: JobId)
    ensures Extends(h, h + [t], worker, id, TallyOf(t, worker, id))
  {
    CountNext(h, t, Claims, worker, id);
    CountNext(h, t, Begins, worker, id);
    CountNext(h, t, Retries, worker, id);
    CountNext(h, t, FailedWrites, worker, id);
  }

  lemma {:induction false} OwnIsCounted(h: seq<Txn>, later: seq<Txn>, i: nat, kind: Kind, worker: WorkerId, id: JobId)
    requires h <= later && |h| <= i < |later| && IsOwn(later[i], kind, worker, id)
    ensures CountOwn(h, kind, worker, id) < CountOwn(later, kind, worker, id)
    decreases |later|
  {
    if i < |later| - 1 {
      OwnIsCounted(h, later[..|later| - 1], i, kind, worker, id);
    } else {
      CountOfPrefix(h, later[..|later| - 1], kind, worker, id);
    }
  }

  lemma {:induction false} CountOfPrefix(h: seq<Txn>, later: seq<Txn>, kind: Kind, worker: WorkerId, id: JobId)
    requires h <= later
    ensures CountOwn(h, kind, worker, id) <= CountOwn(later, kind, worker, id)
    decreases |later|
  {
    if h != later {
      CountOfPrefix(h, later[..|later| - 1], kind, worker, id);
    } else {
      assert h == later;
    }
  }

  /** Transactions of this worker's main thread; its heartbeats belong to another thread. */
  predicate ByMainThread(t: Txn, worker: WorkerId) {
    (t.ClaimJob? || t.BeginAttempt? || t.UpdateStatus?) && t.worker == worker
  }

  /** The transaction at index `i` is a begin or update of a worker that did not own the job then. */
  ghost predicate RefusedAt(start: int, h: seq<Txn>, i: nat, worker: WorkerId, id: JobId) {
    i < |h| && (h[i].BeginAttempt? || h[i].UpdateStatus?) && h[i].worker == worker && h[i].id == id
    && !Owns(Run(EmptyDb(start), h[..i]), id, worker)
  }

  /** Since index `from` the worker was found not to own the job. */
  ghost predicate LeaseLost(start: int, h: seq<Txn>, from: nat, worker: WorkerId, id: JobId) {
    exists i | from <= i < |h| :: RefusedAt(start, h, i, worker, id)
  }

  lemma LeaseLostLater(start: int, h: seq<Txn>, later: seq<Txn>, from: nat, to: nat, worker: WorkerId, id: JobId)
    requires h <= later && from <= to && LeaseLost(start, h, to, worker, id)
    ensures LeaseLost(start, later, from, worker, id)
  {
    var i :| to <= i < |h| && RefusedAt(start, h, i, worker, id);
    assert later[..i] == h[..i];
    assert RefusedAt(start, later, i, worker, id);
  }

  // --------------------------------------------------------------- the worker

  datatype Processing = Produced(results: map<string, ObjectKey>) | Interrupted | Broke(error: string)

  datatype Attempt = Completed | CancelledAttempt | FailedAttempt(error: string)

  datatype Exit = Returned | CancelledOut | Raised

  datatype Handling = Handled | LeftForLater | Crashed

  class Worker {
    const id: WorkerId
    const maxAttempts: nat
    const leaseTimeout: int
    const retentionHours: int
    // Jobs whose dead letter Kafka confirmed, oldest first.
    var deadLetters: seq<JobId>
    // For each of them, how many transactions had been committed when it was confirmed.
    ghost var confirmedAt: seq<nat>
    // Attempts that download, model or upload broke, and dead letters that were not confirmed.
    var breaks: nat
    var unconfirmed: nat

    constructor (id: WorkerId, maxAttempts: nat, leaseTimeout: int, retentionHours: int)
      ensures this.id == id && this.maxAttempts == maxAttempts && deadLetters == [] && confirmedAt == []
      ensures this.leaseTimeout == leaseTimeout && this.retentionHours == retentionHours
      ensures breaks == 0 && unconfirmed == 0
    {
      this.id, this.maxAttempts, this.leaseTimeout := id, maxAttempts, leaseTimeout;
      this.retentionHours, deadLetters, confirmedAt := retentionHours, [], [];
      breaks, unconfirmed := 0, 0;
    }

    /** Anything the other processes and the heartbeat thread commit at this point. */
    method OthersRun(db: Database, job: JobId)
      requires db.Valid()
      modifies db
      ensures db.Valid() && old(db.nextJob) <= db.nextJob
      ensures Extends(old(db.history), db.history, id, job, NONE)
    {
      var ts: seq<Txn> := *;
      for i := 0 to |ts|
        invariant db.Valid() && old(db.nextJob) <= db.nextJob
        invariant Extends(old(db.history), db.history, id, job, NONE)
      {
        if !ByMainThread(ts[i], id) {
          ExtendsByOne(db.history, ts[i], id, job);
          StepCounters(db.Snapshot(), ts[i]);
          db.CommitElsewhere(ts[i]);
        }
      }
    }

    /**
    update_job_status with its second look at the row when nothing was updated: without
    ownership it is a cancellation exactly if the row is CANCELLED then, and else an error.
    */
    method UpdateJobStatus(db: Database, job: JobId, w: WorkerWrite) returns (r: Outcome)
      requires db.Valid() && job < db.nextJob
      modifies db
      ensures db.Valid() && old(db.nextJob) <= db.nextJob
      ensures Extends(old(db.history), db.history, id, job, TallyOf(UpdateStatus(job, id, w, retentionHours), id, job))
      ensures old(db.history) + [UpdateStatus(job, id, w, retentionHours)] <= db.history
      ensures r.Ok? <==> Owns(old(db.Snapshot()), job, id)
      ensures r.Ok? && w.status.Terminal() ==> Finished(db.Snapshot(), job)
      ensures r.Ok? ==> db.history == old(db.history) + [UpdateStatus(job, id, w, retentionHours)]
      ensures r.Ok? ==> db.Snapshot() == UpdateStatusTxn(old(db.Snapshot()), job, id, w, retentionHours)
      ensures !r.Ok? ==> (r.JobCancelled? <==> IsCancelled(db.Snapshot(), job))
      ensures !r.Ok? ==> LeaseLost(db.start, db.history, |old(db.history)|, id, job)
    {
      ghost var h := db.history;
      ExtendsByOne(db.history, UpdateStatus(job, id, w, retentionHours), id, job);
      var updated := WriteOwnedStatus(db, job, id, w, retentionHours);
      if updated {
        return Ok;
      }
      assert db.history[..|h|] == h;
      assert RefusedAt(db.start, db.history, |h|, id, job);
      ghost var written := db.history;
      OthersRun(db, job);
      LeaseLostLater(db.start, written, db.history, |h|, |h|, id, job);
      var cancelled := IsJobCancelled(db, job);
      r := if cancelled then JobCancelled else Error;
    }

    /**
    process_audio_job as this level sees it: some PROCESSING writes and cancellation
    checkpoints, then results, or an interruption, or an error at any point.
    */
    method ProcessAudioJob(db: Database, job: JobId) returns (p: Processing)
      requires db.Valid() && job < db.nextJob
      modifies db, this`breaks
      ensures db.Valid() && old(db.nextJob) <= db.nextJob
      ensures Extends(old(db.history), db.history, id, job, NONE)
      ensures p.Interrupted? ==> IsCancelled(db.Snapshot(), job)
      ensures breaks == old(breaks) ||
              (p.Broke? && breaks == old(breaks) + 1)
      ensures p.Broke? ==> breaks == old(breaks) + 1 || LeaseLost(db.start, db.history, |old(db.history)|, id, job)
    {
      ghost var from := |db.history|;
      var progress: seq<nat> := *;
      for i := 0 to |progress|
        invariant db.Valid() && old(db.nextJob) <= db.nextJob && breaks == old(breaks)
        invariant Extends(old(db.history), db.history, id, job, NONE)
      {
        var broken: bool := *;
        if broken || !(15 <= progress[i] <= 99) {
          breaks := breaks + 1;
          return Broke("processing failed");
        }
        OthersRun(db, job);
        ghost var h := db.history;
        var r := UpdateJobStatus(db, job, Write(PROCESSING, progress[i], None, None));
        if r.JobCancelled? {
          return Interrupted;
        } else if r.Error? {
          LeaseLostLater(db.start, db.history, db.history, from, |h|, id, job);
          return Broke("lease lost");
        }
        OthersRun(db, job);
        var cancelled := IsJobCancelled(db, job);
        if cancelled {
          return Interrupted;
        }
      }
      var results: map<string, ObjectKey> := *;
      p := Produced(results);
    }

    /** publish_dead_letter: true when the broker confirmed the delivery. */
    method PublishDeadLetter(db: Database, job: JobId) returns (confirmed: bool)
      modifies this`deadLetters, this`confirmedAt, this`unconfirmed
      ensures deadLetters == if confirmed then old(deadLetters) + [job] else old(deadLetters)
      ensures confirmedAt == if confirmed then old(confirmedAt) + [|db.history|] else old(confirmedAt)
      ensures unconfirmed == if confirmed then old(unconfirmed) else old(unconfirmed) + 1
    {
      confirmed := *;
      if confirmed {
        deadLetters := deadLetters + [job];
        confirmedAt := confirmedAt + [|db.history|];
      } else {
        unconfirmed := unconfirmed + 1;
      }
    }

    /** The dead letters confirmed since `before`, at history index `from` or later, are `n` for this job. */
    ghost predicate Lettered(before: seq<JobId>, stamps: seq<nat>, from: nat, job: JobId, n: nat)
      reads this
    {
      && |deadLetters| == |before| + n && before <= deadLetters
      && |confirmedAt| == |stamps| + n && stamps <= confirmedAt
      && (forall i | |before| <= i < |deadLetters| :: deadLetters[i] == job)
      && (forall i | |stamps| <= i < |confirmedAt| :: from <= confirmedAt[i])
    }

    /** Every FAILED write for the job since index `from` follows the last confirmed dead letter. */
    ghost predicate FailedFollowsLetter(h: seq<Txn>, from: nat, job: JobId, letters: nat)
      reads this
    {
      forall i | from <= i < |h| && IsOwn(h[i], FailedWrites, id, job) ::
        letters == 1 && confirmedAt != [] && confirmedAt[|confirmedAt| - 1] <= i
    }

    lemma NoFailedWrite(h: seq<Txn>, later: seq<Txn>, job: JobId, letters: nat)
      requires h <= later && CountOwn(later, FailedWrites, id, job) <= CountOwn(h, FailedWrites, id, job)
      ensures FailedFollowsLetter(later, |h|, job, letters)
    {
      forall i | |h| <= i < |later|
        ensures !IsOwn(later[i], FailedWrites, id, job)
      {
        if IsOwn(later[i], FailedWrites, id, job) {
          OwnIsCounted(h, later, i, FailedWrites, id, job);
        }
      }
    }

    /**
    The try block of one attempt: begin, process, complete. It begins exactly once, and it
    fails only if processing broke or the lease was lost.
    */
    method TryAttempt(db: Database, job: JobId) returns (t: Attempt)
      requires db.Valid() && job < db.nextJob
      modifies db, this`breaks
      ensures db.Valid() && old(db.nextJob) <= db.nextJob
      ensures Extends(old(db.history), db.history, id, job, Tally(0, 1, 0, 0))
      ensures !t.FailedAttempt? ==> Finished(db.Snapshot(), job) && breaks == old(breaks)
      ensures t.Completed? ==> job in db.jobs && db.jobs[job].status == COMPLETED && db.jobs[job].results.Some?
      ensures t.CancelledAttempt? ==> IsCancelled(db.Snapshot(), job)
      ensures t.FailedAttempt? ==>
        breaks == old(breaks) + 1
        || (breaks == old(breaks) && LeaseLost(db.start, db.history, |old(db.history)|, id, job))
    {
      ghost var h := db.history;
      ExtendsByOne(db.history, BeginAttempt(job, id), id, job);
      var recorded := BeginJobAttempt(db, job, id);
      if recorded.None? {
        BeginIsRefused(db.start, h, id, job);
        return FailedAttempt("the job has another owner");
      }
      ghost var begun := db.history;
      var p := ProcessAudioJob(db, job);
      if p.Interrupted? {
        return CancelledAttempt;
      } else if p.Broke? {
        if breaks == old(breaks) {
          LeaseLostLater(db.start, db.history, db.history, |h|, |begun|, id, job);
        }
        return FailedAttempt(p.error);
      }
      OthersRun(db, job);
      ghost var processed := db.history;
      var done := UpdateJobStatus(db, job, Write(COMPLETED, 100, Some(p.results), None));
      match done
      case Ok => t := Completed;
      case JobCancelled => t := CancelledAttempt;
      case Error =>
        LeaseLostLater(db.start, db.history, db.history, |h|, |processed|, id, job);
        t := FailedAttempt("the job has another owner");
    }

    /** One attempt with what others commit before it, and after it when it failed. */
    method AttemptOnce(db: Database, job: JobId) returns (t: Attempt)
      requires db.Valid() && job < db.nextJob
      modifies db, this`breaks
      ensures db.Valid() && old(db.nextJob) <= db.nextJob
      ensures Extends(old(db.history), db.history, id, job, Tally(0, 1, 0, 0))
      ensures !t.FailedAttempt? ==> Finished(db.Snapshot(), job) && breaks == old(breaks)
      ensures t.Completed? ==> job in db.jobs && db.jobs[job].status == COMPLETED
      ensures t.CancelledAttempt? ==> IsCancelled(db.Snapshot(), job)
      ensures t.FailedAttempt? ==>
        breaks == old(breaks) + 1
        || (breaks == old(breaks) && LeaseLost(db.start, db.history, |old(db.history)|, id, job))
    {
      ghost var h := db.history;
      OthersRun(db, job);
      ghost var ready := db.history;
      t := TryAttempt(db, job);
      if t.FailedAttempt? {
        ghost var failed := db.history;
        OthersRun(db, job);
        if breaks == old(breaks) {
          LeaseLostLater(db.start, failed, db.history, |h|, |ready|, id, job);
        }
      }
    }

    lemma BeginIsRefused(start: int, h: seq<Txn>, worker: WorkerId, job: JobId)
      requires !OwnsLeased(Run(EmptyDb(start), h), job, worker)
      ensures LeaseLost(start, h + [BeginAttempt(job, worker)], |h|, worker, job)
    {
      EmptyDbOk(start);
      RunKeepsDbOk(EmptyDb(start), h);
      var later := h + [BeginAttempt(job, worker)];
      assert later[..|h|] == h;
      assert RefusedAt(start, later, |h|, worker, job);
    }

    /**
    The end of the exception handler after the last attempt. A job cancelled at the last look
    gets neither letter nor FAILED; otherwise FAILED is written after the letter, and nothing
    but an unconfirmed letter or a lost lease prevents it.
    */
    method GiveUp(db: Database, job: JobId, error: string) returns (exit: Exit, ghost letters: nat)
      requires db.Valid() && job < db.nextJob
      modifies db, this`deadLetters, this`confirmedAt, this`unconfirmed
      ensures db.Valid() && old(db.nextJob) <= db.nextJob
      ensures !exit.Raised? ==> Finished(db.Snapshot(), job)
      ensures IsCancelled(old(db.Snapshot()), job) ==>
        exit.CancelledOut? && letters == 0 && db.history == old(db.history)
      ensures letters <= 1 && Lettered(old(deadLetters), old(confirmedAt), |old(db.history)|, job, letters)
      ensures exit.Returned? ==>
        letters == 1 && job in db.jobs && db.jobs[job].status == FAILED && db.jobs[job].error == Some(error)
      ensures exit.CancelledOut? ==> IsCancelled(db.Snapshot(), job)
      ensures exit.Raised? && letters == 0 ==> unconfirmed == old(unconfirmed) + 1
      ensures exit.Raised? && letters == 1 ==> LeaseLost(db.start, db.history, |old(db.history)|, id, job)
      ensures Extends(old(db.history), db.history, id, job, Tally(0, 0, 0, letters))
      ensures FailedFollowsLetter(db.history, |old(db.history)|, job, letters)
    {
      ghost var h := db.history;
      letters := 0;
      var cancelled := IsJobCancelled(db, job);
      if cancelled {
        return CancelledOut, letters;
      }
      OthersRun(db, job);
      var confirmed := PublishDeadLetter(db, job);
      if !confirmed {
        NoFailedWrite(h, db.history, job, letters);
        return Raised, letters;
      }
      letters := 1;
      NoFailedWrite(h, db.history, job, letters);
      ghost var told := db.history;
      exit := Condemn(db, job, error);
      LeaseLostIf(db.start, db.history, |h|, |told|, job);
    }

    /** The FAILED write. */
    method Condemn(db: Database, job: JobId, error: string) returns (exit: Exit)
      requires db.Valid() && job < db.nextJob
      modifies db
      ensures db.Valid() && old(db.nextJob) <= db.nextJob
      ensures !exit.Raised? ==> Finished(db.Snapshot(), job)
      ensures exit.Returned? ==> job in db.jobs && db.jobs[job].status == FAILED && db.jobs[job].error == Some(error)
      ensures exit.CancelledOut? ==> IsCancelled(db.Snapshot(), job)
      ensures exit.Raised? ==> LeaseLost(db.start, db.history, |old(db.history)|, id, job)
      ensures Extends(old(db.history), db.history, id, job, Tally(0, 0, 0, 1))
    {
      ghost var h := db.history;
      OthersRun(db, job);
      ghost var told := db.history;
      var failed := UpdateJobStatus(db, job, Write(FAILED, 0, None, Some(error)));
      match failed
      case Ok => exit := Returned;
      case JobCancelled => exit := CancelledOut;
      case Error =>
        LeaseLostLater(db.start, db.history, db.history, |h|, |told|, id, job);
        exit := Raised;
    }

    lemma LeaseLostIf(start: int, h: seq<Txn>, from: nat, to: nat, job: JobId)
      requires from <= to
      ensures LeaseLost(start, h, to, id, job) ==> LeaseLost(start, h, from, id, job)
    {
      if LeaseLost(start, h, to, id, job) {
        LeaseLostLater(start, h, h, from, to, id, job);
      }
    }

    /** The exception handler of one attempt: the RETRYING write, or after the last attempt the end. */
    method HandleFailure(db: Database, job: JobId, attempt: nat, error: string)
      returns (exit: Option<Exit>, ghost letters: nat)
      requires db.Valid() && job < db.nextJob && attempt <= maxAttempts
      modifies db, this`deadLetters, this`confirmedAt, this`unconfirmed
      ensures db.Valid() && old(db.nextJob) <= db.nextJob
      ensures exit.None? ==> attempt < maxAttempts && letters == 0 && unconfirmed == old(unconfirmed)
      ensures exit.Some? && !exit.value.Raised? ==> Finished(db.Snapshot(), job)
      ensures exit.Some? && exit.value.Returned? ==>
        letters == 1 && job in db.jobs && db.jobs[job].status == FAILED
      ensures exit.Some? && exit.value.CancelledOut? ==> IsCancelled(db.Snapshot(), job)
      ensures exit.Some? && exit.value.Raised? ==>
        || LeaseLost(db.start, db.history, |old(db.history)|, id, job)
        || (attempt == maxAttempts && unconfirmed == old(unconfirmed) + 1)
      ensures exit.Some? && attempt < maxAttempts ==> LeaseLost(db.start, db.history, |old(db.history)|, id, job)
      ensures letters <= 1 && (letters == 1 ==> attempt == maxAttempts)
      ensures Extends(old(db.history), db.history, id, job,
                      Tally(0, 0, if attempt < maxAttempts then 1 else 0, letters))
      ensures Lettered(old(deadLetters), old(confirmedAt), |old(db.history)|, job, letters)
      ensures FailedFollowsLetter(db.history, |old(db.history)|, job, letters)
    {
      ghost var h := db.history;
      if attempt == maxAttempts {
        var gone;
        gone, letters := GiveUp(db, job, error);
        return Some(gone), letters;
      }
      letters := 0;
      var retrying := UpdateJobStatus(db, job, Write(RETRYING, 10, None, Some(error)));
      NoFailedWrite(h, db.history, job, letters);
      match retrying
      case Ok => exit := None;
      case JobCancelled => exit := Some(CancelledOut);
      case Error => exit := Some(Raised);
    }

    /**
    _run_attempts: local retries, then the dead letter, then FAILED. It gives up only after
    exactly maxAttempts attempts; without a lost lease every attempt that breaks is followed
    by the next one as long as there is one, with a RETRYING write between them.
    */
    method RunAttempts(db: Database, job: JobId) returns (exit: Exit, ghost n: Tally)
      requires db.Valid() && job < db.nextJob && maxAttempts >= 1
      modifies db, this
      ensures db.Valid() && old(db.nextJob) <= db.nextJob
      ensures !exit.Raised? ==> Finished(db.Snapshot(), job)
      ensures exit.Returned? ==>
        job in db.jobs && db.jobs[job].status == if n.failed == 1 then FAILED else COMPLETED
      ensures exit.CancelledOut? ==> IsCancelled(db.Snapshot(), job)
      ensures exit.Raised? ==>
        || LeaseLost(db.start, db.history, |old(db.history)|, id, job)
        || (n.begins == maxAttempts && unconfirmed == old(unconfirmed) + 1)
      ensures Extends(old(db.history), db.history, id, job, n)
      ensures n.claims == 0 && 1 <= n.begins <= maxAttempts && n.failed <= 1
      ensures n.failed == 1 ==> n.begins == maxAttempts && n.retries == maxAttempts - 1
      ensures !LeaseLost(db.start, db.history, |old(db.history)|, id, job) ==>
        && n.retries == n.begins - 1
        && n.begins == breaks - old(breaks) + if breaks - old(breaks) == maxAttempts then 0 else 1
      ensures Lettered(old(deadLetters), old(confirmedAt), |old(db.history)|, job, n.failed)
      ensures FailedFollowsLetter(db.history, |old(db.history)|, job, n.failed)
    {
      ghost var h := db.history;
      exit, n := Returned, NONE;
      for attempt := 1 to maxAttempts + 1
        invariant db.Valid() && old(db.nextJob) <= db.nextJob && job < db.nextJob
        invariant attempt <= maxAttempts && deadLetters == old(deadLetters) && confirmedAt == old(confirmedAt)
        invariant n == Tally(0, attempt - 1, attempt - 1, 0) && unconfirmed == old(unconfirmed)
        invariant Extends(h, db.history, id, job, n)
        invariant breaks == old(breaks) + attempt - 1 || LeaseLost(db.start, db.history, |h|, id, job)
      {
        ghost var top := db.history;
        var t := AttemptOnce(db, job);
        n := n.(begins := attempt);
        StillLost(db.start, top, db.history, |h|, |top|, job);
        if !t.FailedAttempt? {
          NoFailedWrite(h, db.history, job, 0);
          return if t.Completed? then Returned else CancelledOut, n;
        }
        ghost var before := db.history;
        NoFailedWrite(h, before, job, 0);
        var exits;
        ghost var letters;
        exits, letters := HandleFailure(db, job, attempt, t.error);
        n := n.(retries := if attempt < maxAttempts then attempt else attempt - 1, failed := letters);
        StillLost(db.start, before, db.history, |h|, |before|, job);
        if exits.Some? {
          return exits.value, n;
        }
      }
    }

    /** A lease found lost before, or since index `to`, is lost in the whole stretch from `from` on. */
    lemma StillLost(start: int, h: seq<Txn>, later: seq<Txn>, from: nat, to: nat, job: JobId)
      requires h <= later && from <= to
      ensures LeaseLost(start, h, from, id, job) || LeaseLost(start, later, to, id, job) ==>
              LeaseLost(start, later, from, id, job)
    {
      if LeaseLost(start, h, from, id, job) {
        LeaseLostLater(start, h, later, from, from, id, job);
      } else if LeaseLost(start, later, to, id, job) {
        LeaseLostLater(start, later, later, from, to, id, job);
      }
    }

    /**
    wait_for_job_claim. It claims once for every time it finds no shutdown requested. Without
    a claim the answer is: shutdown was requested, or the job is unknown (None) or over (its
    terminal status).
    */
    method WaitForJobClaim(db: Database, job: JobId, shutdown: ShutdownSignal)
      returns (claimed: bool, status: Option<Status>)
      requires db.Valid() && job < db.nextJob
      modifies db, shutdown
      ensures db.Valid() && old(db.nextJob) <= db.nextJob
      ensures shutdown.readsLeft <= old(shutdown.readsLeft)
      ensures Extends(old(db.history), db.history, id, job,
                      Tally(old(shutdown.readsLeft) - shutdown.readsLeft, 0, 0, 0))
      ensures claimed ==> status == Some(PROCESSING) && Owns(db.Snapshot(), job, id)
      ensures !claimed ==> shutdown.readsLeft == 0 || Finished(db.Snapshot(), job)
      ensures !claimed && status.None? ==> shutdown.readsLeft == 0 || job !in db.jobs
    {
      var stop := shutdown.IsSet();
      while !stop
        invariant db.Valid() && old(db.nextJob) <= db.nextJob && job < db.nextJob
        invariant shutdown.readsLeft + (if stop then 0 else 1) <= old(shutdown.readsLeft)
        invariant Extends(old(db.history), db.history, id, job,
                          Tally(old(shutdown.readsLeft) - shutdown.readsLeft - if stop then 0 else 1, 0, 0, 0))
        invariant stop ==> shutdown.readsLeft == 0
        decreases !stop, shutdown.readsLeft
      {
        OthersRun(db, job);
        ExtendsByOne(db.history, Txn.ClaimJob(job, id, leaseTimeout), id, job);
        claimed, status := WorkerDatabase.ClaimJob(db, job, id, leaseTimeout);
        if claimed || status.None? {
          return;
        }
        if status.value in {COMPLETED, FAILED, CANCELLED} {
          return false, status;
        }
        stop := shutdown.IsSet();
      }
      return false, None;
    }

    /**
    handle_job. It reports the message as handled only when the job is over, and leaves it
    for later only on shutdown. It begins at most maxAttempts attempts, gives up only after
    all of them, and every FAILED write of it follows a confirmed dead letter.
    */
    method HandleJob(db: Database, job: JobId, shutdown: ShutdownSignal) returns (r: Handling, ghost n: Tally)
      requires db.Valid() && job < db.nextJob && maxAttempts >= 1
      modifies db, this, shutdown
      ensures db.Valid() && old(db.nextJob) <= db.nextJob
      ensures r.Handled? ==> Finished(db.Snapshot(), job)
      ensures r.LeftForLater? ==> shutdown.readsLeft == 0 && n.begins == 0
      ensures r.Crashed? ==>
        || LeaseLost(db.start, db.history, |old(db.history)|, id, job)
        || (n.begins == maxAttempts && unconfirmed == old(unconfirmed) + 1)
      ensures Extends(old(db.history), db.history, id, job, n)
      ensures n.begins <= maxAttempts && n.failed <= 1
      ensures n.failed == 1 ==> n.begins == maxAttempts && n.retries == maxAttempts - 1
      ensures n.begins > 0 && !LeaseLost(db.start, db.history, |old(db.history)|, id, job) ==>
        && n.retries == n.begins - 1
        && n.begins == breaks - old(breaks) + if breaks - old(breaks) == maxAttempts then 0 else 1
      ensures Lettered(old(deadLetters), old(confirmedAt), |old(db.history)|, job, n.failed)
      ensures FailedFollowsLetter(db.history, |old(db.history)|, job, n.failed)
      ensures shutdown.readsLeft <= old(shutdown.readsLeft)
    {
      ghost var h := db.history;
      ghost var budget := shutdown.readsLeft;
      var claimed, status := WaitForJobClaim(db, job, shutdown);
      n := Tally(budget - shutdown.readsLeft, 0, 0, 0);
      NoFailedWrite(h, db.history, job, 0);
      var stop := shutdown.IsSet();
      if stop {
        return LeftForLater, n;
      }
      if status.None? || !claimed {
        return Handled, n;
      }
      var exit;
      ghost var tried;
      ghost var claimedAt := |db.history|;
      exit, tried := RunAttempts(db, job);
      n := Plus(n, tried);
      StillLost(db.start, db.history, db.history, |h|, claimedAt, job);
      r := if exit.Raised? then Crashed else Handled;
    }

    /** What every message below `offset` names stays over while others commit. */
    lemma StillFinished(db: Database, h: seq<Txn>, log: seq<JobId>, offset: nat)
      requires db.Valid() && h <= db.history && offset <= |log|
      requires forall o | 0 <= o < offset :: Finished(Run(EmptyDb(db.start), h), log[o])
      ensures forall o | 0 <= o < offset :: Finished(db.Snapshot(), log[o])
    {
      forall o | 0 <= o < offset
        ensures Finished(db.Snapshot(), log[o])
      {
        FinishedLater(db.start, h, db.history, log[o]);
      }
    }

    /** One polled message: handle it, then commit its offset; None lets the session go on. */
    method ServeMessage(db: Database, consumer: Consumer, offset: nat, shutdown: ShutdownSignal)
      returns (end: Option<SessionEnd>)
      requires db.Valid() && maxAttempts >= 1 && offset == consumer.committed < |consumer.log|
      requires forall o | 0 <= o < |consumer.log| :: consumer.log[o] < db.nextJob
      requires forall o | 0 <= o < offset :: Finished(db.Snapshot(), consumer.log[o])
      modifies db, this, shutdown, consumer`committed, consumer`accepted, consumer`refused
      ensures db.Valid() && old(db.nextJob) <= db.nextJob && shutdown.readsLeft <= old(shutdown.readsLeft)
      ensures consumer.committed == offset + (if end.None? then 1 else 0)
      ensures forall o | 0 <= o < consumer.committed :: Finished(db.Snapshot(), consumer.log[o])
      ensures consumer.accepted == old(consumer.accepted) + if end.None? then 1 else 0
      ensures consumer.refused == old(consumer.refused) + if end == Some(Lost) then 1 else 0
      ensures end.Some? ==> end == Some(Lost) || (end.value.Unfinished? && !end.value.handling.Handled?)
      ensures end == Some(Lost) ==> Finished(db.Snapshot(), consumer.log[offset])
    {
      ghost var h := db.history;
      var handling, _ := HandleJob(db, consumer.log[offset], shutdown);
      StillFinished(db, h, consumer.log, offset);
      if !handling.Handled? {
        return Some(Unfinished(handling));
      }
      h := db.history;
      OthersRun(db, 0);
      StillFinished(db, h, consumer.log, offset + 1);
      var committed := consumer.Commit(offset);
      end := if committed then None else Some(Lost);
    }

    /**
    run_consumer_session on one partition. Every message below the committed offset names a
    finished job; every message that was polled and handled was committed, unless the broker
    refused, and the session ends only on shutdown, with an unfinished message, or lost.
    */
    method RunConsumerSession(db: Database, consumer: Consumer, shutdown: ShutdownSignal) returns (end: SessionEnd)
      requires db.Valid() && maxAttempts >= 1
      requires consumer.committed == consumer.position <= |consumer.log|
      requires forall o | 0 <= o < |consumer.log| :: consumer.log[o] < db.nextJob
      requires forall o | 0 <= o < consumer.committed :: Finished(db.Snapshot(), consumer.log[o])
      modifies db, this, shutdown, consumer`position, consumer`committed, consumer`polls, consumer`accepted,
               consumer`refused, consumer`losses
      ensures db.Valid() && old(consumer.committed) <= consumer.committed <= consumer.position <= |consumer.log|
      ensures forall o | 0 <= o < consumer.committed :: Finished(db.Snapshot(), consumer.log[o])
      ensures consumer.committed - old(consumer.committed) == consumer.accepted - old(consumer.accepted)
      ensures end.Stopped? ==> shutdown.readsLeft == 0 && consumer.position == consumer.committed
      ensures end.Stopped? ==> consumer.refused == old(consumer.refused) && consumer.losses == old(consumer.losses)
      ensures end.Unfinished? ==> consumer.position == consumer.committed + 1 && !end.handling.Handled?
      ensures end.Lost? ==>
        || (consumer.losses == old(consumer.losses) + 1 && consumer.position == consumer.committed)
        || (consumer.refused == old(consumer.refused) + 1 && consumer.position == consumer.committed + 1
            && Finished(db.Snapshot(), consumer.log[consumer.committed]))
      ensures consumer.position == old(consumer.position) ==>
        consumer.polls - old(consumer.polls) == old(shutdown.readsLeft) - shutdown.readsLeft
    {
      ghost var first := consumer.position;
      var stop := shutdown.IsSet();
      while !stop
        invariant db.Valid() && old(consumer.committed) <= consumer.committed == consumer.position <= |consumer.log|
        invariant forall o | 0 <= o < |consumer.log| :: consumer.log[o] < db.nextJob
        invariant forall o | 0 <= o < consumer.committed :: Finished(db.Snapshot(), consumer.log[o])
        invariant consumer.committed - old(consumer.committed) == consumer.accepted - old(consumer.accepted)
        invariant consumer.refused == old(consumer.refused) && consumer.losses == old(consumer.losses)
        invariant consumer.position == first ==>
          consumer.polls - old(consumer.polls) + (if stop then 0 else 1) == old(shutdown.readsLeft) - shutdown.readsLeft
        invariant stop ==> shutdown.readsLeft == 0
        decreases !stop, shutdown.readsLeft
      {
        ghost var h := db.history;
        OthersRun(db, 0);
        StillFinished(db, h, consumer.log, consumer.committed);
        var message := consumer.Poll();
        if message.SessionLost? {
          return Lost;
        }
        if message.Message? {
          var ended := ServeMessage(db, consumer, message.offset, shutdown);
          if ended.Some? {
            return ended.value;
          }
        }
        stop := shutdown.IsSet();
      }
      end := Stopped;
    }
  }

  datatype Polled = Nothing | Message(offset: nat) | SessionLost

  datatype SessionEnd = Stopped | Unfinished(handling: Handling) | Lost

  /** One Kafka consumer on one partition: messages name jobs, offsets count messages. */
  class Consumer {
    const log: seq<JobId>
    var position: nat
    var committed: nat
    // Polls made, commits the broker accepted and refused, and sessions the broker took away.
    var polls: nat
    var accepted: nat
    var refused: nat
    var losses: nat

    constructor (log: seq<JobId>, committed: nat)
      ensures this.log == log && this.committed == position == committed
      ensures polls == 0 && accepted == 0 && refused == 0 && losses == 0
    {
      this.log, this.committed, position := log, committed, committed;
      polls, accepted, refused, losses := 0, 0, 0, 0;
    }

    method Poll() returns (r: Polled)
      modifies this`position, this`polls, this`losses
      ensures polls == old(polls) + 1
      ensures r.Message? ==> r.offset == old(position) < |log| && position == old(position) + 1
      ensures !r.Message? ==> position == old(position)
      ensures losses == old(losses) + if r.SessionLost? then 1 else 0
    {
      polls := polls + 1;
      var lost: bool := *;
      var available: bool := *;
      if lost {
        losses := losses + 1;
        return SessionLost;
      }
      if available && position < |log| {
        position := position + 1;
        return Message(position - 1);
      }
      r := Nothing;
    }

    /** commit(message=...): the committed offset is that of the next message to read. */
    method Commit(offset: nat) returns (ok: bool)
      modifies this`committed, this`accepted, this`refused
      ensures ok ==> committed == offset + 1 && accepted == old(accepted) + 1 && refused == old(refused)
      ensures !ok ==> committed == old(committed) && accepted == old(accepted) && refused == old(refused) + 1
    {
      ok := *;
      if ok {
        committed, accepted := offset + 1, accepted + 1;
      } else {
        refused := refused + 1;
      }
    }
  }

  // ------------------------------------------------------------ the heartbeat

  predicate IsBeat(t: Txn, worker: WorkerId, job: JobId) {
    t.RefreshLease? && t.id == job && t.worker == worker
  }

  function CountBeats(h: seq<Txn>, worker: WorkerId, job: JobId): nat {
    if h == [] then 0
    else CountBeats(h[..|h| - 1], worker, job) + if IsBeat(h[|h| - 1], worker, job) then 1 else 0
  }

  lemma BeatsNext(h: seq<Txn>, t: Txn, worker: WorkerId, job: JobId)
    ensures CountBeats(h + [t], worker, job) == CountBeats(h, worker, job) + if IsBeat(t, worker, job) then 1 else 0
  {
    assert (h + [t])[..|h + [t]| - 1] == h;
  }

  /** The refreshes since index `from` all found the worker owning the leased row, except perhaps the last entry. */
  ghost predicate BeatsAccepted(start: int, h: seq<Txn>, from: nat, worker: WorkerId, job: JobId, lost: bool) {
    forall i | from <= i < |h| && IsBeat(h[i], worker, job) ::
      OwnsLeased(Run(EmptyDb(start), h[..i]), job, worker) <==> !(lost && i == |h| - 1)
  }

  lemma BeatsAcceptedNext(start: int, h: seq<Txn>, from: nat, t: Txn, worker: WorkerId, job: JobId, lost: bool)
    requires from <= |h| && BeatsAccepted(start, h, from, worker, job, false)
    requires IsBeat(t, worker, job) ==> (lost <==> !OwnsLeased(Run(EmptyDb(start), h), job, worker))
    requires lost ==> IsBeat(t, worker, job)
    ensures BeatsAccepted(start, h + [t], from, worker, job, lost)
  {
    assert (h + [t])[..|h|] == h;
    assert forall i | 0 <= i < |h| :: (h + [t])[..i] == h[..i];
  }

  /** The heartbeat thread's connection to the database, which fails now and then. */
  class LeaseConnection {
    var failures: nat

    constructor ()
      ensures failures == 0
    {
      failures := 0;
    }

    /** refresh_job_lease; None is a database error, and nothing was committed. */
    method Refresh(db: Database, job: JobId, worker: WorkerId) returns (refreshed: Option<bool>)
      requires db.Valid()
      modifies this, db
      ensures db.Valid()
      ensures refreshed.None? ==> failures == old(failures) + 1 && db.history == old(db.history)
      ensures refreshed.Some? ==>
        failures == old(failures) && db.history == old(db.history) + [RefreshLease(job, worker)]
      ensures refreshed.Some? ==> (refreshed.value <==> OwnsLeased(old(db.Snapshot()), job, worker))
    {
      var databaseError: bool := *;
      if databaseError {
        failures := failures + 1;
        return None;
      }
      var accepted := RefreshJobLease(db, job, worker);
      refreshed := Some(accepted);
    }
  }

  /** Anything the other processes and this worker's main thread commit at this point. */
  method OthersThanHeartbeat(db: Database, worker: WorkerId, job: JobId, ghost from: nat)
    requires db.Valid() && from <= |db.history|
    requires BeatsAccepted(db.start, db.history, from, worker, job, false)
    modifies db
    ensures db.Valid() && old(db.history) <= db.history
    ensures CountBeats(db.history, worker, job) == CountBeats(old(db.history), worker, job)
    ensures BeatsAccepted(db.start, db.history, from, worker, job, false)
  {
    var ts: seq<Txn> := *;
    for i := 0 to |ts|
      invariant db.Valid() && old(db.history) <= db.history
      invariant CountBeats(db.history, worker, job) == CountBeats(old(db.history), worker, job)
      invariant BeatsAccepted(db.start, db.history, from, worker, job, false)
    {
      if !IsBeat(ts[i], worker, job) {
        BeatsNext(db.history, ts[i], worker, job);
        BeatsAcceptedNext(db.start, db.history, from, ts[i], worker, job, false);
        db.CommitElsewhere(ts[i]);
      }
    }
  }

  /**
  The heartbeat thread. Every interval commits one refresh or meets a database error, which
  it survives; it ends when told to stop, or for good at the first refresh that is refused.
  */
  method RunHeartbeat(db: Database, connection: LeaseConnection, worker: WorkerId, job: JobId, stop: ShutdownSignal)
    returns (lost: bool)
    requires db.Valid()
    modifies db, connection, stop
    ensures db.Valid() && old(db.history) <= db.history
    ensures old(stop.readsLeft) - stop.readsLeft ==
      CountBeats(db.history, worker, job) - CountBeats(old(db.history), worker, job)
      + connection.failures - old(connection.failures)
    ensures BeatsAccepted(db.start, db.history, |old(db.history)|, worker, job, lost)
    ensures !lost ==> stop.readsLeft == 0
    ensures lost ==> |old(db.history)| < |db.history| && IsBeat(db.history[|db.history| - 1], worker, job)
  {
    lost := false;
    ghost var from := |db.history|;
    var stopped := stop.IsSet();
    while !stopped
      invariant db.Valid() && old(db.history) <= db.history && !lost
      invariant stopped ==> stop.readsLeft == 0
      invariant old(stop.readsLeft) - stop.readsLeft ==
        CountBeats(db.history, worker, job) - CountBeats(old(db.history), worker, job)
        + connection.failures - old(connection.failures) + if stopped then 0 else 1
      invariant BeatsAccepted(db.start, db.history, from, worker, job, false)
      decreases !stopped, stop.readsLeft
    {
      OthersThanHeartbeat(db, worker, job, from);
      BeatsNext(db.history, RefreshLease(job, worker), worker, job);
      ghost var refused := !OwnsLeased(db.Snapshot(), job, worker);
      BeatsAcceptedNext(db.start, db.history, from, RefreshLease(job, worker), worker, job, refused);
      var refreshed := connection.Refresh(db, job, worker);
      if refreshed == Some(false) {
        return true;
      }
      stopped := stop.IsSet();
    }
  }
}
