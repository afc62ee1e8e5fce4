/**
That a delivered message is processed: from every state in which the next message names a
job that is free, an undisturbed worker completes it, or retries and buries it.
*/
module ProtocolProgress {
  import opened Wrappers
  import opened Tables
  import opened RowInvariants
  import opened AcceptedWrites
  import opened Protocol
  import opened ProtocolSteps

  lemma CompletesAttempt(s: Sys, id: WorkerId, f: Fetch, n: nat, results: map<string, ObjectKey>)
    requires id in s.workers && s.workers[id].pc == Working(f, n) && Owns(s.db, f.job, id)
    ensures var z, w := Next(s, Main(id, Complete(results, Fine))), Write(COMPLETED, 100, Some(results), None);
      Moved(s, z, id, Handled(f)) && z.db == Commit(s.db, UpdateStatus(f.job, id, w, s.cfg.retentionHours))
  {}

  /** The row of a job completed by an attempt that began on row `j`. */
  predicate CompletedFrom(j: Job, j': Job, results: map<string, ObjectKey>, now: int, hours: int) {
    && j'.status == COMPLETED && j'.progress == 100 && j'.results == Some(results) && j'.worker.None?
    && j'.attempts == j.attempts + 1 && j'.expiresAt == Some(now + hours * 3_600_000_000)
  }

  lemma CompletingRow(db: Db, id: WorkerId, job: JobId, results: map<string, ObjectKey>, hours: int)
    requires DbOk(db) && job in db.jobs && db.jobs[job].worker == Some(id)
    ensures var begun := Commit(db, BeginAttempt(job, id));
      var z := Commit(begun, UpdateStatus(job, id, Write(COMPLETED, 100, Some(results), None), hours));
      Owns(begun, job, id) && job in z.jobs && CompletedFrom(db.jobs[job], z.jobs[job], results, db.now, hours)
  {
    var w := Write(COMPLETED, 100, Some(results), None);
    OwnerWrites(db, job, id, w, hours);
    StepKeepsDbOk(db, BeginAttempt(job, id));
    OwnerWrites(Commit(db, BeginAttempt(job, id)), job, id, w, hours);
  }

  function Completing(id: WorkerId, results: map<string, ObjectKey>): seq<Step> {
    [Main(id, Begin(Fine)), Main(id, Complete(results, Fine))]
  }

  lemma AttemptCompletes(s: Sys, id: WorkerId, f: Fetch, n: nat, results: map<string, ObjectKey>)
    requires DbOk(s.db) && id in s.workers && s.workers[id].pc == Starting(f, n)
    requires f.job in s.db.jobs && s.db.jobs[f.job].worker == Some(id)
    ensures var z := Exec(s, Completing(id, results));
      && Moved(s, z, id, Handled(f)) && f.job in z.db.jobs
      && CompletedFrom(s.db.jobs[f.job], z.db.jobs[f.job], results, s.db.now, s.cfg.retentionHours)
  {
    var s1 := Next(s, Main(id, Begin(Fine)));
    ExecTwo(s, Main(id, Begin(Fine)), Main(id, Complete(results, Fine)));
    CompletingRow(s.db, id, f.job, results, s.cfg.retentionHours);
    BeginsAttempt(s, id, f, n);
    CompletesAttempt(s1, id, f, n, results);
  }

  /**
  A delivered message is processed: from every state in which a free job's message is next,
  the worker's steps claim it, complete it with its results, and commit past the message.
  */
  lemma DeliveryCompletes(s: Sys, id: WorkerId, p: nat, job: JobId, results: map<string, ObjectKey>)
    requires DbOk(s.db) && Delivers(s, id, p, job) && Free(s, job)
    ensures var z := Exec(s, Taking(id, p) + Completing(id, results) + [CommitOffset(id, true, false)]);
      var o := s.workers[id].positions[p];
      && OnlyWorker(s, z, id) && job in z.db.jobs
      && CompletedFrom(s.db.jobs[job], z.db.jobs[job], results, s.db.now, s.cfg.retentionHours)
      && z.committed == s.committed[p := o + 1]
      && z.workers[id].pc == Polling && z.workers[id].positions == s.workers[id].positions[p := o + 1]
  {
    var f := Fetch(p, s.workers[id].positions[p], job);
    var taken := Exec(s, Taking(id, p));
    TakesMessage(s, id, p, job);
    ClaimTakesOver(s.db, job, id, s.cfg.leaseTimeout);
    StepKeepsDbOk(s.db, Txn.ClaimJob(job, id, s.cfg.leaseTimeout));
    AttemptCompletes(taken, id, f, 1, results);
    ExecAppend(s, Taking(id, p), Completing(id, results));
    CommitsMessage(Exec(taken, Completing(id, results)), id, f);
    ExecAppend(s, Taking(id, p) + Completing(id, results), [CommitOffset(id, true, false)]);
  }

  // ------------------------------------------------------------- a job that fails

  /** One attempt that breaks, and its retry write. */
  function Again(id: WorkerId, error: string): seq<Step> {
    [Main(id, Begin(Fine)), Main(id, Break), Main(id, Retry(error, Fine))]
  }

  /** The remaining attempts from the n-th on, each of them broken, with the retry writes between them. */
  function Breaking(id: WorkerId, n: nat, max: nat, error: string): seq<Step>
    decreases max - n
  {
    if n >= max then [Main(id, Begin(Fine)), Main(id, Break)]
    else Again(id, error) + Breaking(id, n + 1, max, error)
  }

  lemma BreaksAttempt(s: Sys, id: WorkerId, f: Fetch, n: nat)
    requires DbOk(s.db) && id in s.workers && s.workers[id].pc == Starting(f, n)
    requires f.job in s.db.jobs && s.db.jobs[f.job].worker == Some(id)
    ensures var z := Exec(s, [Main(id, Begin(Fine)), Main(id, Break)]);
      Moved(s, z, id, Failing(f, n)) && z.db == Commit(s.db, BeginAttempt(f.job, id))
  {
    ExecTwo(s, Main(id, Begin(Fine)), Main(id, Break));
    BeginsAttempt(s, id, f, n);
  }

  /** One broken attempt and its retry write. */
  lemma BreaksAndRetries(s: Sys, id: WorkerId, f: Fetch, n: nat, error: string)
    requires DbOk(s.db) && id in s.workers && s.workers[id].pc == Starting(f, n) && n < s.cfg.maxAttempts
    requires f.job in s.db.jobs && s.db.jobs[f.job].worker == Some(id)
    ensures var z := Exec(s, Again(id, error));
      Moved(s, z, id, Starting(f, n + 1)) && Tried(s.db, z.db, id, f.job, 1)
  {
    var once, again := [Main(id, Begin(Fine)), Main(id, Break)], [Main(id, Retry(error, Fine))];
    BreaksAttempt(s, id, f, n);
    TriedOnce(s.db, id, f.job, error, s.cfg.retentionHours);
    RetriesAttempt(Exec(s, once), id, f, n, error);
    ExecOne(Exec(s, once), again[0]);
    ExecAppend(s, once, again);
    assert once + again == Again(id, error);
  }

  lemma RetriesAttempt(s: Sys, id: WorkerId, f: Fetch, n: nat, error: string)
    requires id in s.workers && s.workers[id].pc == Failing(f, n) && n < s.cfg.maxAttempts && Owns(s.db, f.job, id)
    ensures var z, w := Next(s, Main(id, Retry(error, Fine))), Write(RETRYING, 10, None, Some(error));
      Moved(s, z, id, Starting(f, n + 1)) && z.db == Commit(s.db, UpdateStatus(f.job, id, w, s.cfg.retentionHours))
  {}

  /** The row keeps its owner and has been through so many more attempts. */
  predicate Tried(db: Db, db': Db, id: WorkerId, job: JobId, attempts: nat)
    requires job in db.jobs
  {
    && DbOk(db') && db'.now == db.now && job in db'.jobs && db'.jobs[job].worker == Some(id)
    && db'.jobs[job].attempts == db.jobs[job].attempts + attempts
  }

  lemma TriedOnce(db: Db, id: WorkerId, job: JobId, error: string, hours: int)
    requires DbOk(db) && job in db.jobs && db.jobs[job].worker == Some(id)
    ensures var begun := Commit(db, BeginAttempt(job, id));
      && Tried(db, begun, id, job, 1)
      && Tried(db, Commit(begun, UpdateStatus(job, id, Write(RETRYING, 10, None, Some(error)), hours)), id, job, 1)
  {
    var w := Write(RETRYING, 10, None, Some(error));
    OwnerWrites(db, job, id, w, hours);
    StepKeepsDbOk(db, BeginAttempt(job, id));
    OwnerWrites(Commit(db, BeginAttempt(job, id)), job, id, w, hours);
    StepKeepsDbOk(Commit(db, BeginAttempt(job, id)), UpdateStatus(job, id, w, hours));
  }

  /** `z` is where so many more attempts have broken, the last of them as the last there is. */
  predicate AllBroken(s: Sys, z: Sys, id: WorkerId, f: Fetch, max: nat, more: nat) {
    id in s.workers && f.job in s.db.jobs && Moved(s, z, id, Failing(f, max)) && Tried(s.db, z.db, id, f.job, more)
  }

  lemma OneMoreBroken(s: Sys, m: Sys, z: Sys, id: WorkerId, f: Fetch, n: nat, max: nat, more: nat)
    requires id in s.workers && f.job in s.db.jobs
    requires Moved(s, m, id, Starting(f, n)) && Tried(s.db, m.db, id, f.job, 1) && AllBroken(m, z, id, f, max, more)
    ensures AllBroken(s, z, id, f, max, more + 1)
  {
    MovedTwice(s, m, z, id, Starting(f, n), Failing(f, max));
  }

  lemma LastBroken(s: Sys, id: WorkerId, f: Fetch, max: nat, error: string)
    requires DbOk(s.db) && id in s.workers && s.workers[id].pc == Starting(f, max)
    requires f.job in s.db.jobs && s.db.jobs[f.job].worker == Some(id)
    ensures AllBroken(s, Exec(s, Breaking(id, max, max, error)), id, f, max, 1)
  {
    BreaksAttempt(s, id, f, max);
    TriedOnce(s.db, id, f.job, error, s.cfg.retentionHours);
  }

  lemma {:induction false} AttemptsBreak(s: Sys, id: WorkerId, f: Fetch, n: nat, max: nat, error: string)
    requires DbOk(s.db) && id in s.workers && s.workers[id].pc == Starting(f, n) && n <= max == s.cfg.maxAttempts
    requires f.job in s.db.jobs && s.db.jobs[f.job].worker == Some(id)
    ensures AllBroken(s, Exec(s, Breaking(id, n, max, error)), id, f, max, max - n + 1)
    decreases max - n
  {
    if n == max {
      LastBroken(s, id, f, max, error);
    } else {
      var m, rest := Exec(s, Again(id, error)), Breaking(id, n + 1, max, error);
      BreaksAndRetries(s, id, f, n, error);
      AttemptsBreak(m, id, f, n + 1, max, error);
      OneMoreBroken(s, m, Exec(m, rest), id, f, n + 1, max, max - n);
      ExecAppend(s, Again(id, error), rest);
    }
  }

  function Burial(id: WorkerId, error: string): seq<Step> {
    [Main(id, LastCheck(Fine)), Main(id, Bury(true)), Main(id, Condemn(error, Fine))]
  }

  lemma Buries(s: Sys, id: WorkerId, f: Fetch)
    requires id in s.workers && s.workers[id].pc == Burying(f)
    ensures var z := Next(s, Main(id, Bury(true)));
      && z.db == s.db && z.letters == s.letters + {f.job} && Moved(s, z.(letters := s.letters), id, Condemning(f))
  {}

  lemma Condemns(s: Sys, id: WorkerId, f: Fetch, error: string)
    requires id in s.workers && s.workers[id].pc == Condemning(f) && Owns(s.db, f.job, id)
    ensures var z, w := Next(s, Main(id, Condemn(error, Fine))), Write(FAILED, 0, None, Some(error));
      Moved(s, z, id, Handled(f)) && z.db == Commit(s.db, UpdateStatus(f.job, id, w, s.cfg.retentionHours))
  {}

  lemma BuriesJob(s: Sys, id: WorkerId, f: Fetch, error: string)
    requires DbOk(s.db) && id in s.workers && s.workers[id].pc == Failing(f, s.cfg.maxAttempts)
    requires f.job in s.db.jobs && s.db.jobs[f.job].worker == Some(id)
    ensures var z, w := Exec(s, Burial(id, error)), Write(FAILED, 0, None, Some(error));
      && OnlyWorker(s, z, id) && z.letters == s.letters + {f.job} && z.committed == s.committed
      && z.workers[id].pc == Handled(f) && z.workers[id].positions == s.workers[id].positions
      && z.db == Commit(s.db, UpdateStatus(f.job, id, w, s.cfg.retentionHours))
  {
    assert RowOk(s.db.jobs[f.job], s.db.now);
    ExecThree(s, Main(id, LastCheck(Fine)), Main(id, Bury(true)), Main(id, Condemn(error, Fine)));
    var checked := Next(s, Main(id, LastCheck(Fine)));
    ChecksLast(s, id, f, s.cfg.maxAttempts);
    Buries(checked, id, f);
    Condemns(Next(checked, Main(id, Bury(true))), id, f, error);
  }

  lemma AttemptsAreBuried(s: Sys, id: WorkerId, f: Fetch, error: string)
    requires DbOk(s.db) && id in s.workers && s.workers[id].pc == Starting(f, 1) && s.cfg.maxAttempts >= 1
    requires f.job in s.db.jobs && s.db.jobs[f.job].worker == Some(id)
    ensures var z := Exec(s, Breaking(id, 1, s.cfg.maxAttempts, error) + Burial(id, error));
      && OnlyWorker(s, z, id) && z.letters == s.letters + {f.job} && z.committed == s.committed
      && z.workers[id].pc == Handled(f) && f.job in z.db.jobs
      && z.db.jobs[f.job].status == FAILED && z.db.jobs[f.job].error == Some(error) && z.db.jobs[f.job].worker.None?
      && z.db.jobs[f.job].attempts == s.db.jobs[f.job].attempts + s.cfg.maxAttempts
  {
    var breaking := Breaking(id, 1, s.cfg.maxAttempts, error);
    var broken := Exec(s, breaking);
    AttemptsBreak(s, id, f, 1, s.cfg.maxAttempts, error);
    BuriesJob(broken, id, f, error);
    OwnerWrites(broken.db, f.job, id, Write(FAILED, 0, None, Some(error)), s.cfg.retentionHours);
    ExecAppend(s, breaking, Burial(id, error));
  }

  /**
  A job that keeps failing is retried and buried: when every attempt breaks, the worker's
  steps begin exactly the configured number of attempts, and end with the dead letter
  confirmed, the job FAILED with its error, and the message committed.
  */
  lemma FailureIsBuried(s: Sys, id: WorkerId, p: nat, job: JobId, error: string)
    requires DbOk(s.db) && Delivers(s, id, p, job) && Free(s, job) && s.cfg.maxAttempts >= 1
    ensures var failing := Breaking(id, 1, s.cfg.maxAttempts, error) + Burial(id, error);
      var z, o := Exec(s, Taking(id, p) + failing + [CommitOffset(id, true, false)]), s.workers[id].positions[p];
      && OnlyWorker(s, z, id) && job in z.letters && job in z.db.jobs
      && z.db.jobs[job].status == FAILED && z.db.jobs[job].error == Some(error) && z.db.jobs[job].worker.None?
      && z.db.jobs[job].attempts == s.db.jobs[job].attempts + s.cfg.maxAttempts
      && z.committed == s.committed[p := o + 1] && z.workers[id].pc == Polling
  {
    var f := Fetch(p, s.workers[id].positions[p], job);
    var failing := Breaking(id, 1, s.cfg.maxAttempts, error) + Burial(id, error);
    var taken := Exec(s, Taking(id, p));
    TakesMessage(s, id, p, job);
    ClaimTakesOver(s.db, job, id, s.cfg.leaseTimeout);
    StepKeepsDbOk(s.db, Txn.ClaimJob(job, id, s.cfg.leaseTimeout));
    AttemptsAreBuried(taken, id, f, error);
    ExecAppend(s, Taking(id, p), failing);
    CommitsMessage(Exec(taken, failing), id, f);
    ExecAppend(s, Taking(id, p) + failing, [CommitOffset(id, true, false)]);
  }
}
