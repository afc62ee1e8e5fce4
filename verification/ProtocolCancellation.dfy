/** That a worker notices a cancellation at its next write or check, and works on otherwise. */
module ProtocolCancellation {
  import opened Wrappers
  import opened Tables
  import opened RowInvariants
  import opened AcceptedWrites
  import opened Protocol
  import opened ProtocolSteps

  /** The next thing the worker hears from the database, wherever it stands in its attempts. */
  function Listening(pc: Pc, max: nat, id: WorkerId, results: map<string, ObjectKey>, error: string): seq<Step> {
    match pc
    case Working(_, _) => [Main(id, Complete(results, Fine)), Main(id, Recheck(Fine))]
    case Missed(_, _, _) => [Main(id, Recheck(Fine))]
    case Failing(_, n) =>
      if n < max then [Main(id, Retry(error, Fine)), Main(id, Recheck(Fine))] else [Main(id, LastCheck(Fine))]
    case Condemning(_) => [Main(id, Condemn(error, Fine)), Main(id, Recheck(Fine))]
    case _ => []
  }

  /** A write of a worker that owns nothing matches no row, and is_job_cancelled is next. */
  lemma WriteIsRefused(s: Sys, id: WorkerId, a: Act)
    requires id in s.workers && Enabled(s.cfg, s.workers[id], a) && FateOf(a).Fine?
    requires a.Report? || a.Complete? || a.Retry? || a.Condemn?
    requires !Owns(s.db, s.workers[id].pc.f.job, id)
    ensures var z, f := Next(s, Main(id, a)), s.workers[id].pc.f;
      z.db == s.db && id in z.workers && z.workers[id].pc.Missed? && z.workers[id].pc.f == f
      && Moved(s, z, id, z.workers[id].pc)
  {}

  lemma Rechecks(s: Sys, id: WorkerId, f: Fetch)
    requires id in s.workers && s.workers[id].pc.Missed? && s.workers[id].pc.f == f && IsCancelled(s.db, f.job)
    ensures var z := Next(s, Main(id, Recheck(Fine))); Moved(s, z, id, Handled(f)) && z.db == s.db
  {}

  lemma RefusedAndRechecked(s: Sys, id: WorkerId, a: Act)
    requires DbOk(s.db) && id in s.workers && Enabled(s.cfg, s.workers[id], a) && FateOf(a).Fine?
    requires a.Report? || a.Complete? || a.Retry? || a.Condemn?
    requires IsCancelled(s.db, s.workers[id].pc.f.job)
    ensures var z, f := Exec(s, [Main(id, a), Main(id, Recheck(Fine))]), s.workers[id].pc.f;
      Moved(s, z, id, Handled(f)) && z.db == s.db
  {
    assert RowOk(s.db.jobs[s.workers[id].pc.f.job], s.db.now);
    ExecTwo(s, Main(id, a), Main(id, Recheck(Fine)));
    WriteIsRefused(s, id, a);
    Rechecks(Next(s, Main(id, a)), id, s.workers[id].pc.f);
  }

  lemma FailingNotices(s: Sys, id: WorkerId, f: Fetch, n: nat, error: string)
    requires DbOk(s.db) && id in s.workers && s.workers[id].pc == Failing(f, n) && IsCancelled(s.db, f.job)
    ensures n < s.cfg.maxAttempts ==>
      var z := Exec(s, [Main(id, Retry(error, Fine)), Main(id, Recheck(Fine))]);
      Moved(s, z, id, Handled(f)) && z.db == s.db
    ensures n >= s.cfg.maxAttempts ==>
      var z := Exec(s, [Main(id, LastCheck(Fine))]); Moved(s, z, id, Handled(f)) && z.db == s.db
  {
    if n < s.cfg.maxAttempts {
      RefusedAndRechecked(s, id, Retry(error, Fine));
    } else {
      ExecOne(s, Main(id, LastCheck(Fine)));
      ChecksLast(s, id, f, n);
    }
  }

  lemma WritingNotices(s: Sys, id: WorkerId, results: map<string, ObjectKey>, error: string)
    requires DbOk(s.db) && id in s.workers && (s.workers[id].pc.Working? || s.workers[id].pc.Condemning?)
    requires IsCancelled(s.db, s.workers[id].pc.f.job)
    ensures var f := s.workers[id].pc.f;
      var z := Exec(s, Listening(s.workers[id].pc, s.cfg.maxAttempts, id, results, error));
      Moved(s, z, id, Handled(f)) && z.db == s.db
  {
    RefusedAndRechecked(s, id, if s.workers[id].pc.Working? then Complete(results, Fine) else Condemn(error, Fine));
  }

  /** A cancellation reaches the worker at its next write or check, and nothing is written. */
  lemma CancellationIsNoticed(s: Sys, id: WorkerId, results: map<string, ObjectKey>, error: string)
    requires DbOk(s.db) && id in s.workers
    requires var pc := s.workers[id].pc; pc.Working? || pc.Missed? || pc.Failing? || pc.Condemning?
    requires IsCancelled(s.db, s.workers[id].pc.f.job)
    ensures var f := s.workers[id].pc.f;
      var z := Exec(s, Listening(s.workers[id].pc, s.cfg.maxAttempts, id, results, error));
      Moved(s, z, id, Handled(f)) && z.db == s.db
  {
    match s.workers[id].pc
    case Working(_, _) => WritingNotices(s, id, results, error);
    case Missed(f, _, _) =>
      ExecOne(s, Main(id, Recheck(Fine)));
      Rechecks(s, id, f);
    case Failing(f, n) => FailingNotices(s, id, f, n, error);
    case Condemning(_) => WritingNotices(s, id, results, error);
  }

  lemma CheckpointNotices(s: Sys, id: WorkerId, f: Fetch, n: nat)
    requires id in s.workers && s.workers[id].pc == Working(f, n) && IsCancelled(s.db, f.job)
    ensures Moved(s, Next(s, Main(id, Checkpoint(Fine))), id, Handled(f))
  {}

  /** So does a cancellation met by a progress report, or by the check between two stages. */
  lemma CancellationInterruptsWork(s: Sys, id: WorkerId, f: Fetch, n: nat, progress: int)
    requires DbOk(s.db) && id in s.workers && s.workers[id].pc == Working(f, n) && IsCancelled(s.db, f.job)
    requires 15 <= progress <= 99
    ensures Moved(s, Exec(s, [Main(id, Report(progress, Fine)), Main(id, Recheck(Fine))]), id, Handled(f))
    ensures Moved(s, Next(s, Main(id, Checkpoint(Fine))), id, Handled(f))
  {
    RefusedAndRechecked(s, id, Report(progress, Fine));
    CheckpointNotices(s, id, f, n);
  }

  lemma OwnerReports(s: Sys, id: WorkerId, f: Fetch, n: nat, progress: int)
    requires DbOk(s.db) && id in s.workers && s.workers[id].pc == Working(f, n)
    requires f.job in s.db.jobs && s.db.jobs[f.job].worker == Some(id) && 15 <= progress <= 99
    ensures var z := Next(s, Main(id, Report(progress, Fine)));
      && Moved(s, z, id, Working(f, n)) && f.job in z.db.jobs
      && z.db.jobs[f.job].status == PROCESSING && z.db.jobs[f.job].progress == progress
      && z.db.jobs[f.job].heartbeatAt == Some(s.db.now)
  {
    OwnerWrites(s.db, f.job, id, Write(PROCESSING, progress, None, None), s.cfg.retentionHours);
  }

  lemma OwnerBeats(s: Sys, id: WorkerId, f: Fetch, n: nat)
    requires DbOk(s.db) && id in s.workers && s.workers[id].pc == Working(f, n) && s.workers[id].beating
    requires f.job in s.db.jobs && s.db.jobs[f.job].worker == Some(id)
    ensures var z := Next(s, Main(id, Beat(Fine)));
      && Moved(s, z, id, Working(f, n)) && z.workers[id].beating
      && f.job in z.db.jobs && z.db.jobs[f.job] == s.db.jobs[f.job].(heartbeatAt := Some(s.db.now))
  {
    assert RowOk(s.db.jobs[f.job], s.db.now);
  }

  /** While the lease is its own, a worker's reports and heartbeats are written, and it goes on. */
  lemma OwnerWorksOn(s: Sys, id: WorkerId, f: Fetch, n: nat, progress: int)
    requires DbOk(s.db) && id in s.workers && s.workers[id].pc == Working(f, n) && s.workers[id].beating
    requires f.job in s.db.jobs && s.db.jobs[f.job].worker == Some(id) && 15 <= progress <= 99
    ensures var z := Next(s, Main(id, Report(progress, Fine)));
      && Moved(s, z, id, Working(f, n)) && f.job in z.db.jobs
      && z.db.jobs[f.job].status == PROCESSING && z.db.jobs[f.job].progress == progress
      && z.db.jobs[f.job].heartbeatAt == Some(s.db.now)
    ensures var z := Next(s, Main(id, Beat(Fine)));
      && Moved(s, z, id, Working(f, n)) && z.workers[id].beating
      && f.job in z.db.jobs && z.db.jobs[f.job] == s.db.jobs[f.job].(heartbeatAt := Some(s.db.now))
    ensures Moved(s, Next(s, Main(id, Checkpoint(Fine))), id, Working(f, n))
  {
    OwnerReports(s, id, f, n, progress);
    OwnerBeats(s, id, f, n);
    assert RowOk(s.db.jobs[f.job], s.db.now);
  }
}
