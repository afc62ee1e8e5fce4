/**
Single steps of an undisturbed worker: what it does to its own place in the program, and
that it changes nothing else.
*/
module ProtocolSteps {
  import opened Wrappers
  import opened Tables
  import opened RowInvariants
  import opened AcceptedWrites
  import opened Protocol

  lemma ExecOne(s: Sys, x: Step)
    ensures Exec(s, [x]) == Next(s, x)
  {}

  lemma {:induction false} ExecAppend(s: Sys, first: seq<Step>, second: seq<Step>)
    ensures Exec(s, first + second) == Exec(Exec(s, first), second)
    decreases |first|
  {
    if first == [] {
      assert first + second == second;
    } else {
      assert (first + second)[1..] == first[1..] + second;
      ExecAppend(Next(s, first[0]), first[1..], second);
    }
  }

  lemma ExecTwo(s: Sys, x: Step, y: Step)
    ensures Exec(s, [x, y]) == Next(Next(s, x), y)
  {
    assert [x, y] == [x] + [y];
    ExecAppend(s, [x], [y]);
  }

  lemma ExecThree(s: Sys, x: Step, y: Step, z: Step)
    ensures Exec(s, [x, y, z]) == Next(Next(Next(s, x), y), z)
  {
    assert [x, y, z] == [x] + [y, z];
    ExecAppend(s, [x], [y, z]);
    ExecTwo(Next(s, x), y, z);
  }

  // ---------------------------------------------------------- one delivered message

  /** Worker `id` polls, and the next message of its partition names this job. */
  predicate Delivers(s: Sys, id: WorkerId, p: nat, job: JobId) {
    && id in s.workers && s.workers[id].pc == Polling && !s.workers[id].shutdown && p in s.workers[id].positions
    && p < |s.logs| == |s.committed| && s.workers[id].positions[p] < |s.logs[p]|
    && s.logs[p][s.workers[id].positions[p]] < |s.db.outbox|
    && s.db.outbox[s.logs[p][s.workers[id].positions[p]]].key == job
  }

  /** Waiting, or held by an owner that was silent for longer than the lease timeout. */
  predicate Free(s: Sys, job: JobId) {
    job in s.db.jobs &&
    var j := s.db.jobs[job];
    || j.status == PENDING
    || (j.status in {PROCESSING, RETRYING} && j.heartbeatAt.Some?
        && j.heartbeatAt.value < s.db.now - s.cfg.leaseTimeout * 1_000_000)
  }

  /** Only this worker and the database moved, from `s` to `z`. */
  predicate OnlyWorker(s: Sys, z: Sys, id: WorkerId) {
    && id in z.workers && z.workers - {id} == s.workers - {id}
    && z == s.(db := z.db, workers := z.workers, letters := z.letters, committed := z.committed)
  }

  function Taking(id: WorkerId, p: nat): seq<Step> { [Poll(id, p), Main(id, Claim(Fine)), Main(id, Proceed)] }

  /** The worker is at this point of its program, and nothing else about it or the rest changed. */
  predicate Moved(s: Sys, z: Sys, id: WorkerId, pc: Pc)
    requires id in s.workers
  {
    && OnlyWorker(s, z, id) && z.letters == s.letters && z.committed == s.committed
    && z.workers[id].pc == pc && z.workers[id].positions == s.workers[id].positions
    && z.workers[id].shutdown == s.workers[id].shutdown
  }

  lemma MovedTwice(s: Sys, m: Sys, z: Sys, id: WorkerId, pc: Pc, pc': Pc)
    requires id in s.workers && Moved(s, m, id, pc) && Moved(m, z, id, pc')
    ensures Moved(s, z, id, pc')
  {
    assert z.workers - {id} == m.workers - {id} == s.workers - {id};
  }

  /** The worker has read the message at its position; everything else is as it was. */
  predicate Read(s: Sys, z: Sys, id: WorkerId, p: nat, pc: Pc)
    requires id in s.workers && p in s.workers[id].positions
  {
    && OnlyWorker(s, z, id) && z.letters == s.letters && z.committed == s.committed
    && z.workers[id].pc == pc && !z.workers[id].shutdown
    && z.workers[id].positions == s.workers[id].positions[p := s.workers[id].positions[p] + 1]
  }

  lemma Polls(s: Sys, id: WorkerId, p: nat, job: JobId)
    requires Delivers(s, id, p, job)
    ensures var z := Next(s, Poll(id, p));
      z.db == s.db && Read(s, z, id, p, Claiming(Fetch(p, s.workers[id].positions[p], job)))
  {}

  lemma WinsClaim(s: Sys, id: WorkerId, f: Fetch)
    requires id in s.workers && s.workers[id].pc == Claiming(f) && !s.workers[id].shutdown && Free(s, f.job)
    ensures var z := Next(s, Main(id, Claim(Fine)));
      Moved(s, z, id, Won(f)) && z.db == Commit(s.db, Txn.ClaimJob(f.job, id, s.cfg.leaseTimeout))
  {}

  lemma LosesClaim(s: Sys, id: WorkerId, f: Fetch)
    requires id in s.workers && s.workers[id].pc == Claiming(f) && !s.workers[id].shutdown
    requires f.job in s.db.jobs ==> s.db.jobs[f.job].status in {COMPLETED, FAILED, CANCELLED}
    ensures var z := Next(s, Main(id, Claim(Fine))); Moved(s, z, id, Skipping(f)) && z.db == s.db
  {
    ClaimIsRefused(s.db, f.job, id, s.cfg.leaseTimeout);
  }

  lemma Proceeds(s: Sys, id: WorkerId, f: Fetch)
    requires id in s.workers && !s.workers[id].shutdown
    requires s.workers[id].pc == Won(f) || s.workers[id].pc == Skipping(f)
    ensures var z := Next(s, Main(id, Proceed));
      Moved(s, z, id, if s.workers[id].pc.Won? then Starting(f, 1) else Handled(f)) && z.db == s.db
  {}

  lemma TakesMessage(s: Sys, id: WorkerId, p: nat, job: JobId)
    requires Delivers(s, id, p, job) && Free(s, job)
    ensures var z, o := Exec(s, Taking(id, p)), s.workers[id].positions[p];
      && Read(s, z, id, p, Starting(Fetch(p, o, job), 1))
      && z.db == Commit(s.db, Txn.ClaimJob(job, id, s.cfg.leaseTimeout))
  {
    var f := Fetch(p, s.workers[id].positions[p], job);
    var polled := Next(s, Poll(id, p));
    Polls(s, id, p, job);
    WinsClaim(polled, id, f);
    Proceeds(Next(polled, Main(id, Claim(Fine))), id, f);
    ExecThree(s, Poll(id, p), Main(id, Claim(Fine)), Main(id, Proceed));
  }

  /** At the offset commit of the message at (p, o), with the job at hand over. */
  lemma CommitsMessage(s: Sys, id: WorkerId, f: Fetch)
    requires id in s.workers && s.workers[id].pc == Handled(f) && f.partition < |s.committed|
    ensures var z := Exec(s, [CommitOffset(id, true, false)]);
      && OnlyWorker(s, z, id) && z.db == s.db && z.letters == s.letters
      && z.committed == s.committed[f.partition := f.offset + 1]
      && z.workers[id].pc == Polling && z.workers[id].shutdown == s.workers[id].shutdown
      && z.workers[id].positions == s.workers[id].positions
  {
    ExecOne(s, CommitOffset(id, true, false));
  }

  lemma BeginsAttempt(s: Sys, id: WorkerId, f: Fetch, n: nat)
    requires DbOk(s.db) && id in s.workers && s.workers[id].pc == Starting(f, n)
    requires f.job in s.db.jobs && s.db.jobs[f.job].worker == Some(id)
    ensures var z := Next(s, Main(id, Begin(Fine)));
      Moved(s, z, id, Working(f, n)) && z.db == Commit(s.db, BeginAttempt(f.job, id))
  {
    assert RowOk(s.db.jobs[f.job], s.db.now);
  }

  /** raise_if_job_cancelled after the last attempt. */
  lemma ChecksLast(s: Sys, id: WorkerId, f: Fetch, n: nat)
    requires id in s.workers && s.workers[id].pc == Failing(f, n) && n >= s.cfg.maxAttempts
    ensures var z := Next(s, Main(id, LastCheck(Fine)));
      z.db == s.db && Moved(s, z, id, if IsCancelled(s.db, f.job) then Handled(f) else Burying(f))
  {}

  // ---------------------------------------------------------- nothing left to do

  lemma SkipsMessage(s: Sys, id: WorkerId, p: nat, job: JobId)
    requires Delivers(s, id, p, job)
    requires job in s.db.jobs ==> s.db.jobs[job].status in {COMPLETED, FAILED, CANCELLED}
    ensures var z, o := Exec(s, Taking(id, p)), s.workers[id].positions[p];
      z.db == s.db && Read(s, z, id, p, Handled(Fetch(p, o, job)))
  {
    var f := Fetch(p, s.workers[id].positions[p], job);
    var polled := Next(s, Poll(id, p));
    Polls(s, id, p, job);
    LosesClaim(polled, id, f);
    Proceeds(Next(polled, Main(id, Claim(Fine))), id, f);
    ExecThree(s, Poll(id, p), Main(id, Claim(Fine)), Main(id, Proceed));
  }

  /** A message whose job is over or gone is skipped and committed, and changes no table. */
  lemma FinishedMessageIsSkipped(s: Sys, id: WorkerId, p: nat, job: JobId)
    requires Delivers(s, id, p, job)
    requires job in s.db.jobs ==> s.db.jobs[job].status in {COMPLETED, FAILED, CANCELLED}
    ensures var z, o := Exec(s, Taking(id, p) + [CommitOffset(id, true, false)]), s.workers[id].positions[p];
      && OnlyWorker(s, z, id) && z.db == s.db && z.letters == s.letters
      && z.committed == s.committed[p := o + 1]
      && z.workers[id].pc == Polling && z.workers[id].positions == s.workers[id].positions[p := o + 1]
  {
    var f := Fetch(p, s.workers[id].positions[p], job);
    SkipsMessage(s, id, p, job);
    CommitsMessage(Exec(s, Taking(id, p)), id, f);
    ExecAppend(s, Taking(id, p), [CommitOffset(id, true, false)]);
  }

  /** While another owner's lease is fresh the worker keeps asking. */
  lemma HeldMessageWaits(s: Sys, id: WorkerId, f: Fetch)
    requires id in s.workers && s.workers[id].pc == Claiming(f) && !s.workers[id].shutdown && f.job in s.db.jobs
    requires s.db.jobs[f.job].status in {PROCESSING, RETRYING} && s.db.jobs[f.job].heartbeatAt.Some?
    requires s.db.jobs[f.job].heartbeatAt.value >= s.db.now - s.cfg.leaseTimeout * 1_000_000
    ensures var z := Next(s, Main(id, Claim(Fine)));
      z.db == s.db && OnlyWorker(s, z, id) && z.workers[id].pc == Claiming(f)
  {
    ClaimIsRefused(s.db, f.job, id, s.cfg.leaseTimeout);
  }
}
