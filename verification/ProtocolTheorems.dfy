/** What the protocol promises in every run from the empty installation. */
module ProtocolTheorems {
  import opened Wrappers
  import opened Tables
  import opened RowMoves
  import opened RowInvariants
  import opened Conservation
  import opened Protocol
  import opened ProtocolSafety

  // ------------------------------------------ the database of a run is a run

  /** The transactions one step commits: at most one. */
  function TxnsOf(s: Sys, x: Step): seq<Txn> {
    match x
    case Other(t) => if NotWorkerTxn(t) then [t] else []
    case Main(id, a) =>
      if id in s.workers && Enabled(s.cfg, s.workers[id], a) && !FateOf(a).LostBefore?
         && TxnOf(s.cfg, id, s.workers[id], a).Some?
      then [TxnOf(s.cfg, id, s.workers[id], a).value] else []
    case CommitBatch(r) =>
      if r in s.batches && s.batches[r].done == |s.batches[r].rows|
      then [Publish(s.batches[r].sent, s.batches[r].failed)] else []
    case _ => []
  }

  function Transactions(s: Sys, steps: seq<Step>): seq<Txn>
    decreases |steps|
  {
    if steps == [] then [] else TxnsOf(s, steps[0]) + Transactions(Next(s, steps[0]), steps[1..])
  }

  lemma StepCommits(s: Sys, x: Step)
    ensures Next(s, x).db == Run(s.db, TxnsOf(s, x))
  {
    if TxnsOf(s, x) != [] {
      assert TxnsOf(s, x)[1..] == [];
    }
  }

  /**
  The database of a protocol run is reached by a run of transactions, so everything proved
  of transaction runs (terminal states, leases, cleanup fencing, conservation) holds here.
  */
  lemma {:induction false} ProtocolRunsTransactions(s: Sys, steps: seq<Step>)
    ensures Exec(s, steps).db == Run(s.db, Transactions(s, steps))
    decreases |steps|
  {
    if steps != [] {
      StepCommits(s, steps[0]);
      ProtocolRunsTransactions(Next(s, steps[0]), steps[1..]);
      RunAppend(s.db, TxnsOf(s, steps[0]), Transactions(Next(s, steps[0]), steps[1..]));
    }
  }

  // ---------------------------------------------------------- no job is lost

  lemma {:induction false} CountedEventExists(outbox: seq<Event>, topic: Topic, id: JobId)
    requires CountEvents(outbox, topic, id) > 0
    ensures exists e: nat :: e < |outbox| && outbox[e].topic == topic && outbox[e].key == id
  {
    var last := |outbox| - 1;
    if !(outbox[last].topic == topic && outbox[last].key == id) {
      CountedEventExists(outbox[..last], topic, id);
      var e: nat :| e < last && outbox[..last][e].topic == topic && outbox[..last][e].key == id;
      assert outbox[e].topic == topic && outbox[e].key == id;
    }
  }

  /** Outbox row `e` is the created event of the job. */
  predicate CreatedRow(s: Sys, e: nat, id: JobId) {
    e < |s.db.outbox| && s.db.outbox[e].topic.JobCreated? && s.db.outbox[e].key == id
  }

  /** The row is a message that the consumer group has still to process. */
  ghost predicate AwaitsDelivery(s: Sys, e: nat) {
    exists p: nat, o: nat :: InLog(s, p, o) && s.logs[p][o] == e && p < |s.committed| && s.committed[p] <= o
  }

  /**
  No committed job is lost. After any run (crashes, redelivery, publisher rollback after a
  send, shutdown in mid-claim, consumer replacement), an unfinished job's created event is
  still pending in the outbox, or in a Kafka partition at or after its committed offset.
  */
  lemma NoCommittedJobIsLost(cfg: Config, start: int, partitions: nat, steps: seq<Step>, id: JobId)
    requires var s := Exec(Init(cfg, start, partitions), steps); id in s.db.jobs && s.db.jobs[id].status.Active()
    ensures var s := Exec(Init(cfg, start, partitions), steps);
      exists e: nat :: CreatedRow(s, e, id) && (!s.db.outbox[e].published || AwaitsDelivery(s, e))
  {
    var s := Exec(Init(cfg, start, partitions), steps);
    InitInv(cfg, start, partitions);
    ExecKeepsInv(Init(cfg, start, partitions), steps);
    CountedEventExists(s.db.outbox, JobCreated, id);
    var e: nat :| e < |s.db.outbox| && s.db.outbox[e].topic == JobCreated && s.db.outbox[e].key == id;
    assert CreatedRow(s, e, id);
    if s.db.outbox[e].published {
      assert InKafka(s, e);
      var p: nat, o: nat :| InLog(s, p, o) && s.logs[p][o] == e;
      assert o < s.committed[p] ==> Done(s, p, o);
      assert AwaitsDelivery(s, e);
    }
  }

  /** Every message below a committed offset names a job that is terminal or removed. */
  lemma CommittedMessagesAreOver(cfg: Config, start: int, partitions: nat, steps: seq<Step>, p: nat, o: nat)
    requires var s := Exec(Init(cfg, start, partitions), steps); p < |s.logs| && p < |s.committed| && o < s.committed[p]
    ensures var s := Exec(Init(cfg, start, partitions), steps);
      InLog(s, p, o) && s.db.outbox[s.logs[p][o]].topic.JobCreated? && Finished(s.db, s.db.outbox[s.logs[p][o]].key)
  {
    InitInv(cfg, start, partitions);
    ExecKeepsInv(Init(cfg, start, partitions), steps);
    assert Done(Exec(Init(cfg, start, partitions), steps), p, o);
  }

  // ------------------------------------------------------ publishing by replicas

  /**
  At-least-once publishing: whatever is marked published was appended to its topic, Kafka
  holds only genuine outbox rows of that topic, and no two passes hold the same row.
  */
  lemma PublishedRowsWereSent(cfg: Config, start: int, partitions: nat, steps: seq<Step>)
    ensures var s := Exec(Init(cfg, start, partitions), steps);
      && GenuineOk(s)
      && (forall i: nat | i < |s.db.outbox| && s.db.outbox[i].published :: InKafka(s, i))
      && (forall a, b, i | a in s.batches && b in s.batches ::
            i in s.batches[a].rows && i in s.batches[b].rows ==> a == b)
  {
    InitInv(cfg, start, partitions);
    ExecKeepsInv(Init(cfg, start, partitions), steps);
  }

  predicate EndsPass(x: Step, r: nat) {
    (x.CommitBatch? || x.AbortBatch?) && x.replica == r
  }

  lemma MainKeepsEvents(s: Sys, id: WorkerId, a: Act)
    ensures WorkerStep(s, id, a).batches == s.batches && s.db.outbox <= WorkerStep(s, id, a).db.outbox
  {
    if id in s.workers && Enabled(s.cfg, s.workers[id], a) {
      var t := TxnOf(s.cfg, id, s.workers[id], a);
      if t.Some? {
        CommitKeepsEvents(s.db, t.value);
      }
    }
  }

  /** A locked row is out of everyone else's reach. */
  lemma LockedRowUnchanged(s: Sys, x: Step, r: nat, i: nat)
    requires Inv(s) && r in s.batches && i in s.batches[r].rows && !EndsPass(x, r)
    ensures r in Next(s, x).batches && Next(s, x).batches[r].rows == s.batches[r].rows
    ensures i < |Next(s, x).db.outbox| && Next(s, x).db.outbox[i] == s.db.outbox[i]
  {
    assert BatchOk(s, s.batches[r]);
    match x
    case Other(t) =>
      if NotWorkerTxn(t) {
        CommitKeepsEvents(s.db, t);
      }
    case Main(id, a) => MainKeepsEvents(s, id, a);
    case CommitBatch(q) => OtherBatchLeavesRow(s, q, r, i);
    case _ => QuietKeepsBatch(s, x, r);
  }

  lemma QuietKeepsBatch(s: Sys, x: Step, r: nat)
    requires r in s.batches && !EndsPass(x, r) && !x.Other? && !x.Main? && !x.CommitBatch?
    ensures Next(s, x).db == s.db && r in Next(s, x).batches && Next(s, x).batches[r].rows == s.batches[r].rows
  {}

  lemma OtherBatchLeavesRow(s: Sys, q: nat, r: nat, i: nat)
    requires Inv(s) && r in s.batches && i in s.batches[r].rows && q != r
    ensures var s' := Next(s, CommitBatch(q));
      && r in s'.batches && s'.batches[r] == s.batches[r]
      && i < |s'.db.outbox| && s'.db.outbox[i] == s.db.outbox[i]
  {
    assert BatchOk(s, s.batches[r]);
    if q in s.batches {
      var b := s.batches[q];
      assert BatchOk(s, b) && i !in b.rows;
      assert b.done == |b.rows| ==> b.rows[..b.done] == b.rows;
    }
  }

  lemma {:induction false} LockedRowsUntouched(s: Sys, steps: seq<Step>, r: nat, i: nat)
    requires Inv(s) && r in s.batches && i in s.batches[r].rows
    requires forall x | x in steps :: !EndsPass(x, r)
    ensures r in Exec(s, steps).batches && Exec(s, steps).batches[r].rows == s.batches[r].rows
    ensures i < |Exec(s, steps).db.outbox| && Exec(s, steps).db.outbox[i] == s.db.outbox[i]
    decreases |steps|
  {
    if steps != [] {
      assert steps[0] in steps;
      LockedRowUnchanged(s, steps[0], r, i);
      NextKeepsInv(s, steps[0]);
      LockedRowsUntouched(Next(s, steps[0]), steps[1..], r, i);
    }
  }

  lemma AbortUnlocks(s: Sys, r: nat, i: nat)
    requires Inv(s) && r in s.batches && i in s.batches[r].rows
    ensures Next(s, AbortBatch(r)).db == s.db && i < |s.db.outbox| && !s.db.outbox[i].published
    ensures forall a | a in Next(s, AbortBatch(r)).batches :: i !in Next(s, AbortBatch(r)).batches[a].rows
  {
    assert BatchOk(s, s.batches[r]);
  }

  /**
  A rollback restores every row of the batch: whatever the pass sent and whatever everyone
  else did meanwhile, the locked rows end as they were selected, pending and unlocked.
  */
  lemma RollbackRestoresBatch(s: Sys, steps: seq<Step>, r: nat, i: nat)
    requires Inv(s) && r !in s.batches
    requires i in Next(s, LockRows(r)).batches[r].rows
    requires forall x | x in steps :: !EndsPass(x, r)
    ensures var s' := Next(Exec(Next(s, LockRows(r)), steps), AbortBatch(r));
      && i < |s.db.outbox| && i < |s'.db.outbox| && s'.db.outbox[i] == s.db.outbox[i] && !s'.db.outbox[i].published
      && (forall a | a in s'.batches :: i !in s'.batches[a].rows)
  {
    var locked := Next(s, LockRows(r));
    NextKeepsInv(s, LockRows(r));
    assert BatchOk(locked, locked.batches[r]) && locked.db == s.db;
    LockedRowsUntouched(locked, steps, r, i);
    ExecKeepsInv(locked, steps);
    AbortUnlocks(Exec(locked, steps), r, i);
  }

  // ---------------------------------------------- retries, dead letters, FAILED

  /** The attempts a claim has used up at this point of the program. */
  function AttemptsMade(cfg: Config, pc: Pc): int {
    match pc
    case Starting(_, n) => n - 1
    case Working(_, n) => n
    case Missed(_, n, _) => n
    case Failing(_, n) => n
    case Burying(_) => cfg.maxAttempts
    case Condemning(_) => cfg.maxAttempts
    case _ => 0
  }

  predicate AttemptsOk(cfg: Config, pc: Pc) {
    && 0 <= AttemptsMade(cfg, pc) <= cfg.maxAttempts
    && (pc.Starting? ==> 1 <= pc.n <= cfg.maxAttempts)
  }

  /** A clean owner has begun exactly as many attempts as its program counter says. */
  predicate BudgetOk(s: Sys, id: WorkerId, wk: Worker) {
    && AttemptsOk(s.cfg, wk.pc)
    && (PastClaim(wk.pc) && wk.clean && Owns(s.db, wk.pc.f.job, id) ==> wk.begun == AttemptsMade(s.cfg, wk.pc))
    && (wk.pc.Condemning? ==> wk.pc.f.job in s.letters)
  }

  predicate LettersOk(s: Sys) {
    forall id | id in s.db.jobs && s.db.jobs[id].status.FAILED? :: id in s.letters
  }

  predicate RetryInv(s: Sys) {
    && ConfigOk(s.cfg) && LettersOk(s)
    && forall id | id in s.workers :: BudgetOk(s, id, s.workers[id])
  }

  /** Only its own claim makes a worker the owner of a job. */
  lemma OwnershipComesFromClaims(db: Db, t: Txn, job: JobId, id: WorkerId)
    requires DbOk(db) && Owns(Commit(db, t), job, id)
    ensures Owns(db, job, id) || (t.ClaimJob? && t.id == job && t.worker == id)
  {
    if job in db.jobs {
      StepMovesRow(db, t, job);
    } else {
      StepAddsRow(db, t, job);
    }
  }

  /** Only the FAILED write of a worker makes a job FAILED. */
  lemma FailureComesFromWrites(db: Db, t: Txn, job: JobId)
    requires DbOk(db) && job in Commit(db, t).jobs && Commit(db, t).jobs[job].status.FAILED?
    ensures (job in db.jobs && db.jobs[job].status.FAILED?)
         || (t.UpdateStatus? && t.id == job && t.write.status.FAILED?)
  {
    if job in db.jobs {
      StepMovesRow(db, t, job);
    } else {
      StepAddsRow(db, t, job);
    }
  }

  /** A transaction that is not a claim of `id` leaves the budget of `id` in order. */
  lemma CommitKeepsBudget(s: Sys, t: Txn, id: WorkerId, wk: Worker)
    requires DbOk(s.db) && BudgetOk(s, id, wk) && !(t.ClaimJob? && t.worker == id)
    ensures BudgetOk(s.(db := Commit(s.db, t)), id, wk)
  {
    if PastClaim(wk.pc) && Owns(Commit(s.db, t), wk.pc.f.job, id) {
      OwnershipComesFromClaims(s.db, t, wk.pc.f.job, id);
    }
  }

  lemma CommitKeepsLetters(s: Sys, t: Txn)
    requires DbOk(s.db) && LettersOk(s)
    requires t.UpdateStatus? && t.write.status.FAILED? ==> t.id in s.letters
    ensures LettersOk(s.(db := Commit(s.db, t)))
  {
    forall id | id in Commit(s.db, t).jobs && Commit(s.db, t).jobs[id].status.FAILED?
      ensures id in s.letters
    {
      FailureComesFromWrites(s.db, t, id);
    }
  }

  lemma OwnersAreLeased(db: Db, job: JobId, id: WorkerId)
    requires DbOk(db) && Owns(db, job, id)
    ensures OwnsLeased(db, job, id)
  {}

  /** The program counter keeps the books, seen from the process alone. */
  lemma ActKeepsCount(cfg: Config, db: Db, id: WorkerId, wk: Worker, a: Act)
    requires ConfigOk(cfg) && Enabled(cfg, wk, a) && AttemptsOk(cfg, wk.pc)
    requires Owns(db, wk.pc.f.job, id) ==> OwnsLeased(db, wk.pc.f.job, id)
    ensures var wk' := AfterAct(cfg, db, id, wk, a); wk'.Some? ==>
      && AttemptsOk(cfg, wk'.value.pc)
      && (wk'.value.pc.Condemning? ==> wk.pc.Condemning? || (a.Bury? && a.confirmed))
      && (PastClaim(wk'.value.pc) && !a.Claim? ==> PastClaim(wk.pc))
      && (PastClaim(wk'.value.pc) && !a.Claim? ==>
            AttemptsMade(cfg, wk'.value.pc) == AttemptsMade(cfg, wk.pc) + if a.Begin? then 1 else 0)
      && (a.Claim? && PastClaim(wk'.value.pc) ==> wk'.value.begun == 0 == AttemptsMade(cfg, wk'.value.pc))
  {}

  lemma ActKeepsBegun(cfg: Config, db: Db, id: WorkerId, wk: Worker, a: Act)
    requires Enabled(cfg, wk, a) && !a.Claim?
    requires Owns(db, wk.pc.f.job, id) ==> OwnsLeased(db, wk.pc.f.job, id)
    ensures var wk' := AfterAct(cfg, db, id, wk, a); wk'.Some? && wk'.value.clean ==>
      wk.clean && (Owns(db, wk.pc.f.job, id) ==> wk'.value.begun == wk.begun + if a.Begin? then 1 else 0)
  {}

  /** The acting worker's own budget after its step. */
  lemma ActKeepsOwnBudget(s: Sys, id: WorkerId, a: Act)
    requires DbOk(s.db) && ConfigOk(s.cfg) && id in s.workers
    requires Enabled(s.cfg, s.workers[id], a) && BudgetOk(s, id, s.workers[id])
    ensures id in WorkerStep(s, id, a).workers ==>
      BudgetOk(WorkerStep(s, id, a), id, WorkerStep(s, id, a).workers[id])
  {
    var wk := s.workers[id];
    var s' := WorkerStep(s, id, a);
    if Owns(s.db, wk.pc.f.job, id) {
      OwnersAreLeased(s.db, wk.pc.f.job, id);
    }
    ActKeepsCount(s.cfg, s.db, id, wk, a);
    ActKeepsFetch(s, id, a);
    if !a.Claim? {
      ActKeepsBegun(s.cfg, s.db, id, wk, a);
      var t := TxnOf(s.cfg, id, wk, a);
      if Owns(s'.db, wk.pc.f.job, id) && s'.db != s.db {
        OwnershipComesFromClaims(s.db, t.value, wk.pc.f.job, id);
      }
    }
  }

  lemma MainKeepsRetryInv(s: Sys, id: WorkerId, a: Act)
    requires Inv(s) && RetryInv(s)
    ensures RetryInv(WorkerStep(s, id, a))
  {
    var s' := WorkerStep(s, id, a);
    if id in s.workers && Enabled(s.cfg, s.workers[id], a) {
      var wk := s.workers[id];
      assert BudgetOk(s, id, wk);
      var t := TxnOf(s.cfg, id, wk, a);
      ActKeepsOwnBudget(s, id, a);
      if t.Some? {
        CommitKeepsLetters(s, t.value);
      }
      forall w | w in s'.workers
        ensures BudgetOk(s', w, s'.workers[w])
      {
        if w != id {
          assert w in s.workers && BudgetOk(s, w, s.workers[w]);
          if t.Some? {
            CommitKeepsBudget(s, t.value, w, s.workers[w]);
          }
        }
      }
    }
  }

  lemma TxnKeepsRetryInv(s: Sys, t: Txn)
    requires Inv(s) && RetryInv(s) && !t.ClaimJob? && !t.UpdateStatus?
    ensures RetryInv(s.(db := Commit(s.db, t)))
  {
    CommitKeepsLetters(s, t);
    forall w | w in s.workers
      ensures BudgetOk(s.(db := Commit(s.db, t)), w, s.workers[w])
    {
      CommitKeepsBudget(s, t, w, s.workers[w]);
    }
  }

  /** The remaining steps write no table, and leave every process past its claim as it is. */
  lemma QuietStep(s: Sys, x: Step)
    requires !x.Main? && !x.Other? && !x.CommitBatch?
    ensures Next(s, x).db == s.db && Next(s, x).cfg == s.cfg && Next(s, x).letters == s.letters
    ensures forall w | w in Next(s, x).workers ::
      var wk' := Next(s, x).workers[w];
      || (!PastClaim(wk'.pc) && !wk'.pc.Condemning?)
      || (w in s.workers && s.workers[w].pc == wk'.pc
          && s.workers[w].begun == wk'.begun && s.workers[w].clean == wk'.clean)
  {}

  lemma QuietKeepsRetryInv(s: Sys, x: Step)
    requires RetryInv(s) && !x.Main? && !x.Other? && !x.CommitBatch?
    ensures RetryInv(Next(s, x))
  {
    QuietStep(s, x);
    var s' := Next(s, x);
    forall w | w in s'.workers
      ensures BudgetOk(s', w, s'.workers[w])
    {
      if PastClaim(s'.workers[w].pc) {
        assert BudgetOk(s, w, s.workers[w]);
      }
    }
  }

  lemma NextKeepsRetryInv(s: Sys, x: Step)
    requires Inv(s) && RetryInv(s)
    ensures RetryInv(Next(s, x))
  {
    match x
    case Main(id, a) => MainKeepsRetryInv(s, id, a);
    case Other(t) =>
      if NotWorkerTxn(t) {
        TxnKeepsRetryInv(s, t);
      }
    case CommitBatch(r) =>
      if r in s.batches {
        TxnKeepsRetryInv(s, Publish(s.batches[r].sent, s.batches[r].failed));
      }
    case _ => QuietKeepsRetryInv(s, x);
  }

  lemma {:induction false} ExecKeepsRetryInv(s: Sys, steps: seq<Step>)
    requires Inv(s) && RetryInv(s)
    ensures Inv(Exec(s, steps)) && RetryInv(Exec(s, steps)) && Exec(s, steps).cfg == s.cfg
    decreases |steps|
  {
    if steps != [] {
      NextKeepsInv(s, steps[0]);
      NextKeepsRetryInv(s, steps[0]);
      ExecKeepsRetryInv(Next(s, steps[0]), steps[1..]);
    }
  }

  /** A job is FAILED only after a dead letter for it was confirmed delivered. */
  lemma FailedJobsHaveDeadLetters(cfg: Config, start: int, partitions: nat, steps: seq<Step>, id: JobId)
    requires ConfigOk(cfg)
    requires var s := Exec(Init(cfg, start, partitions), steps); id in s.db.jobs && s.db.jobs[id].status.FAILED?
    ensures id in Exec(Init(cfg, start, partitions), steps).letters
  {
    InitInv(cfg, start, partitions);
    ExecKeepsRetryInv(Init(cfg, start, partitions), steps);
  }

  /**
  When a worker's FAILED write is accepted and no database call of this claim raised, the
  claim had begun exactly the configured number of attempts.
  */
  lemma FailingClaimUsedEveryAttempt(cfg: Config, start: int, partitions: nat, steps: seq<Step>, id: WorkerId)
    requires ConfigOk(cfg)
    requires var s := Exec(Init(cfg, start, partitions), steps);
      && id in s.workers && s.workers[id].pc.Condemning? && s.workers[id].clean
      && Owns(s.db, s.workers[id].pc.f.job, id)
    ensures Exec(Init(cfg, start, partitions), steps).workers[id].begun == cfg.maxAttempts
  {
    InitInv(cfg, start, partitions);
    ExecKeepsRetryInv(Init(cfg, start, partitions), steps);
    var s := Exec(Init(cfg, start, partitions), steps);
    assert BudgetOk(s, id, s.workers[id]);
  }

  // ------------------------------------------------------------- the retry budget

  /** The step is an accepted claim of the job, whether or not its worker heard the answer. */
  predicate ClaimsJob(s: Sys, x: Step, job: JobId) {
    && x.Main? && x.act.Claim? && !x.act.fate.LostBefore?
    && x.id in s.workers && Enabled(s.cfg, s.workers[x.id], x.act)
    && s.workers[x.id].pc.f.job == job && ClaimAccepted(s.db, job, s.cfg.leaseTimeout)
  }

  function ClaimCount(s: Sys, steps: seq<Step>, job: JobId): nat
    decreases |steps|
  {
    if steps == [] then 0
    else (if ClaimsJob(s, steps[0], job) then 1 else 0) + ClaimCount(Next(s, steps[0]), steps[1..], job)
  }

  /** Attempts the current owner may still begin before it has to claim again. */
  function Remaining(s: Sys, job: JobId): int
    requires job in s.db.jobs
  {
    var owner := s.db.jobs[job].worker;
    if owner.Some? && owner.value in s.workers && PastClaim(s.workers[owner.value].pc)
       && s.workers[owner.value].pc.f.job == job
    then s.cfg.maxAttempts - AttemptsMade(s.cfg, s.workers[owner.value].pc)
    else 0
  }

  function Potential(s: Sys, job: JobId): int {
    if job in s.db.jobs then s.db.jobs[job].attempts + Remaining(s, job) else 0
  }

  lemma RemainingIsNonNegative(s: Sys, job: JobId)
    requires RetryInv(s) && job in s.db.jobs
    ensures 0 <= Remaining(s, job) <= s.cfg.maxAttempts
  {
    var owner := s.db.jobs[job].worker;
    if owner.Some? && owner.value in s.workers {
      assert BudgetOk(s, owner.value, s.workers[owner.value]);
    }
  }

  /** Attempts and ownership of a row move only by begins, claims, and endings. */
  lemma RowBudget(db: Db, t: Txn, job: JobId)
    requires DbOk(db) && job in db.jobs && job in Commit(db, t).jobs
    ensures var j, j' := db.jobs[job], Commit(db, t).jobs[job];
      && j'.attempts == j.attempts + (if t.BeginAttempt? && t.id == job && OwnsLeased(db, job, t.worker) then 1 else 0)
      && (j'.worker == j.worker || j'.worker.None?
          || (t.ClaimJob? && t.id == job && ClaimAccepted(db, job, t.leaseTimeout) && j'.worker == Some(t.worker)))
  {
    StepMovesRow(db, t, job);
  }

  lemma NewRowBudget(db: Db, t: Txn, job: JobId)
    requires DbOk(db) && job !in db.jobs && job in Commit(db, t).jobs
    ensures Commit(db, t).jobs[job].attempts == 0 && Commit(db, t).jobs[job].worker.None?
  {
    StepAddsRow(db, t, job);
  }

  /** A transaction outside the workers never raises the potential. */
  lemma TxnKeepsPotential(s: Sys, t: Txn, job: JobId)
    requires Inv(s) && RetryInv(s) && !t.ClaimJob? && !t.BeginAttempt?
    ensures Potential(s.(db := Commit(s.db, t)), job) <= Potential(s, job)
  {
    if job in Commit(s.db, t).jobs {
      if job in s.db.jobs {
        RowBudget(s.db, t, job);
        RemainingIsNonNegative(s, job);
      } else {
        NewRowBudget(s.db, t, job);
      }
    } else if job in s.db.jobs {
      RemainingIsNonNegative(s, job);
    }
  }

  /** What a worker step replaces: the acting process, and the database by at most its transaction. */
  lemma StepShape(s: Sys, id: WorkerId, a: Act)
    requires id in s.workers && Enabled(s.cfg, s.workers[id], a)
    ensures var s', wk := WorkerStep(s, id, a), s.workers[id];
      var t, wk' := TxnOf(s.cfg, id, wk, a), AfterAct(s.cfg, s.db, id, wk, a);
      && s'.cfg == s.cfg && s'.workers - {id} == s.workers - {id}
      && (id in s'.workers <==> wk'.Some?) && (wk'.Some? ==> s'.workers[id] == wk'.value)
      && (s'.db == s.db || (t.Some? && !FateOf(a).LostBefore? && s'.db == Commit(s.db, t.value)))
      && (t.Some? ==> !t.value.CreateJob? && NamesJob(t.value, wk.pc.f.job, id))
      && (t.Some? && t.value.BeginAttempt? ==> a.Begin?)
      && (t.Some? && t.value.ClaimJob? ==> a.Claim?)
  {}

  predicate NamesJob(t: Txn, job: JobId, id: WorkerId) {
    (t.ClaimJob? || t.BeginAttempt? || t.RefreshLease? || t.UpdateStatus?) && t.id == job && t.worker == id
  }

  /** The potential does not rise when row and owner keep their place and `id` is not the owner at work. */
  lemma PotentialFrame(s: Sys, s': Sys, id: WorkerId, job: JobId)
    requires RetryInv(s) && s'.cfg == s.cfg && s'.workers - {id} == s.workers - {id}
    requires job in s.db.jobs && job in s'.db.jobs
    requires s'.db.jobs[job].attempts == s.db.jobs[job].attempts
    requires s'.db.jobs[job].worker == s.db.jobs[job].worker || s'.db.jobs[job].worker.None?
    requires id in s'.workers ==> !(PastClaim(s'.workers[id].pc) && s'.workers[id].pc.f.job == job)
    ensures Potential(s', job) <= Potential(s, job)
  {
    RemainingIsNonNegative(s, job);
    var owner := s'.db.jobs[job].worker;
    if owner.Some? && owner.value in s'.workers && owner.value != id {
      assert owner.value in s'.workers - {id};
    }
  }

  /** The acting worker handles another job: the row of `job` and its owner are not involved. */
  lemma BystanderKeepsPotential(s: Sys, id: WorkerId, a: Act, job: JobId)
    requires Inv(s) && RetryInv(s) && id in s.workers && Enabled(s.cfg, s.workers[id], a)
    requires s.workers[id].pc.f.job != job
    ensures Potential(WorkerStep(s, id, a), job) <= Potential(s, job)
  {
    var s' := WorkerStep(s, id, a);
    StepShape(s, id, a);
    ActKeepsFetch(s, id, a);
    WorkersAddNoRows(s, id, a, job);
    if job in s'.db.jobs {
      if s'.db != s.db {
        RowBudget(s.db, TxnOf(s.cfg, id, s.workers[id], a).value, job);
      }
      PotentialFrame(s, s', id, job);
    } else if job in s.db.jobs {
      RemainingIsNonNegative(s, job);
    }
  }

  /** One step's change to a row, given whether it began an attempt and whether it claimed. */
  predicate RowStep(j: Job, j': Job, begun: bool, claimed: bool) {
    && j'.attempts <= j.attempts + (if begun then 1 else 0)
    && (j'.worker == j.worker || j'.worker.None? || claimed)
  }

  /** Its change to the acting process, which has `owned` the row or not. */
  predicate CountStep(cfg: Config, pc: Pc, after: Option<Worker>, owned: bool, begun: bool, claimed: bool) {
    && (begun ==> !claimed && owned && PastClaim(pc) && AttemptsMade(cfg, pc) < cfg.maxAttempts)
    && (after.Some? && PastClaim(after.value.pc) && !claimed && owned ==>
          PastClaim(pc) && AttemptsMade(cfg, after.value.pc) >= AttemptsMade(cfg, pc) + if begun then 1 else 0)
  }

  function WorkerAt(s: Sys, id: WorkerId): Option<Worker> {
    if id in s.workers then Some(s.workers[id]) else None
  }

  /** The potential in terms of what the step did to the row and to the process that did it. */
  lemma ActorPotential(s: Sys, s': Sys, id: WorkerId, job: JobId, begun: bool, claimed: bool)
    requires RetryInv(s) && RetryInv(s') && s'.cfg == s.cfg && s'.workers - {id} == s.workers - {id}
    requires id in s.workers && !s.workers[id].pc.Polling? && s.workers[id].pc.f.job == job
    requires job in s.db.jobs && job in s'.db.jobs && RowStep(s.db.jobs[job], s'.db.jobs[job], begun, claimed)
    requires CountStep(s.cfg, s.workers[id].pc, WorkerAt(s', id), Owns(s.db, job, id), begun, claimed)
    ensures Potential(s', job) <= Potential(s, job) + if claimed then s.cfg.maxAttempts else 0
  {
    RemainingIsNonNegative(s, job);
    RemainingIsNonNegative(s', job);
    var owner := s'.db.jobs[job].worker;
    if owner.Some? && owner.value in s'.workers && owner.value != id {
      assert owner.value in s'.workers - {id};
    }
  }

  predicate Begins(s: Sys, id: WorkerId, a: Act, job: JobId) {
    && a.Begin? && id in s.workers && Enabled(s.cfg, s.workers[id], a)
    && WorkerStep(s, id, a).db != s.db && OwnsLeased(s.db, job, id)
  }

  /** What the acting worker's step does to the row of its job. */
  lemma ActorRow(s: Sys, id: WorkerId, a: Act, job: JobId)
    requires Inv(s) && id in s.workers && Enabled(s.cfg, s.workers[id], a)
    requires s.workers[id].pc.f.job == job && job in s.db.jobs && job in WorkerStep(s, id, a).db.jobs
    ensures RowStep(s.db.jobs[job], WorkerStep(s, id, a).db.jobs[job],
                    Begins(s, id, a, job), ClaimsJob(s, Main(id, a), job))
  {
    var wk := s.workers[id];
    StepShape(s, id, a);
    if WorkerStep(s, id, a).db != s.db {
      RowBudget(s.db, TxnOf(s.cfg, id, wk, a).value, job);
    }
  }

  /** What it does to the acting process: a begin counts, and only a claim leads past the claim. */
  lemma ActorCounts(s: Sys, id: WorkerId, a: Act, job: JobId)
    requires Inv(s) && RetryInv(s) && id in s.workers && Enabled(s.cfg, s.workers[id], a)
    requires s.workers[id].pc.f.job == job && job in s.db.jobs
    ensures CountStep(s.cfg, s.workers[id].pc, AfterAct(s.cfg, s.db, id, s.workers[id], a), Owns(s.db, job, id),
                      Begins(s, id, a, job), ClaimsJob(s, Main(id, a), job))
  {
    var wk := s.workers[id];
    assert BudgetOk(s, id, wk);
    if Owns(s.db, job, id) {
      OwnersAreLeased(s.db, job, id);
    }
    ActKeepsCount(s.cfg, s.db, id, wk, a);
  }

  lemma StepFrame(s: Sys, id: WorkerId, a: Act)
    requires id in s.workers && Enabled(s.cfg, s.workers[id], a)
    ensures WorkerStep(s, id, a).cfg == s.cfg && WorkerStep(s, id, a).workers - {id} == s.workers - {id}
    ensures WorkerAt(WorkerStep(s, id, a), id) == AfterAct(s.cfg, s.db, id, s.workers[id], a)
  {}

  /** The acting worker handles this job. */
  lemma ActorKeepsPotential(s: Sys, id: WorkerId, a: Act, job: JobId)
    requires Inv(s) && RetryInv(s) && id in s.workers && Enabled(s.cfg, s.workers[id], a)
    requires s.workers[id].pc.f.job == job && job in s.db.jobs && job in WorkerStep(s, id, a).db.jobs
    ensures Potential(WorkerStep(s, id, a), job) <=
            Potential(s, job) + if ClaimsJob(s, Main(id, a), job) then s.cfg.maxAttempts else 0
  {
    MainKeepsRetryInv(s, id, a);
    ActorRow(s, id, a, job);
    ActorCounts(s, id, a, job);
    StepFrame(s, id, a);
    ActorPotential(s, WorkerStep(s, id, a), id, job, Begins(s, id, a, job), ClaimsJob(s, Main(id, a), job));
  }

  lemma MainKeepsPotential(s: Sys, id: WorkerId, a: Act, job: JobId)
    requires Inv(s) && RetryInv(s)
    ensures Potential(WorkerStep(s, id, a), job) <=
            Potential(s, job) + if ClaimsJob(s, Main(id, a), job) then s.cfg.maxAttempts else 0
  {
    if id in s.workers && Enabled(s.cfg, s.workers[id], a) {
      assert FetchOk(s, s.workers[id].pc);
      if s.workers[id].pc.f.job != job {
        BystanderKeepsPotential(s, id, a, job);
      } else if job in s.db.jobs && job in WorkerStep(s, id, a).db.jobs {
        ActorKeepsPotential(s, id, a, job);
      } else {
        WorkersAddNoRows(s, id, a, job);
        if job in s.db.jobs {
          RemainingIsNonNegative(s, job);
        }
      }
    }
  }

  lemma WorkersAddNoRows(s: Sys, id: WorkerId, a: Act, job: JobId)
    requires id in s.workers && Enabled(s.cfg, s.workers[id], a)
    ensures job in WorkerStep(s, id, a).db.jobs ==> job in s.db.jobs
  {
    var t := TxnOf(s.cfg, id, s.workers[id], a);
    if t.Some? && job !in s.db.jobs {
      StepAddsRow(s.db, t.value, job);
    }
  }

  lemma QuietKeepsPotential(s: Sys, x: Step, job: JobId)
    requires RetryInv(s) && !x.Main? && !x.Other? && !x.CommitBatch?
    ensures Potential(Next(s, x), job) <= Potential(s, job)
  {
    QuietStep(s, x);
    if job in s.db.jobs {
      RemainingIsNonNegative(s, job);
    }
  }

  lemma CommitBatchKeepsPotential(s: Sys, r: nat, job: JobId)
    requires Inv(s) && RetryInv(s)
    ensures Potential(Next(s, CommitBatch(r)), job) <= Potential(s, job)
  {
    if r in s.batches {
      var t := Publish(s.batches[r].sent, s.batches[r].failed);
      TxnKeepsPotential(s, t, job);
      SamePotential(s.(db := Commit(s.db, t)), s.(db := Commit(s.db, t), batches := s.batches - {r}), job);
    }
  }

  /** The potential looks at the database, the processes and the configuration only. */
  lemma SamePotential(s: Sys, s': Sys, job: JobId)
    requires s'.db == s.db && s'.workers == s.workers && s'.cfg == s.cfg
    ensures Potential(s', job) == Potential(s, job)
  {}

  lemma NextKeepsPotential(s: Sys, x: Step, job: JobId)
    requires Inv(s) && RetryInv(s)
    ensures Potential(Next(s, x), job) <= Potential(s, job) + if ClaimsJob(s, x, job) then s.cfg.maxAttempts else 0
  {
    match x
    case Main(id, a) => MainKeepsPotential(s, id, a, job);
    case Other(t) =>
      if NotWorkerTxn(t) {
        TxnKeepsPotential(s, t, job);
      }
    case CommitBatch(r) => CommitBatchKeepsPotential(s, r, job);
    case _ => QuietKeepsPotential(s, x, job);
  }

  lemma AddOneClaim(budget: nat, later: nat, claims: bool)
    ensures budget * ((if claims then 1 else 0) + later) == (if claims then budget else 0) + budget * later
  {}

  lemma {:induction false} ExecKeepsPotential(s: Sys, steps: seq<Step>, job: JobId)
    requires Inv(s) && RetryInv(s)
    ensures Potential(Exec(s, steps), job) <= Potential(s, job) + s.cfg.maxAttempts * ClaimCount(s, steps, job)
    decreases |steps|
  {
    if steps != [] {
      NextKeepsInv(s, steps[0]);
      NextKeepsRetryInv(s, steps[0]);
      NextKeepsPotential(s, steps[0], job);
      var next, rest := Next(s, steps[0]), steps[1..];
      ExecKeepsPotential(next, rest, job);
      AddOneClaim(s.cfg.maxAttempts, ClaimCount(next, rest, job), ClaimsJob(s, steps[0], job));
    }
  }

  /** Retry budget: the attempts of a job never exceed the configured number per accepted claim. */
  lemma RetryBudget(cfg: Config, start: int, partitions: nat, steps: seq<Step>, job: JobId)
    requires ConfigOk(cfg)
    requires job in Exec(Init(cfg, start, partitions), steps).db.jobs
    ensures Exec(Init(cfg, start, partitions), steps).db.jobs[job].attempts <=
            cfg.maxAttempts * ClaimCount(Init(cfg, start, partitions), steps, job)
  {
    InitInv(cfg, start, partitions);
    ExecKeepsRetryInv(Init(cfg, start, partitions), steps);
    ExecKeepsPotential(Init(cfg, start, partitions), steps, job);
    RemainingIsNonNegative(Exec(Init(cfg, start, partitions), steps), job);
  }
}
