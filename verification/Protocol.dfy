/**
The whole job protocol as one state machine: the database, the Kafka partitions of the
created topic with their committed offsets, every worker process with its program counter
and heartbeat thread, and every backend replica's publishing pass. A step label says which
process moves and how its environment answers; a step that is not enabled changes nothing.
*/
module Protocol {
  import opened Wrappers
  import opened Tables
  import opened OutboxPublisher

  datatype Config = Config(maxAttempts: nat, leaseTimeout: int, retentionHours: int)

  /** A polled message: where it was read, and the job it names. */
  datatype Fetch = Fetch(partition: nat, offset: nat, job: JobId)

  /** Where a worker's main thread stands; `n` is the number of the current attempt. */
  datatype Pc =
    | Polling
    | Claiming(f: Fetch)                        // in wait_for_job_claim
    | Skipping(f: Fetch)                        // the claim loop found the job unknown or over
    | Won(f: Fetch)                             // claimed, shutdown not yet checked again
    | Starting(f: Fetch, n: nat)                // begin_job_attempt is next
    | Working(f: Fetch, n: nat)                 // inside process_audio_job or at the COMPLETED write
    | Missed(f: Fetch, n: nat, handler: bool)   // an owned write matched no row; is_job_cancelled is next
    | Failing(f: Fetch, n: nat)                 // in the exception handler
    | Burying(f: Fetch)                         // publish_dead_letter is next
    | Condemning(f: Fetch)                      // the FAILED write is next
    | Handled(f: Fetch)                         // handle_job returned True; the offset commit is next

  /**
  One running process. `begun` counts the attempts begun since the last accepted claim and
  `clean` says that no database call of its main thread has raised since (heartbeats may);
  both are only observed, never tested.
  */
  datatype Worker = Worker(
    pc: Pc, shutdown: bool, positions: map<nat, nat>, beating: bool, begun: nat, clean: bool)

  /** A publishing pass: the rows it locked, how many it has processed, and the marks it will commit. */
  datatype Batch = Batch(rows: seq<nat>, done: nat, sent: set<nat>, failed: set<nat>)

  datatype Sys = Sys(
    cfg: Config,
    db: Db,
    logs: seq<seq<nat>>,             // per partition of the created topic: outbox rows, by offset
    statusLog: seq<nat>,             // the status topic
    committed: seq<nat>,             // per partition: the group's committed offset
    batches: map<nat, Batch>,        // by replica
    workers: map<WorkerId, Worker>,  // running processes only
    letters: set<JobId>)             // jobs with a confirmed dead letter

  predicate ConfigOk(cfg: Config) { cfg.maxAttempts >= 1 }

  function Init(cfg: Config, start: int, partitions: nat): Sys {
    Sys(cfg, EmptyDb(start), seq(partitions, _ => []), [], seq(partitions, _ => 0), map[], map[], {})
  }

  // ------------------------------------------------------------------ worker steps

  /** How a database call ends: normally, or with an exception before or after its commit took effect. */
  datatype Fate = Fine | LostBefore | LostAfter

  datatype Act =
    | Claim(fate: Fate)
    | GiveUp                                  // shutdown seen while claiming or right after
    | Proceed
    | Begin(fate: Fate)
    | Report(progress: int, fate: Fate)       // a PROCESSING write of process_audio_job
    | Checkpoint(fate: Fate)                  // raise_if_job_cancelled inside process_audio_job
    | Break                                   // any other exception inside the attempt
    | Complete(results: map<string, ObjectKey>, fate: Fate)
    | Recheck(fate: Fate)
    | Retry(error: string, fate: Fate)
    | LastCheck(fate: Fate)                   // raise_if_job_cancelled before the dead letter
    | Bury(confirmed: bool)
    | Condemn(error: string, fate: Fate)
    | Beat(fate: Fate)                        // the heartbeat thread

  predicate PastClaim(pc: Pc) {
    pc.Won? || pc.Starting? || pc.Working? || pc.Missed? || pc.Failing? || pc.Burying? || pc.Condemning?
  }

  /** The `with JobLeaseHeartbeat` block. */
  predicate InLeaseBlock(pc: Pc) { PastClaim(pc) && !pc.Won? }

  predicate Enabled(cfg: Config, wk: Worker, a: Act) {
    match a
    case Claim(_) => wk.pc.Claiming? && !wk.shutdown
    case GiveUp => wk.shutdown && (wk.pc.Claiming? || wk.pc.Skipping? || wk.pc.Won?)
    case Proceed => !wk.shutdown && (wk.pc.Skipping? || wk.pc.Won?)
    case Begin(_) => wk.pc.Starting?
    case Report(p, _) => wk.pc.Working? && 15 <= p <= 99
    case Checkpoint(_) => wk.pc.Working?
    case Break => wk.pc.Working?
    case Complete(_, _) => wk.pc.Working?
    case Recheck(_) => wk.pc.Missed?
    case Retry(_, _) => wk.pc.Failing? && wk.pc.n < cfg.maxAttempts
    case LastCheck(_) => wk.pc.Failing? && wk.pc.n >= cfg.maxAttempts
    case Bury(_) => wk.pc.Burying?
    case Condemn(_, _) => wk.pc.Condemning?
    case Beat(_) => wk.beating && InLeaseBlock(wk.pc)
  }

  function FateOf(a: Act): Fate {
    match a
    case GiveUp => Fine
    case Proceed => Fine
    case Break => Fine
    case Bury(_) => Fine
    case _ => a.fate
  }

  /** The transaction an enabled act sends to the database, if it writes. */
  function TxnOf(cfg: Config, id: WorkerId, wk: Worker, a: Act): Option<Txn>
    requires Enabled(cfg, wk, a)
  {
    match a
    case Claim(_) => Some(ClaimJob(wk.pc.f.job, id, cfg.leaseTimeout))
    case Begin(_) => Some(BeginAttempt(wk.pc.f.job, id))
    case Report(p, _) => Some(UpdateStatus(wk.pc.f.job, id, Write(PROCESSING, p, None, None), cfg.retentionHours))
    case Complete(r, _) => Some(UpdateStatus(wk.pc.f.job, id, Write(COMPLETED, 100, Some(r), None), cfg.retentionHours))
    case Retry(e, _) => Some(UpdateStatus(wk.pc.f.job, id, Write(RETRYING, 10, None, Some(e)), cfg.retentionHours))
    case Condemn(e, _) => Some(UpdateStatus(wk.pc.f.job, id, Write(FAILED, 0, None, Some(e)), cfg.retentionHours))
    case Beat(_) => Some(RefreshLease(wk.pc.f.job, id))
    case _ => None
  }

  /** What claim_job tells the claim loop. */
  function AfterClaim(cfg: Config, db: Db, f: Fetch): Pc {
    if ClaimAccepted(db, f.job, cfg.leaseTimeout) then Won(f)
    else if f.job !in db.jobs || db.jobs[f.job].status.Terminal() then Skipping(f)
    else Claiming(f)
  }

  /** The process after the act, seen from the database `db` the act met; None when the process dies. */
  function AfterAct(cfg: Config, db: Db, id: WorkerId, wk: Worker, a: Act): Option<Worker>
    requires Enabled(cfg, wk, a)
  {
    var pc := wk.pc;
    var fine := FateOf(a).Fine?;
    var soiled := wk.(clean := wk.clean && fine);
    match a
    case Claim(_) =>
      if !fine then None
      else Some(wk.(pc := AfterClaim(cfg, db, pc.f), begun := 0, clean := true))
    case GiveUp => None
    case Proceed =>
      Some(if pc.Skipping? then wk.(pc := Handled(pc.f))
           else wk.(pc := Starting(pc.f, 1), beating := true))
    case Begin(fate) =>
      var counted := if !fate.LostBefore? && OwnsLeased(db, pc.f.job, id) then wk.begun + 1 else wk.begun;
      Some(soiled.(begun := counted,
                   pc := if fine && OwnsLeased(db, pc.f.job, id) then Working(pc.f, pc.n) else Failing(pc.f, pc.n)))
    case Report(_, _) =>
      Some(soiled.(pc := if !fine then Failing(pc.f, pc.n)
                         else if Owns(db, pc.f.job, id) then pc else Missed(pc.f, pc.n, false)))
    case Checkpoint(_) =>
      Some(soiled.(pc := if !fine then Failing(pc.f, pc.n)
                         else if IsCancelled(db, pc.f.job) then Handled(pc.f) else pc))
    case Break => Some(wk.(pc := Failing(pc.f, pc.n)))
    case Complete(_, _) =>
      Some(soiled.(pc := if !fine then Failing(pc.f, pc.n)
                         else if Owns(db, pc.f.job, id) then Handled(pc.f) else Missed(pc.f, pc.n, false)))
    case Recheck(_) =>
      if fine && IsCancelled(db, pc.f.job) then Some(wk.(pc := Handled(pc.f)))
      else if pc.handler then None
      else Some(soiled.(pc := Failing(pc.f, pc.n)))
    case Retry(_, _) =>
      if !fine then None
      else Some(wk.(pc := if Owns(db, pc.f.job, id) then Starting(pc.f, pc.n + 1) else Missed(pc.f, pc.n, true)))
    case LastCheck(_) =>
      if !fine then None
      else Some(wk.(pc := if IsCancelled(db, pc.f.job) then Handled(pc.f) else Burying(pc.f)))
    case Bury(confirmed) => if confirmed then Some(wk.(pc := Condemning(pc.f))) else None
    case Condemn(_, _) =>
      if !fine then None
      else Some(wk.(pc := if Owns(db, pc.f.job, id) then Handled(pc.f) else Missed(pc.f, cfg.maxAttempts, true)))
    case Beat(_) => Some(wk.(beating := !fine || OwnsLeased(db, pc.f.job, id)))
  }

  function WithWorker(s: Sys, id: WorkerId, wk: Option<Worker>): Sys {
    s.(workers := if wk.Some? then s.workers[id := wk.value] else s.workers - {id})
  }

  function WorkerStep(s: Sys, id: WorkerId, a: Act): Sys {
    if id in s.workers && Enabled(s.cfg, s.workers[id], a) then
      var wk := s.workers[id];
      var t := TxnOf(s.cfg, id, wk, a);
      WithWorker(s, id, AfterAct(s.cfg, s.db, id, wk, a))
        .(db := if t.Some? && !FateOf(a).LostBefore? then Commit(s.db, t.value) else s.db,
          letters := if a.Bury? && a.confirmed then s.letters + {wk.pc.f.job} else s.letters)
    else s
  }

  // ---------------------------------------------------------- processes and Kafka

  datatype Step =
    | Other(t: Txn)                                   // API, accounts, cleanup, the clock
    | Main(id: WorkerId, act: Act)
    | Start(id: WorkerId)
    | Crash(id: WorkerId)                             // also an uncaught exception
    | Signal(id: WorkerId)                            // SIGTERM or SIGINT
    | Exit(id: WorkerId)
    | Assign(id: WorkerId, partition: nat)
    | Revoke(id: WorkerId, partition: nat)
    | SessionLost(id: WorkerId)                       // on_lost, or an error message from poll
    | Poll(id: WorkerId, partition: nat)
    | CommitOffset(id: WorkerId, applied: bool, raised: bool)
    | LockRows(replica: nat)
    | Send(replica: nat, partition: nat, appended: bool, acknowledged: bool)
    | CommitBatch(replica: nat)
    | AbortBatch(replica: nat)                        // rollback, or the replica dies

  predicate NotWorkerTxn(t: Txn) {
    !t.ClaimJob? && !t.BeginAttempt? && !t.RefreshLease? && !t.UpdateStatus? && !t.Publish?
  }

  predicate At(s: Sys, id: WorkerId, polling: bool) {
    id in s.workers && (s.workers[id].pc.Polling? <==> polling)
  }

  function LockedRows(batches: map<nat, Batch>): set<nat> {
    set r, i | r in batches && i in batches[r].rows :: i
  }

  function SendStep(s: Sys, r: nat, partition: nat, appended: bool, acknowledged: bool): Sys {
    if r in s.batches && s.batches[r].done < |s.batches[r].rows| && partition < |s.logs|
       && s.batches[r].rows[s.batches[r].done] < |s.db.outbox| && (acknowledged ==> appended) then
      var b := s.batches[r];
      var row := b.rows[b.done];
      var created := s.db.outbox[row].topic.JobCreated?;
      s.(logs := if appended && created then s.logs[partition := s.logs[partition] + [row]] else s.logs,
         statusLog := if appended && !created then s.statusLog + [row] else s.statusLog,
         batches := s.batches[r := b.(
           done := b.done + 1,
           sent := if acknowledged then b.sent + {row} else b.sent,
           failed := if acknowledged then b.failed else b.failed + {row})])
    else s
  }

  function CommitOffsetStep(s: Sys, id: WorkerId, applied: bool, raised: bool): Sys {
    if id in s.workers && s.workers[id].pc.Handled? && (applied || raised)
       && s.workers[id].pc.f.partition < |s.committed| then
      var wk := s.workers[id];
      var f := wk.pc.f;
      s.(committed := if applied then s.committed[f.partition := f.offset + 1] else s.committed,
         workers := s.workers[id := wk.(pc := Polling, beating := false,
                                        positions := if raised then map[] else wk.positions)])
    else s
  }

  function PollStep(s: Sys, id: WorkerId, p: nat): Sys {
    if At(s, id, true) && !s.workers[id].shutdown && p in s.workers[id].positions && p < |s.logs|
       && s.workers[id].positions[p] < |s.logs[p]|
       && s.logs[p][s.workers[id].positions[p]] < |s.db.outbox| then
      var wk := s.workers[id];
      var o := wk.positions[p];
      s.(workers := s.workers[id := wk.(
           pc := Claiming(Fetch(p, o, s.db.outbox[s.logs[p][o]].key)),
           positions := wk.positions[p := o + 1])])
    else s
  }

  function Next(s: Sys, x: Step): Sys {
    match x
    case Other(t) => if NotWorkerTxn(t) then s.(db := Commit(s.db, t)) else s
    case Main(id, act) => WorkerStep(s, id, act)
    case Start(id) =>
      if id in s.workers then s
      else s.(workers := s.workers[id := Worker(Polling, false, map[], false, 0, true)])
    case Crash(id) => s.(workers := s.workers - {id})
    case Signal(id) =>
      if id in s.workers then s.(workers := s.workers[id := s.workers[id].(shutdown := true)]) else s
    case Exit(id) => if At(s, id, true) && s.workers[id].shutdown then s.(workers := s.workers - {id}) else s
    case Assign(id, p) =>
      if At(s, id, true) && p < |s.committed| then
        var wk := s.workers[id];
        s.(workers := s.workers[id := wk.(positions := wk.positions[p := s.committed[p]])])
      else s
    case Revoke(id, p) =>
      if At(s, id, true) then
        var wk := s.workers[id];
        s.(workers := s.workers[id := wk.(positions := wk.positions - {p})])
      else s
    case SessionLost(id) =>
      if At(s, id, true) then s.(workers := s.workers[id := s.workers[id].(positions := map[])]) else s
    case Poll(id, p) => PollStep(s, id, p)
    case CommitOffset(id, applied, raised) => CommitOffsetStep(s, id, applied, raised)
    case LockRows(r) =>
      if r in s.batches then s
      else s.(batches := s.batches[r :=
        Batch(SelectRows(s.db.outbox, LockedRows(s.batches), 0, BATCH_SIZE), 0, {}, {})])
    case Send(r, p, appended, acknowledged) => SendStep(s, r, p, appended, acknowledged)
    case CommitBatch(r) =>
      if r in s.batches && s.batches[r].done == |s.batches[r].rows| then
        s.(db := Commit(s.db, Publish(s.batches[r].sent, s.batches[r].failed)), batches := s.batches - {r})
      else s
    case AbortBatch(r) => s.(batches := s.batches - {r})
  }

  /** A run of the system: which process moved, and how the environment answered, at every step. */
  function Exec(s: Sys, steps: seq<Step>): Sys
    decreases |steps|
  {
    if steps == [] then s else Exec(Next(s, steps[0]), steps[1..])
  }
}
