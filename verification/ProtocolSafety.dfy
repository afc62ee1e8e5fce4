/**
No committed job is lost. The invariant ties the three stores together: every published
row is in Kafka, everything below a committed offset or a consumer's position is over, and
a message a worker reports as handled names a job that is over.
*/
module ProtocolSafety {
  import opened Wrappers
  import opened Tables
  import opened RowMoves
  import opened RowInvariants
  import opened Conservation
  import opened OutboxPublisher
  import opened Protocol

  predicate InLog(s: Sys, p: nat, o: nat) {
    p < |s.logs| && o < |s.logs[p]| && s.logs[p][o] < |s.db.outbox|
  }

  /** The message at this place names a job that is over. */
  predicate Done(s: Sys, p: nat, o: nat) {
    InLog(s, p, o) && Finished(s.db, s.db.outbox[s.logs[p][o]].key)
  }

  /** Outbox row `i` was appended to its topic. */
  ghost predicate InKafka(s: Sys, i: nat) {
    i < |s.db.outbox| &&
    if s.db.outbox[i].topic.JobCreated? then exists p: nat, o: nat :: InLog(s, p, o) && s.logs[p][o] == i
    else i in s.statusLog
  }

  /** Everything in Kafka is an outbox row of that topic. */
  predicate GenuineOk(s: Sys) {
    && (forall p, o | 0 <= p < |s.logs| && 0 <= o < |s.logs[p]| ::
          s.logs[p][o] < |s.db.outbox| && s.db.outbox[s.logs[p][o]].topic.JobCreated?)
    && (forall i | i in s.statusLog :: i < |s.db.outbox| && s.db.outbox[i].topic.JobStatus?)
  }

  /** Everything marked published, or about to be, is in Kafka. */
  ghost predicate PublishedOk(s: Sys) {
    && (forall i: nat | i < |s.db.outbox| && s.db.outbox[i].published :: InKafka(s, i))
    && (forall r, i | r in s.batches && i in s.batches[r].sent :: InKafka(s, i))
  }

  /** Locked rows are pending, and no row is locked by two passes. */
  predicate BatchOk(s: Sys, b: Batch) {
    && b.done <= |b.rows| <= BATCH_SIZE
    && (forall i | i in b.rows :: i < |s.db.outbox| && !s.db.outbox[i].published)
    && b.sent + b.failed == (set i | i in b.rows[..b.done]) && b.sent !! b.failed
    && (forall k, m | 0 <= k < m < |b.rows| :: b.rows[k] != b.rows[m])
  }

  predicate BatchesOk(s: Sys) {
    && (forall r | r in s.batches :: BatchOk(s, s.batches[r]))
    && (forall a, b | a in s.batches && b in s.batches && a != b ::
          forall i | i in s.batches[a].rows :: i !in s.batches[b].rows)
  }

  predicate OffsetsOk(s: Sys) {
    && |s.committed| == |s.logs|
    && (forall p | 0 <= p < |s.logs| :: s.committed[p] <= |s.logs[p]|)
    && (forall p, o | 0 <= p < |s.logs| && 0 <= o < s.committed[p] :: Done(s, p, o))
  }

  predicate InFlight(pc: Pc, p: nat, o: nat) {
    !pc.Polling? && pc.f.partition == p && pc.f.offset == o
  }

  /** What a consumer has read past is over, except the one message it is handling. */
  predicate PositionsOk(s: Sys, wk: Worker) {
    forall p, o | p in wk.positions && 0 <= o < wk.positions[p] :: Done(s, p, o) || InFlight(wk.pc, p, o)
  }

  /** The message in hand is where the worker read it, and everything before it is over. */
  predicate FetchOk(s: Sys, pc: Pc) {
    !pc.Polling? ==>
      && InLog(s, pc.f.partition, pc.f.offset)
      && s.db.outbox[s.logs[pc.f.partition][pc.f.offset]].key == pc.f.job < s.db.nextJob
      && (forall o | 0 <= o < pc.f.offset :: Done(s, pc.f.partition, o))
      && (pc.Skipping? || pc.Handled? ==> Finished(s.db, pc.f.job))
  }

  predicate WorkersOk(s: Sys) {
    forall id | id in s.workers :: PositionsOk(s, s.workers[id]) && FetchOk(s, s.workers[id].pc)
  }

  ghost predicate Inv(s: Sys) {
    DbOk(s.db) && OutboxOk(s.db) && GenuineOk(s) && PublishedOk(s) && BatchesOk(s) && OffsetsOk(s) && WorkersOk(s)
  }

  // ------------------------------------------------------------- what only grows

  /** Logs and outbox are append-only, delivery marks and finished jobs stay. */
  ghost predicate Grows(s: Sys, s': Sys) {
    && |s.logs| == |s'.logs| && (forall p | 0 <= p < |s.logs| :: s.logs[p] <= s'.logs[p])
    && s.statusLog <= s'.statusLog
    && |s.db.outbox| <= |s'.db.outbox|
    && (forall i | 0 <= i < |s.db.outbox| ::
          s'.db.outbox[i].topic == s.db.outbox[i].topic && s'.db.outbox[i].key == s.db.outbox[i].key)
    && (forall i | 0 <= i < |s.db.outbox| && s.db.outbox[i].published :: s'.db.outbox[i].published)
    && s.db.nextJob <= s'.db.nextJob
    && (forall id: JobId | Finished(s.db, id) :: Finished(s'.db, id))
  }

  lemma DoneGrows(s: Sys, s': Sys, p: nat, o: nat)
    requires Grows(s, s') && Done(s, p, o)
    ensures Done(s', p, o)
  {
    assert s.logs[p] <= s'.logs[p];
  }

  lemma InKafkaGrows(s: Sys, s': Sys, i: nat)
    requires Grows(s, s') && InKafka(s, i)
    ensures InKafka(s', i)
  {
    if s.db.outbox[i].topic.JobCreated? {
      var p: nat, o: nat :| InLog(s, p, o) && s.logs[p][o] == i;
      assert s.logs[p] <= s'.logs[p];
      assert InLog(s', p, o) && s'.logs[p][o] == i;
    }
  }

  /** One committed transaction, with the logs as they are. */
  lemma CommitGrows(s: Sys, t: Txn)
    requires DbOk(s.db) && OutboxOk(s.db)
    ensures Grows(s, s.(db := Commit(s.db, t)))
    ensures DbOk(Commit(s.db, t)) && OutboxOk(Commit(s.db, t))
  {
    StepKeepsRows(s.db, t);
    StepKeepsClaims(s.db, t);
    StepKeepsOutbox(s.db, t);
    StepCounters(s.db, t);
    StepAppends(s.db, t);
    forall id: JobId | Finished(s.db, id)
      ensures Finished(Commit(s.db, t), id)
    {
      StepKeepsFinished(s.db, t, id);
    }
  }

  /** No transaction but a publisher's commit changes a row that is already in the outbox. */
  lemma CommitKeepsEvents(db: Db, t: Txn)
    requires !t.Publish?
    ensures |db.outbox| <= |Commit(db, t).outbox|
    ensures forall i | 0 <= i < |db.outbox| :: Commit(db, t).outbox[i] == db.outbox[i]
    ensures forall i | |db.outbox| <= i < |Commit(db, t).outbox| :: !Commit(db, t).outbox[i].published
  {
    StepAppends(db, t);
    forall i | |db.outbox| <= i < |Commit(db, t).outbox|
      ensures !Commit(db, t).outbox[i].published
    {
      assert Commit(db, t).outbox[i] == Appended(db, t)[i - |db.outbox|];
    }
  }

  // ------------------------------------- frames: the untouched parts of the invariant

  lemma FrameOffsets(s: Sys, s': Sys)
    requires OffsetsOk(s) && Grows(s, s') && s'.committed == s.committed
    ensures OffsetsOk(s')
  {
    forall p, o | 0 <= p < |s'.logs| && 0 <= o < s'.committed[p]
      ensures Done(s', p, o)
    {
      DoneGrows(s, s', p, o);
    }
  }

  lemma FrameWorker(s: Sys, s': Sys, wk: Worker)
    requires Grows(s, s') && PositionsOk(s, wk) && FetchOk(s, wk.pc)
    ensures PositionsOk(s', wk) && FetchOk(s', wk.pc)
  {
    forall p, o | p in wk.positions && 0 <= o < wk.positions[p] && Done(s, p, o)
      ensures Done(s', p, o)
    {
      DoneGrows(s, s', p, o);
    }
    if !wk.pc.Polling? {
      var p := wk.pc.f.partition;
      assert s.logs[p] <= s'.logs[p];
      forall o | 0 <= o < wk.pc.f.offset
        ensures Done(s', p, o)
      {
        DoneGrows(s, s', p, o);
      }
    }
  }

  /** Workers other than `id` are framed; `id` itself is given. */
  lemma FrameWorkers(s: Sys, s': Sys, id: WorkerId)
    requires WorkersOk(s) && Grows(s, s') && s'.workers - {id} == s.workers - {id}
    requires id in s'.workers ==> PositionsOk(s', s'.workers[id]) && FetchOk(s', s'.workers[id].pc)
    ensures WorkersOk(s')
  {
    forall w | w in s'.workers && w != id
      ensures PositionsOk(s', s'.workers[w]) && FetchOk(s', s'.workers[w].pc)
    {
      assert w in s'.workers - {id};
      assert w in s.workers && s.workers[w] == s'.workers[w];
      FrameWorker(s, s', s.workers[w]);
    }
  }

  lemma FrameAllWorkers(s: Sys, s': Sys)
    requires WorkersOk(s) && Grows(s, s') && s'.workers == s.workers
    ensures WorkersOk(s')
  {
    forall w | w in s'.workers
      ensures PositionsOk(s', s'.workers[w]) && FetchOk(s', s'.workers[w].pc)
    {
      FrameWorker(s, s', s.workers[w]);
    }
  }

  /** Kafka, the published marks and the locked rows after a transaction that marks nothing. */
  lemma FrameDelivery(s: Sys, t: Txn)
    requires Inv(s) && !t.Publish?
    ensures var s' := s.(db := Commit(s.db, t)); GenuineOk(s') && PublishedOk(s') && BatchesOk(s')
  {
    var s' := s.(db := Commit(s.db, t));
    CommitGrows(s, t);
    CommitKeepsEvents(s.db, t);
    forall i: nat | i < |s'.db.outbox| && s'.db.outbox[i].published
      ensures InKafka(s', i)
    {
      InKafkaGrows(s, s', i);
    }
    forall r, i | r in s'.batches && i in s'.batches[r].sent
      ensures InKafka(s', i)
    {
      InKafkaGrows(s, s', i);
    }
  }

  /** Delivery state does not look at workers, committed offsets or letters. */
  lemma DeliveryDependsOn(s: Sys, s': Sys)
    requires GenuineOk(s) && PublishedOk(s) && BatchesOk(s)
    requires s'.db == s.db && s'.logs == s.logs && s'.statusLog == s.statusLog && s'.batches == s.batches
    ensures GenuineOk(s') && PublishedOk(s') && BatchesOk(s')
  {
    forall i: nat | InKafka(s, i)
      ensures InKafka(s', i)
    {
      if s.db.outbox[i].topic.JobCreated? {
        var p: nat, o: nat :| InLog(s, p, o) && s.logs[p][o] == i;
        assert InLog(s', p, o);
      }
    }
  }

  // ------------------------------------------------------------------ every step

  lemma OtherKeepsInv(s: Sys, t: Txn)
    requires Inv(s) && !t.Publish?
    ensures Inv(s.(db := Commit(s.db, t)))
    ensures Grows(s, s.(db := Commit(s.db, t)))
  {
    var s' := s.(db := Commit(s.db, t));
    CommitGrows(s, t);
    FrameDelivery(s, t);
    FrameOffsets(s, s');
    FrameAllWorkers(s, s');
  }

  /** The claim loop gives up on a job only when it is unknown or over. */
  lemma RefusedClaimIsTrue(cfg: Config, db: Db, f: Fetch)
    requires f.job < db.nextJob && AfterClaim(cfg, db, f).Skipping?
    ensures Finished(ClaimJobTxn(db, f.job, 0, cfg.leaseTimeout), f.job) && Finished(db, f.job)
    ensures !ClaimAccepted(db, f.job, cfg.leaseTimeout)
  {}

  /** An accepted terminal write ends the job. */
  lemma AcceptedEndIsTrue(db: Db, job: JobId, id: WorkerId, w: WorkerWrite, hours: int)
    requires job < db.nextJob && Owns(db, job, id) && w.status.Terminal()
    ensures Finished(UpdateStatusTxn(db, job, id, w, hours), job)
  {}

  /** Acts that skip or finish a message without writing: what they saw says that the job is over. */
  lemma SeenEndIsTrue(s: Sys, id: WorkerId, a: Act)
    requires Inv(s) && id in s.workers && Enabled(s.cfg, s.workers[id], a) && !a.Complete? && !a.Condemn? && !a.Claim?
    ensures var wk' := AfterAct(s.cfg, s.db, id, s.workers[id], a);
      wk'.Some? && (wk'.value.pc.Skipping? || wk'.value.pc.Handled?) ==>
      Finished(s.db, s.workers[id].pc.f.job) && TxnOf(s.cfg, id, s.workers[id], a).None?
  {
    assert FetchOk(s, s.workers[id].pc);
  }

  /** After this act the worker is done with its message or skips it. */
  predicate Reports(s: Sys, id: WorkerId, a: Act)
    requires id in s.workers && Enabled(s.cfg, s.workers[id], a)
  {
    var wk' := AfterAct(s.cfg, s.db, id, s.workers[id], a);
    wk'.Some? && (wk'.value.pc.Skipping? || wk'.value.pc.Handled?)
  }

  lemma ClaimReportsTruth(s: Sys, id: WorkerId, a: Act)
    requires Inv(s) && id in s.workers && Enabled(s.cfg, s.workers[id], a) && a.Claim? && Reports(s, id, a)
    ensures Finished(WorkerStep(s, id, a).db, s.workers[id].pc.f.job)
  {
    var f := s.workers[id].pc.f;
    assert FetchOk(s, s.workers[id].pc);
    if AfterClaim(s.cfg, s.db, f).Skipping? {
      RefusedClaimIsTrue(s.cfg, s.db, f);
    }
  }

  lemma CompletionReportsTruth(s: Sys, id: WorkerId, a: Act)
    requires Inv(s) && id in s.workers && Enabled(s.cfg, s.workers[id], a) && a.Complete? && Reports(s, id, a)
    ensures Finished(WorkerStep(s, id, a).db, s.workers[id].pc.f.job)
  {
    var f := s.workers[id].pc.f;
    assert FetchOk(s, s.workers[id].pc);
    if Owns(s.db, f.job, id) {
      AcceptedEndIsTrue(s.db, f.job, id, Write(COMPLETED, 100, Some(a.results), None), s.cfg.retentionHours);
    }
  }

  lemma FailureReportsTruth(s: Sys, id: WorkerId, a: Act)
    requires Inv(s) && id in s.workers && Enabled(s.cfg, s.workers[id], a) && a.Condemn? && Reports(s, id, a)
    ensures Finished(WorkerStep(s, id, a).db, s.workers[id].pc.f.job)
  {
    var f := s.workers[id].pc.f;
    assert FetchOk(s, s.workers[id].pc);
    if Owns(s.db, f.job, id) {
      AcceptedEndIsTrue(s.db, f.job, id, Write(FAILED, 0, None, Some(a.error)), s.cfg.retentionHours);
    }
  }

  /** A worker that is done with its message, or skips it, has seen or caused the end of the job. */
  lemma WorkerReportsTruth(s: Sys, id: WorkerId, a: Act)
    requires Inv(s) && id in s.workers && Enabled(s.cfg, s.workers[id], a)
    ensures Reports(s, id, a) ==> Finished(WorkerStep(s, id, a).db, s.workers[id].pc.f.job)
  {
    if Reports(s, id, a) {
      match a
      case Claim(_) => ClaimReportsTruth(s, id, a);
      case Complete(_, _) => CompletionReportsTruth(s, id, a);
      case Condemn(_, _) => FailureReportsTruth(s, id, a);
      case _ => SeenEndIsTrue(s, id, a);
    }
  }

  lemma ActKeepsFetch(s: Sys, id: WorkerId, a: Act)
    requires id in s.workers && Enabled(s.cfg, s.workers[id], a)
    ensures var wk, wk' := s.workers[id], AfterAct(s.cfg, s.db, id, s.workers[id], a);
      !wk.pc.Polling? && (wk'.Some? ==>
        !wk'.value.pc.Polling? && wk'.value.pc.f == wk.pc.f && wk'.value.positions == wk.positions)
  {}

  /** The database half of a worker step. */
  lemma MainDatabase(s: Sys, id: WorkerId, a: Act)
    requires Inv(s) && id in s.workers && Enabled(s.cfg, s.workers[id], a)
    ensures var mid := s.(db := WorkerStep(s, id, a).db); Inv(mid) && Grows(s, mid)
  {
    var t := TxnOf(s.cfg, id, s.workers[id], a);
    if t.Some? && !FateOf(a).LostBefore? {
      OtherKeepsInv(s, t.value);
    }
  }

  /** A step may replace the process `id`, once the database is what it is. */
  lemma WorkerReplaced(s: Sys, s': Sys, id: WorkerId)
    requires Inv(s) && s'.cfg == s.cfg && s'.db == s.db && s'.logs == s.logs && s'.statusLog == s.statusLog
    requires s'.committed == s.committed && s'.batches == s.batches
    requires s'.workers - {id} == s.workers - {id}
    requires id in s'.workers ==> PositionsOk(s', s'.workers[id]) && FetchOk(s', s'.workers[id].pc)
    ensures Inv(s') && Grows(s, s')
  {
    DeliveryDependsOn(s, s');
    FrameOffsets(s, s');
    FrameWorkers(s, s', id);
  }

  /** Message and positions in hand stay good while the program counter moves on. */
  lemma SameMessage(s: Sys, s': Sys, wk: Worker, wk': Worker)
    requires PositionsOk(s, wk) && FetchOk(s, wk.pc)
    requires s'.db == s.db && s'.logs == s.logs
    requires !wk.pc.Polling? && !wk'.pc.Polling? && wk'.pc.f == wk.pc.f && wk'.positions == wk.positions
    requires wk'.pc.Skipping? || wk'.pc.Handled? ==> Finished(s'.db, wk.pc.f.job)
    ensures PositionsOk(s', wk') && FetchOk(s', wk'.pc)
  {
    forall p: nat, o: nat | Done(s, p, o)
      ensures Done(s', p, o)
    {}
  }

  /** A process moves on with the message it has, or dies. */
  lemma WorkerMoves(s: Sys, id: WorkerId, wk': Option<Worker>, letters: set<JobId>)
    requires Inv(s) && id in s.workers && !s.workers[id].pc.Polling?
    requires wk'.Some? ==>
      var wk := s.workers[id];
      && !wk'.value.pc.Polling? && wk'.value.pc.f == wk.pc.f && wk'.value.positions == wk.positions
      && (wk'.value.pc.Skipping? || wk'.value.pc.Handled? ==> Finished(s.db, wk.pc.f.job))
    ensures var s' := WithWorker(s, id, wk').(letters := letters); Inv(s') && Grows(s, s')
  {
    var s' := WithWorker(s, id, wk').(letters := letters);
    if wk'.Some? {
      SameMessage(s, s', s.workers[id], wk'.value);
    }
    WorkerReplaced(s, s', id);
  }

  lemma MainKeepsInv(s: Sys, id: WorkerId, a: Act)
    requires Inv(s)
    ensures Inv(WorkerStep(s, id, a)) && Grows(s, WorkerStep(s, id, a))
  {
    if id in s.workers && Enabled(s.cfg, s.workers[id], a) {
      MainDatabase(s, id, a);
      WorkerReportsTruth(s, id, a);
      ActKeepsFetch(s, id, a);
      WorkerMoves(s.(db := WorkerStep(s, id, a).db), id, AfterAct(s.cfg, s.db, id, s.workers[id], a),
                  WorkerStep(s, id, a).letters);
    }
  }

  /** Between messages a process may start, stop, or forget positions; a signal only sets its flag. */
  lemma ProcessKeepsInv(s: Sys, x: Step)
    requires Inv(s)
    requires x.Start? || x.Crash? || x.Signal? || x.Exit? || x.Revoke? || x.SessionLost?
    ensures Inv(Next(s, x)) && Grows(s, Next(s, x))
  {
    if Next(s, x) == s {
    } else if x.id !in Next(s, x).workers {
      WorkerReplaced(s, Next(s, x), x.id);
    } else if x.id !in s.workers {
      WorkerReplaced(s, Next(s, x), x.id);
    } else {
      FewerPositions(s, x.id, Next(s, x).workers[x.id]);
    }
  }

  lemma FewerPositions(s: Sys, id: WorkerId, wk: Worker)
    requires Inv(s) && id in s.workers && wk.pc == s.workers[id].pc
    requires forall p | p in wk.positions ::
      p in s.workers[id].positions && wk.positions[p] == s.workers[id].positions[p]
    ensures var s' := s.(workers := s.workers[id := wk]); Inv(s') && Grows(s, s')
  {
    var s' := s.(workers := s.workers[id := wk]);
    assert PositionsOk(s, s.workers[id]) && FetchOk(s, s.workers[id].pc);
    forall p: nat, o: nat | Done(s, p, o)
      ensures Done(s', p, o)
    {}
    WorkerReplaced(s, s', id);
  }

  lemma AssignKeepsInv(s: Sys, id: WorkerId, p: nat)
    requires Inv(s)
    ensures Inv(Next(s, Assign(id, p))) && Grows(s, Next(s, Assign(id, p)))
  {
    var s' := Next(s, Assign(id, p));
    if id in s'.workers {
      assert PositionsOk(s, s.workers[id]) && FetchOk(s, s.workers[id].pc);
      forall q: nat, o: nat | Done(s, q, o)
        ensures Done(s', q, o)
      {}
      assert PositionsOk(s', s'.workers[id]) && FetchOk(s', s'.workers[id].pc);
    }
    WorkerReplaced(s, s', id);
  }

  lemma PollKeepsInv(s: Sys, id: WorkerId, p: nat)
    requires Inv(s)
    ensures Inv(PollStep(s, id, p)) && Grows(s, PollStep(s, id, p))
  {
    var s' := PollStep(s, id, p);
    if id in s'.workers {
      assert PositionsOk(s, s.workers[id]) && FetchOk(s, s.workers[id].pc);
      forall q: nat, o: nat | Done(s, q, o)
        ensures Done(s', q, o)
      {}
      assert PositionsOk(s', s'.workers[id]) && FetchOk(s', s'.workers[id].pc);
    }
    WorkerReplaced(s, s', id);
  }

  lemma CommitOffsetKeepsInv(s: Sys, id: WorkerId, applied: bool, raised: bool)
    requires Inv(s)
    ensures Inv(CommitOffsetStep(s, id, applied, raised)) && Grows(s, CommitOffsetStep(s, id, applied, raised))
  {
    var s' := CommitOffsetStep(s, id, applied, raised);
    DeliveryDependsOn(s, s');
    if s' != s {
      var f := s.workers[id].pc.f;
      FrameWorker(s, s', s.workers[id]);
      forall p, o | 0 <= p < |s'.logs| && 0 <= o < s'.committed[p]
        ensures Done(s', p, o)
      {
        assert o < s.committed[p] ==> Done(s, p, o);
        assert p == f.partition && o <= f.offset ==> Done(s, p, o);
      }
      FrameWorkers(s, s', id);
    }
  }

  lemma LockKeepsInv(s: Sys, r: nat)
    requires Inv(s)
    ensures Inv(Next(s, LockRows(r))) && Grows(s, Next(s, LockRows(r)))
  {
    var s' := Next(s, LockRows(r));
    if r !in s.batches {
      var locked := LockedRows(s.batches);
      var rows := SelectRows(s.db.outbox, locked, 0, BATCH_SIZE);
      SelectsOldest(s.db.outbox, locked);
      forall a, i | a in s.batches && i in s.batches[a].rows
        ensures i in locked
      {}
      assert s'.batches[r].rows[..0] == [];
      assert BatchesOk(s');
      LockFrame(s, s');
    }
  }

  lemma LockFrame(s: Sys, s': Sys)
    requires Inv(s) && s' == s.(batches := s'.batches) && BatchesOk(s')
    requires forall r | r in s'.batches :: (r in s.batches && s'.batches[r] == s.batches[r]) || s'.batches[r].sent == {}
    ensures Inv(s') && Grows(s, s')
  {
    forall i: nat | InKafka(s, i)
      ensures InKafka(s', i)
    {
      InKafkaGrows(s, s', i);
    }
    FrameOffsets(s, s');
    FrameAllWorkers(s, s');
  }

  lemma SentIsInKafka(s: Sys, r: nat, partition: nat, appended: bool, acknowledged: bool)
    requires Inv(s) && SendStep(s, r, partition, appended, acknowledged) != s && appended
    ensures InKafka(SendStep(s, r, partition, appended, acknowledged), s.batches[r].rows[s.batches[r].done])
  {
    var s' := SendStep(s, r, partition, appended, acknowledged);
    var row := s.batches[r].rows[s.batches[r].done];
    if s.db.outbox[row].topic.JobCreated? {
      assert InLog(s', partition, |s.logs[partition]|) && s'.logs[partition][|s.logs[partition]|] == row;
    }
  }

  lemma SendKeepsBatches(s: Sys, r: nat, partition: nat, appended: bool, acknowledged: bool)
    requires BatchesOk(s)
    ensures BatchesOk(SendStep(s, r, partition, appended, acknowledged))
  {
    var s' := SendStep(s, r, partition, appended, acknowledged);
    if s' != s {
      var b := s.batches[r];
      assert b.rows[..b.done + 1] == b.rows[..b.done] + [b.rows[b.done]];
      assert b.rows[b.done] !in b.rows[..b.done];
      assert BatchOk(s', s'.batches[r]);
      forall a | a in s'.batches
        ensures BatchOk(s', s'.batches[a])
      {
        if a != r {
          assert BatchOk(s, s.batches[a]);
        }
      }
    }
  }

  lemma SendKeepsInv(s: Sys, r: nat, partition: nat, appended: bool, acknowledged: bool)
    requires Inv(s)
    ensures Inv(SendStep(s, r, partition, appended, acknowledged))
    ensures Grows(s, SendStep(s, r, partition, appended, acknowledged))
  {
    var s' := SendStep(s, r, partition, appended, acknowledged);
    if s' != s {
      SendGrows(s, r, partition, appended, acknowledged);
      SendKeepsBatches(s, r, partition, appended, acknowledged);
      SendKeepsPublished(s, r, partition, appended, acknowledged);
      FrameOffsets(s, s');
      FrameAllWorkers(s, s');
    }
  }

  lemma SendGrows(s: Sys, r: nat, partition: nat, appended: bool, acknowledged: bool)
    requires Inv(s)
    ensures var s' := SendStep(s, r, partition, appended, acknowledged);
      Grows(s, s') && GenuineOk(s') && s'.db == s.db && s'.committed == s.committed && s'.workers == s.workers
  {}

  lemma SendKeepsPublished(s: Sys, r: nat, partition: nat, appended: bool, acknowledged: bool)
    requires Inv(s) && Grows(s, SendStep(s, r, partition, appended, acknowledged))
    ensures PublishedOk(SendStep(s, r, partition, appended, acknowledged))
  {
    var s' := SendStep(s, r, partition, appended, acknowledged);
    if s' != s {
      forall i: nat | InKafka(s, i)
        ensures InKafka(s', i)
      {
        InKafkaGrows(s, s', i);
      }
      if appended {
        SentIsInKafka(s, r, partition, appended, acknowledged);
      }
    }
  }

  lemma AbortKeepsInv(s: Sys, r: nat)
    requires Inv(s)
    ensures Inv(Next(s, AbortBatch(r))) && Grows(s, Next(s, AbortBatch(r)))
  {
    var s' := Next(s, AbortBatch(r));
    forall i: nat | InKafka(s, i)
      ensures InKafka(s', i)
    {
      InKafkaGrows(s, s', i);
    }
    FrameOffsets(s, s');
    FrameAllWorkers(s, s');
  }

  /** Marking a finished batch: its acknowledged rows are in Kafka, other batches hold other rows. */
  lemma MarkBatchKeepsDelivery(s: Sys, r: nat)
    requires Inv(s) && r in s.batches && s.batches[r].done == |s.batches[r].rows|
    ensures var s' := Next(s, CommitBatch(r)); Grows(s, s') && GenuineOk(s') && PublishedOk(s') && BatchesOk(s')
    ensures var s' := Next(s, CommitBatch(r)); DbOk(s'.db) && OutboxOk(s'.db)
  {
    var s' := Next(s, CommitBatch(r));
    var b := s.batches[r];
    CommitGrows(s, Publish(b.sent, b.failed));
    forall i: nat | InKafka(s, i)
      ensures InKafka(s', i)
    {
      InKafkaGrows(s, s', i);
    }
    assert b.rows[..b.done] == b.rows;
    forall a | a in s'.batches
      ensures BatchOk(s', s'.batches[a])
    {
      assert BatchOk(s, s.batches[a]);
      forall i | i in s.batches[a].rows
        ensures i !in b.sent + b.failed
      {}
    }
  }

  lemma CommitBatchKeepsInv(s: Sys, r: nat)
    requires Inv(s)
    ensures Inv(Next(s, CommitBatch(r))) && Grows(s, Next(s, CommitBatch(r)))
  {
    var s' := Next(s, CommitBatch(r));
    if s' != s {
      MarkBatchKeepsDelivery(s, r);
      FrameOffsets(s, s');
      FrameAllWorkers(s, s');
    }
  }

  lemma PublisherKeepsInv(s: Sys, x: Step)
    requires Inv(s) && (x.LockRows? || x.Send? || x.CommitBatch? || x.AbortBatch?)
    ensures Inv(Next(s, x)) && Grows(s, Next(s, x))
  {
    match x
    case LockRows(r) => LockKeepsInv(s, r);
    case Send(r, p, appended, acknowledged) => SendKeepsInv(s, r, p, appended, acknowledged);
    case CommitBatch(r) => CommitBatchKeepsInv(s, r);
    case AbortBatch(r) => AbortKeepsInv(s, r);
  }

  lemma ConsumerKeepsInv(s: Sys, x: Step)
    requires Inv(s)
    requires !x.LockRows? && !x.Send? && !x.CommitBatch? && !x.AbortBatch? && !x.Other? && !x.Main?
    ensures Inv(Next(s, x)) && Grows(s, Next(s, x))
  {
    match x
    case CommitOffset(id, applied, raised) => CommitOffsetKeepsInv(s, id, applied, raised);
    case Assign(id, p) => AssignKeepsInv(s, id, p);
    case Poll(id, p) => PollKeepsInv(s, id, p);
    case _ => ProcessKeepsInv(s, x);
  }

  lemma NextKeepsConfig(s: Sys, x: Step)
    ensures Next(s, x).cfg == s.cfg
  {}

  lemma NextKeepsInv(s: Sys, x: Step)
    requires Inv(s)
    ensures Inv(Next(s, x)) && Grows(s, Next(s, x)) && Next(s, x).cfg == s.cfg
  {
    NextKeepsConfig(s, x);
    if x.Other? {
      if NotWorkerTxn(x.t) {
        OtherKeepsInv(s, x.t);
      }
    } else if x.Main? {
      MainKeepsInv(s, x.id, x.act);
    } else if x.LockRows? || x.Send? || x.CommitBatch? || x.AbortBatch? {
      PublisherKeepsInv(s, x);
    } else {
      ConsumerKeepsInv(s, x);
    }
  }

  lemma InitInv(cfg: Config, start: int, partitions: nat)
    ensures Inv(Init(cfg, start, partitions))
  {}

  lemma {:induction false} ExecKeepsInv(s: Sys, steps: seq<Step>)
    requires Inv(s)
    ensures Inv(Exec(s, steps)) && Exec(s, steps).cfg == s.cfg
    decreases |steps|
  {
    if steps != [] {
      NextKeepsInv(s, steps[0]);
      ExecKeepsInv(Next(s, steps[0]), steps[1..]);
    }
  }
}
