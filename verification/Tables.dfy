/**
The PostgreSQL tables of the job system as values, and the meaning of every
transaction that writes them.

`now` is the database clock: every `NOW()` in one transaction reads it. A fresh UUID is
the next number of a counter. Columns that no transaction here reads back
(file names, created_at, updated_at, published_at, last_error) are not kept.
*/
module Tables {
  import opened Wrappers

  type JobId = nat
  type WorkerId = nat
  type OwnerId = nat
  type ClaimId = nat
  type ObjectKey = string

  // PostgreSQL timestamps count microseconds.
  const SECOND := 1_000_000
  const MINUTE := 60 * SECOND
  const HOUR := 60 * MINUTE

  datatype Status = PENDING | PROCESSING | RETRYING | COMPLETED | FAILED | CANCELLED {
    predicate Leased() { PROCESSING? || RETRYING? }
    predicate Active() { PENDING? || Leased() }
    predicate Terminal() { COMPLETED? || FAILED? || CANCELLED? }
  }

  /** One row of `jobs`; the primary key is the map key that leads to it. */
  datatype Job = Job(
    owner: OwnerId,
    inputKey: ObjectKey,
    status: Status,
    progress: int,
    results: Option<map<string, ObjectKey>>,
    error: Option<string>,
    worker: Option<WorkerId>,
    startedAt: Option<int>,
    heartbeatAt: Option<int>,
    attempts: nat,
    expiresAt: Option<int>,
    deletedAt: Option<int>,
    claimId: Option<ClaimId>,
    claimedAt: Option<int>,
    cleanupAttempts: nat,
    cleanupError: Option<string>,
    ownerDeletedAt: Option<int>)

  datatype Topic = JobCreated | JobStatus

  /** One row of `outbox_events`. Rows are only ever appended, so an index identifies a row. */
  datatype Event = Event(topic: Topic, key: JobId, published: bool, attempts: nat)

  datatype Db = Db(
    now: int,
    jobs: map<JobId, Job>,
    outbox: seq<Event>,
    users: set<OwnerId>,
    nextJob: JobId,
    nextClaim: ClaimId)

  /** The database right after the migrations ran on an empty installation. */
  function EmptyDb(now: int): Db {
    Db(now, map[], [], {}, 0, 0)
  }

  function StatusEvent(id: JobId): Event { Event(JobStatus, id, false, 0) }

  function CreatedEvent(id: JobId): Event { Event(JobCreated, id, false, 0) }

  /** A job update and its status notification in one commit. */
  function PutAndNotify(db: Db, id: JobId, row: Job): Db {
    db.(jobs := db.jobs[id := row], outbox := db.outbox + [StatusEvent(id)])
  }

  // ---------------------------------------------------------------- API: jobs

  function NewJob(owner: OwnerId, inputKey: ObjectKey): Job {
    Job(owner, inputKey, PENDING, 0, None, None, None, None, None, 0,
        None, None, None, None, 0, None, None)
  }

  predicate Duplicate(db: Db, owner: OwnerId, inputKey: ObjectKey) {
    exists id | id in db.jobs :: db.jobs[id].owner == owner && db.jobs[id].inputKey == inputKey
  }

  function ActiveJobs(db: Db, owner: OwnerId): set<JobId> {
    set id | id in db.jobs && db.jobs[id].owner == owner && db.jobs[id].status.Active()
  }

  predicate Admits(db: Db, owner: OwnerId, inputKey: ObjectKey, limit: nat) {
    !Duplicate(db, owner, inputKey) && |ActiveJobs(db, owner)| < limit
  }

  function CreateJobTxn(db: Db, owner: OwnerId, inputKey: ObjectKey, limit: nat): Db {
    if Admits(db, owner, inputKey, limit) then
      db.(jobs := db.jobs[db.nextJob := NewJob(owner, inputKey)],
          outbox := db.outbox + [CreatedEvent(db.nextJob)],
          nextJob := db.nextJob + 1)
    else db
  }

  /** COALESCE(expires, NOW() + hours). */
  function Retain(expires: Option<int>, now: int, hours: int): Option<int> {
    if expires.Some? then expires else Some(now + hours * HOUR)
  }

  function Cancelled(j: Job): Job {
    j.(status := CANCELLED, worker := None, heartbeatAt := None, error := None)
  }

  predicate IsCancelled(db: Db, id: JobId) { id in db.jobs && db.jobs[id].status.CANCELLED? }

  predicate Cancellable(db: Db, id: JobId, owner: OwnerId) {
    id in db.jobs && db.jobs[id].owner == owner && db.jobs[id].status.Active()
  }

  function CancelJobTxn(db: Db, id: JobId, owner: OwnerId, hours: int): Db {
    if Cancellable(db, id, owner) then
      var j := db.jobs[id];
      PutAndNotify(db, id, Cancelled(j).(expiresAt := Retain(j.expiresAt, db.now, hours)))
    else db
  }

  // ------------------------------------------------------- API: accounts

  function AdoptRows(db: Db, anonymous: OwnerId, user: OwnerId): Db {
    db.(jobs := map id | id in db.jobs ::
          if db.jobs[id].owner == anonymous && user != anonymous
          then db.jobs[id].(owner := user) else db.jobs[id])
  }

  /** registerUser: the new account adopts the jobs of the browser it registered from. */
  function RegisterTxn(db: Db, user: OwnerId, anonymous: OwnerId): Db {
    if user in db.users then db
    else AdoptRows(db, anonymous, user).(users := db.users + {user})
  }

  /** createUserSession: the session row references the user, so an unknown user rolls back. */
  function CreateSessionTxn(db: Db, user: OwnerId, anonymous: OwnerId): Db {
    if user in db.users then AdoptRows(db, anonymous, user) else db
  }

  /** The job rows after deleteUserAccount: cancel, expire, mark, drop the cleaned ones. */
  function AccountDeletedRow(j: Job, now: int): Job {
    (if j.status.Active() then Cancelled(j) else j)
      .(expiresAt := Some(now), ownerDeletedAt := Some(now))
  }

  function JobsAfterAccountDeletion(db: Db, user: OwnerId): map<JobId, Job> {
    map id | id in db.jobs && !(db.jobs[id].owner == user && db.jobs[id].deletedAt.Some?) ::
      if db.jobs[id].owner == user then AccountDeletedRow(db.jobs[id], db.now) else db.jobs[id]
  }

  predicate Enumerates<T(==)>(order: seq<T>, elements: set<T>) {
    && (forall i, j :: 0 <= i < j < |order| ==> order[i] != order[j])
    && (forall x | x in order :: x in elements)
    && (forall x | x in elements :: x in order)
  }

  function StatusEvents(ids: seq<JobId>): seq<Event> {
    seq(|ids|, i requires 0 <= i < |ids| => StatusEvent(ids[i]))
  }

  /** `order` is the order in which the statement returned the cancelled rows. */
  function DeleteAccountTxn(db: Db, user: OwnerId, order: seq<JobId>): Db {
    if user in db.users && Enumerates(order, ActiveJobs(db, user)) then
      db.(jobs := JobsAfterAccountDeletion(db, user),
          outbox := db.outbox + StatusEvents(order),
          users := db.users - {user})
    else db
  }

  // ------------------------------------------------------------------- worker

  /** The WHERE clause of claim_job. */
  predicate Claimable(j: Job, now: int, leaseTimeout: int) {
    || j.status.PENDING?
    || (j.status.Leased() &&
        (j.heartbeatAt.None? || j.heartbeatAt.value < now - leaseTimeout * SECOND))
  }

  function ClaimedRow(j: Job, worker: WorkerId, now: int): Job {
    j.(status := PROCESSING,
       progress := if j.progress < 10 then 10 else j.progress,
       worker := Some(worker), startedAt := Some(now), heartbeatAt := Some(now), error := None)
  }

  predicate ClaimAccepted(db: Db, id: JobId, leaseTimeout: int) {
    id in db.jobs && Claimable(db.jobs[id], db.now, leaseTimeout)
  }

  function ClaimJobTxn(db: Db, id: JobId, worker: WorkerId, leaseTimeout: int): Db {
    if ClaimAccepted(db, id, leaseTimeout)
    then PutAndNotify(db, id, ClaimedRow(db.jobs[id], worker, db.now))
    else db
  }

  predicate Owns(db: Db, id: JobId, worker: WorkerId) {
    id in db.jobs && db.jobs[id].worker == Some(worker)
  }

  predicate OwnsLeased(db: Db, id: JobId, worker: WorkerId) {
    Owns(db, id, worker) && db.jobs[id].status.Leased()
  }

  function BeginAttemptTxn(db: Db, id: JobId, worker: WorkerId): Db {
    if OwnsLeased(db, id, worker) then
      var j := db.jobs[id];
      PutAndNotify(db, id, j.(status := PROCESSING, progress := 10, attempts := j.attempts + 1,
                              heartbeatAt := Some(db.now), error := None))
    else db
  }

  function RefreshLeaseTxn(db: Db, id: JobId, worker: WorkerId): Db {
    if OwnsLeased(db, id, worker)
    then db.(jobs := db.jobs[id := db.jobs[id].(heartbeatAt := Some(db.now))])
    else db
  }

  /** The arguments of update_job_status. */
  datatype Write = Write(
    status: Status, progress: int, results: Option<map<string, ObjectKey>>, error: Option<string>)

  function UpdatedRow(j: Job, w: Write, now: int, hours: int): Job {
    var done := w.status.COMPLETED? || w.status.FAILED?;
    j.(status := w.status,
       progress := w.progress,
       results := if w.results.Some? then w.results else j.results,
       error := w.error,
       expiresAt := if done then Retain(j.expiresAt, now, hours) else j.expiresAt,
       worker := if done then None else j.worker,
       heartbeatAt := if done then None else Some(now))
  }

  /** The only guard is ownership: the row's current status is not looked at. */
  function UpdateStatusTxn(db: Db, id: JobId, worker: WorkerId, w: Write, hours: int): Db {
    if Owns(db, id, worker)
    then PutAndNotify(db, id, UpdatedRow(db.jobs[id], w, db.now, hours))
    else db
  }

  /** Every call of update_job_status in the worker has one of these four shapes. */
  predicate WorkerCall(w: Write) {
    || (w.status.PROCESSING? && 15 <= w.progress <= 99 && w.results.None? && w.error.None?)
    || (w.status.RETRYING? && w.progress == 10 && w.results.None? && w.error.Some?)
    || (w.status.COMPLETED? && w.progress == 100 && w.results.Some? && w.error.None?)
    || (w.status.FAILED? && w.progress == 0 && w.results.None? && w.error.Some?)
  }

  type WorkerWrite = w: Write | WorkerCall(w) witness Write(PROCESSING, 15, None, None)

  // ---------------------------------------------------------- storage cleanup

  /** The WHERE clause that selects candidates in claimExpiredJobs. */
  predicate Cleanable(j: Job, now: int, claimTimeout: int) {
    && j.expiresAt.Some? && j.expiresAt.value <= now
    && j.deletedAt.None?
    && (j.claimedAt.None? || j.claimedAt.value < now - claimTimeout * MINUTE)
  }

  function CleanableJobs(db: Db, locked: set<JobId>, claimTimeout: int): set<JobId> {
    set id | id in db.jobs && id !in locked && Cleanable(db.jobs[id], db.now, claimTimeout)
  }

  /** `ids` is what ORDER BY storage_expires_at LIMIT batchSize SKIP LOCKED may return. */
  predicate Selects(db: Db, ids: seq<JobId>, batchSize: nat, locked: set<JobId>, claimTimeout: int) {
    var eligible := CleanableJobs(db, locked, claimTimeout);
    && (forall i, j :: 0 <= i < j < |ids| ==> ids[i] != ids[j])
    && (forall i :: 0 <= i < |ids| ==> ids[i] in eligible)
    && |ids| <= batchSize
    && (|ids| < batchSize ==> forall id | id in eligible :: id in ids)
    && (forall i, j :: 0 <= i < j < |ids| ==>
          db.jobs[ids[i]].expiresAt.value <= db.jobs[ids[j]].expiresAt.value)
    && (forall i, id | 0 <= i < |ids| && id in eligible :: id !in ids ==>
          db.jobs[ids[i]].expiresAt.value <= db.jobs[id].expiresAt.value)
  }

  /** The position of `x` in a sequence that holds it once. */
  function IndexOf<T(==)>(s: seq<T>, x: T): (i: nat)
    requires x in s
    ensures i < |s| && s[i] == x
  {
    if s[0] == x then 0 else 1 + IndexOf(s[1..], x)
  }

  function CleanupClaimedRow(j: Job, claim: ClaimId, now: int): Job {
    j.(claimId := Some(claim), claimedAt := Some(now),
       cleanupAttempts := j.cleanupAttempts + 1, cleanupError := None)
  }

  function CleanupClaimedRows(db: Db, ids: seq<JobId>): map<JobId, Job> {
    map id | id in db.jobs ::
      if id in ids then CleanupClaimedRow(db.jobs[id], db.nextClaim + IndexOf(ids, id), db.now) else db.jobs[id]
  }

  /** Every selected row gets its own fresh claim id. */
  function ClaimCleanupTxn(db: Db, ids: seq<JobId>, batchSize: nat, locked: set<JobId>, claimTimeout: int): Db {
    if Selects(db, ids, batchSize, locked, claimTimeout) then
      db.(jobs := CleanupClaimedRows(db, ids), nextClaim := db.nextClaim + |ids|)
    else db
  }

  predicate HoldsClaim(db: Db, id: JobId, claim: ClaimId) {
    id in db.jobs && db.jobs[id].claimId == Some(claim)
  }

  function CompleteCleanupTxn(db: Db, id: JobId, claim: ClaimId): Db {
    if !HoldsClaim(db, id, claim) then db
    else if db.jobs[id].ownerDeletedAt.Some? then db.(jobs := db.jobs - {id})
    else db.(jobs := db.jobs[id := db.jobs[id].(deletedAt := Some(db.now), claimId := None,
                                                claimedAt := None, cleanupError := None)])
  }

  function FailCleanupTxn(db: Db, id: JobId, claim: ClaimId, error: string): Db {
    if !HoldsClaim(db, id, claim) then db
    else db.(jobs := db.jobs[id := db.jobs[id].(claimId := None, claimedAt := None,
                                                cleanupError := Some(error))])
  }

  // -------------------------------------------------------------- outbox rows

  /** The outbox after a publishing pass marked the rows it sent and the rows it failed to send. */
  function Marked(outbox: seq<Event>, sent: set<nat>, failed: set<nat>): seq<Event> {
    seq(|outbox|, i requires 0 <= i < |outbox| =>
      if i in sent then outbox[i].(published := true)
      else if i in failed then outbox[i].(attempts := outbox[i].attempts + 1)
      else outbox[i])
  }

  /** The commit of one publishing pass. */
  function PublishTxn(db: Db, sent: set<nat>, failed: set<nat>): Db {
    db.(outbox := Marked(db.outbox, sent, failed))
  }

  // ------------------------------------------------------------- transactions

  /** Every committed transaction that writes these tables, with the values its caller chose. */
  datatype Txn =
    | Tick(elapsed: nat)
    | CreateJob(owner: OwnerId, inputKey: ObjectKey, limit: nat)
    | CancelJob(id: JobId, owner: OwnerId, hours: int)
    | Register(user: OwnerId, anonymous: OwnerId)
    | CreateSession(user: OwnerId, anonymous: OwnerId)
    | DeleteAccount(user: OwnerId, order: seq<JobId>)
    | ClaimJob(id: JobId, worker: WorkerId, leaseTimeout: int)
    | BeginAttempt(id: JobId, worker: WorkerId)
    | RefreshLease(id: JobId, worker: WorkerId)
    | UpdateStatus(id: JobId, worker: WorkerId, write: WorkerWrite, hours: int)
    | ClaimCleanup(ids: seq<JobId>, batchSize: nat, locked: set<JobId>, claimTimeout: int)
    | CompleteCleanup(id: JobId, claim: ClaimId)
    | FailCleanup(id: JobId, claim: ClaimId, error: string)
    | Publish(sent: set<nat>, failed: set<nat>)

  function Commit(db: Db, t: Txn): Db {
    match t
    case Tick(d) => db.(now := db.now + d)
    case CreateJob(owner, key, limit) => CreateJobTxn(db, owner, key, limit)
    case CancelJob(id, owner, hours) => CancelJobTxn(db, id, owner, hours)
    case Register(user, anonymous) => RegisterTxn(db, user, anonymous)
    case CreateSession(user, anonymous) => CreateSessionTxn(db, user, anonymous)
    case DeleteAccount(user, order) => DeleteAccountTxn(db, user, order)
    case ClaimJob(id, worker, timeout) => ClaimJobTxn(db, id, worker, timeout)
    case BeginAttempt(id, worker) => BeginAttemptTxn(db, id, worker)
    case RefreshLease(id, worker) => RefreshLeaseTxn(db, id, worker)
    case UpdateStatus(id, worker, write, hours) => UpdateStatusTxn(db, id, worker, write, hours)
    case ClaimCleanup(ids, batchSize, locked, timeout) => ClaimCleanupTxn(db, ids, batchSize, locked, timeout)
    case CompleteCleanup(id, claim) => CompleteCleanupTxn(db, id, claim)
    case FailCleanup(id, claim, error) => FailCleanupTxn(db, id, claim, error)
    case Publish(sent, failed) => PublishTxn(db, sent, failed)
  }

  /** A run: the transactions of all processes in commit order. */
  function Run(db: Db, run: seq<Txn>): Db
    decreases |run|
  {
    if run == [] then db else Run(Commit(db, run[0]), run[1..])
  }

  lemma {:induction false} RunAppend(db: Db, a: seq<Txn>, b: seq<Txn>)
    ensures Run(db, a + b) == Run(Run(db, a), b)
    decreases |a|
  {
    if a == [] {
      assert a + b == b;
    } else {
      assert (a + b)[0] == a[0] && (a + b)[1..] == a[1..] + b;
      RunAppend(Commit(db, a[0]), a[1..], b);
    }
  }

  /** The database after the first `k` transactions of a run. */
  function StateAt(db: Db, run: seq<Txn>, k: nat): Db
    requires k <= |run|
  {
    Run(db, run[..k])
  }

  lemma StateAtNext(db: Db, run: seq<Txn>, k: nat)
    requires k < |run|
    ensures StateAt(db, run, k + 1) == Commit(StateAt(db, run, k), run[k])
  {
    assert run[..k + 1] == run[..k] + [run[k]];
    RunAppend(db, run[..k], [run[k]]);
  }

  lemma StateAtLater(db: Db, run: seq<Txn>, k: nat, m: nat)
    requires k <= m <= |run|
    ensures StateAt(db, run, m) == Run(StateAt(db, run, k), run[k..m])
  {
    assert run[..m] == run[..k] + run[k..m];
    RunAppend(db, run[..k], run[k..m]);
  }
}
