/** Creating and cancelling jobs, and the account transactions that rewrite job rows. */
module JobService {
  import opened Wrappers
  import opened Tables
  import opened Store

  datatype Creation = Created(id: JobId) | DuplicateUpload(existing: JobId) | ActiveLimit(limit: nat)

  datatype Cancellation = Cancelled | NotFound | NotCancellable(status: Status)

  /** ORDER BY created_at DESC LIMIT 1: job numbers are given in the order of creation. */
  method Newest(candidates: set<JobId>) returns (newest: JobId)
    requires candidates != {}
    ensures newest in candidates && forall id | id in candidates :: id <= newest
  {
    newest :| newest in candidates;
    var rest := candidates - {newest};
    while rest != {}
      invariant newest in candidates && rest <= candidates
      invariant forall id | id in candidates && id !in rest :: id <= newest
      decreases rest
    {
      var id :| id in rest;
      newest, rest := if id > newest then id else newest, rest - {id};
    }
  }

  /** createJob with its transaction as one step; a rejected creation rolls back. */
  method CreateJob(db: Database, owner: OwnerId, inputKey: ObjectKey, limit: nat) returns (r: Creation)
    requires db.Valid()
    modifies db
    ensures db.Valid() && db.history == old(db.history) + [Txn.CreateJob(owner, inputKey, limit)]
    ensures db.Snapshot() == CreateJobTxn(old(db.Snapshot()), owner, inputKey, limit)
    ensures r.Created? <==> Admits(old(db.Snapshot()), owner, inputKey, limit)
    ensures r.Created? ==> r.id == old(db.nextJob)
    ensures r.DuplicateUpload? <==> Duplicate(old(db.Snapshot()), owner, inputKey)
    ensures r.DuplicateUpload? ==> r.existing in old(db.jobs)
    ensures r.DuplicateUpload? ==>
      old(db.jobs)[r.existing].owner == owner && old(db.jobs)[r.existing].inputKey == inputKey
    ensures r.DuplicateUpload? ==>
      forall id | id in old(db.jobs) && old(db.jobs)[id].owner == owner && old(db.jobs)[id].inputKey == inputKey ::
        id <= r.existing
  {
    ghost var before := db.Snapshot();
    var duplicates := set id | id in db.jobs && db.jobs[id].owner == owner && db.jobs[id].inputKey == inputKey;
    var active := set id | id in db.jobs && db.jobs[id].owner == owner
                        && db.jobs[id].status in {PENDING, PROCESSING, RETRYING};
    assert active == ActiveJobs(before, owner);
    if Duplicate(before, owner, inputKey) {
      ghost var id :| id in db.jobs && db.jobs[id].owner == owner && db.jobs[id].inputKey == inputKey;
      assert id in duplicates;
    }
    if duplicates != {} {
      var existing := Newest(duplicates);
      assert forall id | id in before.jobs && before.jobs[id].owner == owner && before.jobs[id].inputKey == inputKey ::
        id in duplicates;
      r := DuplicateUpload(existing);
    } else if |active| >= limit {
      r := ActiveLimit(limit);
    } else {
      r := Created(db.nextJob);
      db.jobs := db.jobs[db.nextJob := NewJob(owner, inputKey)];
      db.outbox := db.outbox + [CreatedEvent(db.nextJob)];
      db.nextJob := db.nextJob + 1;
    }
    db.Committed(before, Txn.CreateJob(owner, inputKey, limit));
  }

  method CancelJob(db: Database, id: JobId, owner: OwnerId, hours: int) returns (r: Cancellation)
    requires db.Valid()
    modifies db
    ensures db.Valid() && db.history == old(db.history) + [Txn.CancelJob(id, owner, hours)]
    ensures db.Snapshot() == CancelJobTxn(old(db.Snapshot()), id, owner, hours)
    ensures r.Cancelled? <==> Cancellable(old(db.Snapshot()), id, owner)
    ensures r.NotFound? <==> !(id in old(db.jobs) && old(db.jobs)[id].owner == owner)
    ensures r.NotCancellable? ==> r.status == old(db.jobs)[id].status && r.status.Terminal()
  {
    ghost var before := db.Snapshot();
    if id in db.jobs && db.jobs[id].owner == owner && db.jobs[id].status in {PENDING, PROCESSING, RETRYING} {
      var row := db.jobs[id].(status := CANCELLED, worker := None, heartbeatAt := None, error := None);
      if row.expiresAt.None? {
        row := row.(expiresAt := Some(db.now + hours * HOUR));
      }
      db.jobs := db.jobs[id := row];
      db.EnqueueJobStatusEvent(id);
      r := Cancelled;
    } else if id in db.jobs && db.jobs[id].owner == owner {
      r := NotCancellable(db.jobs[id].status);
    } else {
      r := NotFound;
    }
    db.Committed(before, Txn.CancelJob(id, owner, hours));
  }

  /** The UPDATE of adoptAnonymousJobs, inside the caller's transaction. */
  method AdoptAnonymousJobs(db: Database, anonymous: OwnerId, user: OwnerId)
    modifies db`jobs
    ensures db.Snapshot() == AdoptRows(old(db.Snapshot()), anonymous, user)
  {
    if user != anonymous {
      db.jobs := map id | id in db.jobs ::
        if db.jobs[id].owner == anonymous then db.jobs[id].(owner := user) else db.jobs[id];
    } else {
      assert db.jobs == map id | id in db.jobs :: db.jobs[id];
    }
  }

  /** False is the rollback on a username or user id that exists. */
  method RegisterUser(db: Database, user: OwnerId, anonymous: OwnerId) returns (registered: bool)
    requires db.Valid()
    modifies db
    ensures db.Valid() && db.history == old(db.history) + [Register(user, anonymous)]
    ensures db.Snapshot() == RegisterTxn(old(db.Snapshot()), user, anonymous)
    ensures registered <==> user !in old(db.users)
  {
    ghost var before := db.Snapshot();
    registered := user !in db.users;
    if registered {
      db.users := db.users + {user};
      AdoptAnonymousJobs(db, anonymous, user);
    }
    db.Committed(before, Register(user, anonymous));
  }

  /** False is the rollback when the session row references no user. */
  method CreateUserSession(db: Database, user: OwnerId, anonymous: OwnerId) returns (created: bool)
    requires db.Valid()
    modifies db
    ensures db.Valid() && db.history == old(db.history) + [CreateSession(user, anonymous)]
    ensures db.Snapshot() == CreateSessionTxn(old(db.Snapshot()), user, anonymous)
    ensures created <==> user in old(db.users)
  {
    ghost var before := db.Snapshot();
    var saved := db.jobs;
    AdoptAnonymousJobs(db, anonymous, user);
    created := user in db.users;
    if !created {
      db.jobs := saved;
    }
    db.Committed(before, CreateSession(user, anonymous));
  }

  /** Notifies every cancelled job once, in some order. */
  method NotifyCancelled(db: Database, cancelled: set<JobId>) returns (order: seq<JobId>)
    modifies db`outbox
    ensures Enumerates(order, cancelled)
    ensures db.outbox == old(db.outbox) + StatusEvents(order)
  {
    order := [];
    var rest := cancelled;
    assert StatusEvents(order) == [];
    while rest != {}
      invariant rest <= cancelled && Enumerates(order, cancelled - rest)
      invariant db.outbox == old(db.outbox) + StatusEvents(order)
      decreases rest
    {
      var id :| id in rest;
      assert StatusEvents(order + [id]) == StatusEvents(order) + [StatusEvent(id)];
      db.EnqueueJobStatusEvent(id);
      order, rest := order + [id], rest - {id};
    }
  }

  /** First statement of deleteUserAccount: cancel the active jobs and notify each of them. */
  method CancelActiveJobs(db: Database, user: OwnerId) returns (order: seq<JobId>)
    modifies db`jobs, db`outbox
    ensures Enumerates(order, ActiveJobs(old(db.Snapshot()), user))
    ensures db.outbox == old(db.outbox) + StatusEvents(order)
    ensures db.jobs == map id | id in old(db.jobs) ::
      if id in order then Tables.Cancelled(old(db.jobs)[id]) else old(db.jobs)[id]
  {
    var active := set id | id in db.jobs && db.jobs[id].owner == user
                        && db.jobs[id].status in {PENDING, PROCESSING, RETRYING};
    assert active == ActiveJobs(db.Snapshot(), user);
    db.jobs := map id | id in db.jobs ::
      if id in active
      then db.jobs[id].(status := CANCELLED, worker := None, heartbeatAt := None, error := None)
      else db.jobs[id];
    order := NotifyCancelled(db, active);
  }

  /** Second statement: every owned row expires now and is marked. */
  method ExpireOwnedJobs(db: Database, user: OwnerId)
    modifies db`jobs
    ensures db.jobs == map id | id in old(db.jobs) ::
      if old(db.jobs)[id].owner == user
      then old(db.jobs)[id].(expiresAt := Some(db.now), ownerDeletedAt := Some(db.now))
      else old(db.jobs)[id]
  {
    db.jobs := map id | id in db.jobs ::
      if db.jobs[id].owner == user
      then db.jobs[id].(expiresAt := Some(db.now), ownerDeletedAt := Some(db.now))
      else db.jobs[id];
  }

  /** The three statements on job rows together are the account deletion of every row. */
  lemma DeletionStatements(before: Db, user: OwnerId, order: seq<JobId>,
                           cancelled: map<JobId, Job>, expired: map<JobId, Job>, kept: map<JobId, Job>)
    requires Enumerates(order, ActiveJobs(before, user))
    requires cancelled == map id | id in before.jobs ::
      if id in order then Tables.Cancelled(before.jobs[id]) else before.jobs[id]
    requires expired == map id | id in cancelled ::
      if cancelled[id].owner == user
      then cancelled[id].(expiresAt := Some(before.now), ownerDeletedAt := Some(before.now))
      else cancelled[id]
    requires kept ==
      map id | id in expired && !(expired[id].owner == user && expired[id].deletedAt.Some?) :: expired[id]
    ensures kept == JobsAfterAccountDeletion(before, user)
  {
    forall id | id in before.jobs
      ensures id in order <==> before.jobs[id].owner == user && before.jobs[id].status.Active()
    {
      assert id in order <==> id in ActiveJobs(before, user);
    }
  }

  /** deleteUserAccount, statement by statement; false is its rollback. */
  method DeleteUserAccount(db: Database, user: OwnerId) returns (deleted: bool, order: seq<JobId>)
    requires db.Valid()
    modifies db
    ensures db.Valid() && db.history == old(db.history) + [DeleteAccount(user, order)]
    ensures db.Snapshot() == DeleteAccountTxn(old(db.Snapshot()), user, order)
    ensures deleted <==> user in old(db.users)
    ensures Enumerates(order, ActiveJobs(old(db.Snapshot()), user))
  {
    ghost var before := db.Snapshot();
    var savedJobs, savedOutbox := db.jobs, db.outbox;
    order := CancelActiveJobs(db, user);
    ghost var cancelled := db.jobs;
    ExpireOwnedJobs(db, user);
    ghost var expired := db.jobs;
    db.jobs := map id | id in db.jobs && !(db.jobs[id].owner == user && db.jobs[id].deletedAt.Some?) :: db.jobs[id];
    DeletionStatements(before, user, order, cancelled, expired, db.jobs);
    deleted := user in db.users;
    if deleted {
      db.users := db.users - {user};
    } else {
      db.jobs, db.outbox := savedJobs, savedOutbox;
    }
    db.Committed(before, DeleteAccount(user, order));
  }
}
