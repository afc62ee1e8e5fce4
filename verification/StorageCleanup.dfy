/**
One cleanup process (backend/src/services/storageCleanup.ts): claim expired jobs, list and
delete their objects, record the result. Other processes may commit anything in between,
and object storage and the database may fail at every call.
*/
module StorageCleanup {
  import opened Wrappers
  import opened Tables
  import opened RowInvariants
  import opened CleanupFencing
  import opened Store

  // ------------------------------------------------------------ object storage

  const MAX_DELETE_KEYS := 1_000

  datatype ListResponse = Page(contents: seq<Option<ObjectKey>>, next: Option<string>) | ListFailed

  /** JavaScript truth of an optional string: present and not empty. */
  predicate Truthy(s: Option<string>) { s.Some? && s.value != "" }

  function PageKeys(contents: seq<Option<ObjectKey>>): set<ObjectKey> {
    set o | o in contents && Truthy(o) :: o.value
  }

  function ListedKeys(pages: seq<seq<Option<ObjectKey>>>): set<ObjectKey> {
    if pages == [] then {} else ListedKeys(pages[..|pages| - 1]) + PageKeys(pages[|pages| - 1])
  }

  lemma ListedNext(pages: seq<seq<Option<ObjectKey>>>, contents: seq<Option<ObjectKey>>)
    ensures ListedKeys(pages + [contents]) == ListedKeys(pages) + PageKeys(contents)
  {
    assert (pages + [contents])[..|pages + [contents]| - 1] == pages;
  }

  /** All pages of one listing that was read to its end. */
  datatype Listing = Listing(job: JobId, pages: seq<seq<Option<ObjectKey>>>)

  /**
  What object storage has answered: listings read to their end, acknowledged delete
  requests, and for each request how many transactions had been committed by then.
  */
  datatype Log = Log(listings: seq<Listing>, requests: seq<seq<ObjectKey>>, stamps: seq<nat>)

  predicate Grows(l: Log, l': Log) {
    && l.listings <= l'.listings && l.requests <= l'.requests && l.stamps <= l'.stamps
    && |l.stamps| == |l.requests| && |l'.stamps| == |l'.requests|
  }

  class ObjectStore {
    // The listing in progress: its prefix owner, the pages answered, where it continues.
    var prefixOf: JobId
    var pages: seq<seq<Option<ObjectKey>>>
    var cursor: Option<string>
    // A listing has finitely many pages.
    var pagesLeft: nat
    // The delete requests that were acknowledged without errors, oldest first.
    var requests: seq<seq<ObjectKey>>
    // The listings that reached their last page, oldest first.
    ghost var listings: seq<Listing>
    ghost var stamps: seq<nat>
    // Calls that failed, and delete responses that reported errors.
    var failures: nat

    ghost function Answered(): Log
      reads this
    {
      Log(listings, requests, stamps)
    }

    ghost predicate Valid()
      reads this
    {
      |stamps| == |requests|
    }

    constructor (pagesLeft: nat)
      ensures Valid() && Answered() == Log([], [], []) && this.pagesLeft == pagesLeft && failures == 0
    {
      failures := 0;
      prefixOf, pages, cursor, requests, listings, stamps := 0, [], None, [], [], [];
      this.pagesLeft := pagesLeft;
    }

    /** ListObjectsV2 under results/<job>/. Without a token it starts over; a token must be the last one given. */
    method ListObjects(job: JobId, token: Option<string>) returns (r: ListResponse)
      requires token.Some? ==> token == cursor && job == prefixOf
      modifies this`prefixOf, this`pages, this`cursor, this`pagesLeft, this`listings, this`failures
      ensures prefixOf == job && failures == old(failures) + if r.ListFailed? then 1 else 0
      ensures listings == old(listings) + if r.Page? && !Truthy(r.next) then [Listing(job, pages)] else []
      ensures r.Page? ==> pages == (if token.None? then [] else old(pages)) + [r.contents] && cursor == r.next
      ensures r.Page? && Truthy(r.next) ==> pagesLeft < old(pagesLeft)
      ensures pagesLeft <= old(pagesLeft)
    {
      prefixOf := job;
      var fails: bool := *;
      if fails {
        failures := failures + 1;
        return ListFailed;
      }
      var contents: seq<Option<ObjectKey>> := *;
      var next: Option<string> := *;
      if pagesLeft == 0 {
        next := None;
      } else {
        pagesLeft := pagesLeft - 1;
      }
      pages, cursor := (if token.None? then [] else pages) + [contents], next;
      r := Page(contents, next);
      if !Truthy(next) {
        listings := listings + [Listing(job, pages)];
      }
    }

    /** DeleteObjects: true when the response arrived and reported no per-object error. */
    method DeleteObjects(db: Database, keys: seq<ObjectKey>) returns (acknowledged: bool)
      requires |keys| <= MAX_DELETE_KEYS
      modifies this`requests, this`stamps, this`failures
      ensures failures == old(failures) + if acknowledged then 0 else 1
      ensures requests == if acknowledged then old(requests) + [keys] else old(requests)
      ensures stamps == if acknowledged then old(stamps) + [|db.history|] else old(stamps)
    {
      acknowledged := *;
      if acknowledged {
        requests, stamps := requests + [keys], stamps + [|db.history|];
      } else {
        failures := failures + 1;
      }
    }
  }

  // ---------------------------------------------------------------- the chunks

  function Chunks(keys: seq<ObjectKey>): (c: seq<seq<ObjectKey>>)
    decreases |keys|
  {
    if |keys| <= MAX_DELETE_KEYS then (if keys == [] then [] else [keys])
    else [keys[..MAX_DELETE_KEYS]] + Chunks(keys[MAX_DELETE_KEYS..])
  }

  function Flatten(chunks: seq<seq<ObjectKey>>): seq<ObjectKey> {
    if chunks == [] then [] else chunks[0] + Flatten(chunks[1..])
  }

  predicate NoDuplicates(keys: seq<ObjectKey>) {
    forall i, j :: 0 <= i < j < |keys| ==> keys[i] != keys[j]
  }

  /** How often a key is named in a list of requests. */
  function Mentions(chunks: seq<seq<ObjectKey>>, key: ObjectKey): nat {
    if chunks == [] then 0 else multiset(chunks[0])[key] + Mentions(chunks[1..], key)
  }

  lemma {:induction false} ChunksPartition(keys: seq<ObjectKey>)
    ensures Flatten(Chunks(keys)) == keys
    ensures forall c | c in Chunks(keys) :: 0 < |c| <= MAX_DELETE_KEYS
    decreases |keys|
  {
    if |keys| <= MAX_DELETE_KEYS {
      if keys != [] {
        assert Chunks(keys)[1..] == [];
      }
    } else {
      ChunksPartition(keys[MAX_DELETE_KEYS..]);
      assert Chunks(keys)[1..] == Chunks(keys[MAX_DELETE_KEYS..]);
      assert keys == keys[..MAX_DELETE_KEYS] + keys[MAX_DELETE_KEYS..];
    }
  }

  lemma {:induction false} MentionsFlattened(chunks: seq<seq<ObjectKey>>, key: ObjectKey)
    ensures Mentions(chunks, key) == multiset(Flatten(chunks))[key]
  {
    if chunks != [] {
      MentionsFlattened(chunks[1..], key);
    }
  }

  lemma {:induction false} OccursOnce(keys: seq<ObjectKey>, key: ObjectKey)
    requires NoDuplicates(keys)
    ensures multiset(keys)[key] == if key in keys then 1 else 0
  {
    if keys != [] {
      var rest := keys[..|keys| - 1];
      assert keys == rest + [keys[|keys| - 1]];
      OccursOnce(rest, key);
    }
  }

  /** Chunking a duplicate-free list puts each of its keys in exactly one request, and no other key in any. */
  lemma EachKeyInOneRequest(keys: seq<ObjectKey>, key: ObjectKey)
    requires NoDuplicates(keys)
    ensures Mentions(Chunks(keys), key) == if key in keys then 1 else 0
    ensures forall c | c in Chunks(keys) :: 0 < |c| <= MAX_DELETE_KEYS
  {
    ChunksPartition(keys);
    MentionsFlattened(Chunks(keys), key);
    OccursOnce(keys, key);
  }

  lemma {:induction false} ChunksNext(keys: seq<ObjectKey>, start: nat)
    requires start < |keys| && start % MAX_DELETE_KEYS == 0
    ensures var end := if start + MAX_DELETE_KEYS <= |keys| then start + MAX_DELETE_KEYS else |keys|;
      Chunks(keys[..start]) + [keys[start..end]] == Chunks(keys[..end])
    decreases start
  {
    var end := if start + MAX_DELETE_KEYS <= |keys| then start + MAX_DELETE_KEYS else |keys|;
    if start == 0 {
      assert keys[..0] == [] && keys[0..end] == keys[..end];
    } else {
      var tail := keys[MAX_DELETE_KEYS..];
      ChunksNext(tail, start - MAX_DELETE_KEYS);
      assert tail[..start - MAX_DELETE_KEYS] == keys[..start][MAX_DELETE_KEYS..];
      assert tail[..end - MAX_DELETE_KEYS] == keys[..end][MAX_DELETE_KEYS..];
      assert tail[start - MAX_DELETE_KEYS..end - MAX_DELETE_KEYS] == keys[start..end];
      assert keys[..start][..MAX_DELETE_KEYS] == keys[..MAX_DELETE_KEYS] == keys[..end][..MAX_DELETE_KEYS];
      if start == MAX_DELETE_KEYS {
        assert keys[..start] == keys[..MAX_DELETE_KEYS];
      }
    }
  }

  // ------------------------------------------------------------- claiming rows

  datatype ClaimedJob = ClaimedJob(
    id: JobId, inputKey: ObjectKey, results: Option<map<string, ObjectKey>>, claim: ClaimId)

  /** The candidate that ORDER BY storage_expires_at puts first. */
  method Earliest(db: Database, candidates: set<JobId>) returns (first: JobId)
    requires candidates != {} && candidates <= db.jobs.Keys
    requires forall id | id in candidates :: db.jobs[id].expiresAt.Some?
    ensures first in candidates
    ensures forall id | id in candidates :: db.jobs[first].expiresAt.value <= db.jobs[id].expiresAt.value
  {
    first :| first in candidates;
    var rest := candidates - {first};
    while rest != {}
      invariant first in candidates && rest <= candidates
      invariant forall id | id in candidates - rest :: db.jobs[first].expiresAt.value <= db.jobs[id].expiresAt.value
      decreases rest
    {
      var id :| id in rest;
      if db.jobs[id].expiresAt.value < db.jobs[first].expiresAt.value {
        first := id;
      }
      rest := rest - {id};
    }
  }

  /** The candidates picked so far, in order, and those that are left. */
  predicate Picked(jobs: map<JobId, Job>, ids: seq<JobId>, rest: set<JobId>, eligible: set<JobId>)
    requires eligible <= jobs.Keys && forall id | id in eligible :: jobs[id].expiresAt.Some?
  {
    && rest <= eligible
    && (forall i, j :: 0 <= i < j < |ids| ==> ids[i] != ids[j])
    && (forall i :: 0 <= i < |ids| ==> ids[i] in eligible && ids[i] !in rest)
    && (forall id | id in eligible && id !in rest :: id in ids)
    && (forall i, j :: 0 <= i < j < |ids| ==> jobs[ids[i]].expiresAt.value <= jobs[ids[j]].expiresAt.value)
    && (forall i, id | 0 <= i < |ids| && id in rest :: jobs[ids[i]].expiresAt.value <= jobs[id].expiresAt.value)
  }

  lemma PickedNext(jobs: map<JobId, Job>, ids: seq<JobId>, rest: set<JobId>, eligible: set<JobId>, first: JobId)
    requires eligible <= jobs.Keys && forall id | id in eligible :: jobs[id].expiresAt.Some?
    requires Picked(jobs, ids, rest, eligible) && first in rest
    requires forall id | id in rest :: jobs[first].expiresAt.value <= jobs[id].expiresAt.value
    ensures Picked(jobs, ids + [first], rest - {first}, eligible)
  {
    assert forall id | id in ids :: id in ids + [first];
    assert (ids + [first])[|ids|] == first;
  }

  lemma PickedSelects(db: Db, ids: seq<JobId>, rest: set<JobId>, batchSize: nat, locked: set<JobId>, claimTimeout: int)
    requires Picked(db.jobs, ids, rest, CleanableJobs(db, locked, claimTimeout))
    requires |ids| <= batchSize && (rest == {} || |ids| == batchSize)
    ensures Selects(db, ids, batchSize, locked, claimTimeout)
  {}

  /** The candidate query: earliest first, at most batchSize, skipping rows locked elsewhere. */
  method SelectCandidates(db: Database, batchSize: nat, locked: set<JobId>, claimTimeout: int) returns (ids: seq<JobId>)
    ensures Selects(db.Snapshot(), ids, batchSize, locked, claimTimeout)
  {
    var rest := set id | id in db.jobs && id !in locked && Cleanable(db.jobs[id], db.now, claimTimeout);
    ghost var eligible := rest;
    assert eligible == CleanableJobs(db.Snapshot(), locked, claimTimeout);
    ids := [];
    while rest != {} && |ids| < batchSize
      invariant |ids| <= batchSize && Picked(db.jobs, ids, rest, eligible)
      decreases rest
    {
      var first := Earliest(db, rest);
      PickedNext(db.jobs, ids, rest, eligible, first);
      ids, rest := ids + [first], rest - {first};
    }
    PickedSelects(db.Snapshot(), ids, rest, batchSize, locked, claimTimeout);
  }

  /** The rows as claimExpiredJobs returns them, each with its own fresh claim id. */
  function ClaimedJobs(db: Db, ids: seq<JobId>): seq<ClaimedJob>
    requires forall id | id in ids :: id in db.jobs
  {
    seq(|ids|, i requires 0 <= i < |ids| =>
      ClaimedJob(ids[i], db.jobs[ids[i]].inputKey, db.jobs[ids[i]].results, db.nextClaim + i))
  }

  /** The UPDATE of the selected rows. */
  method StampClaims(db: Database, ids: seq<JobId>)
    modifies db`jobs, db`nextClaim
    ensures db.jobs == CleanupClaimedRows(old(db.Snapshot()), ids) && db.nextClaim == old(db.nextClaim) + |ids|
  {
    db.jobs := map id | id in db.jobs ::
      if id in ids then db.jobs[id].(
        claimId := Some(db.nextClaim + IndexOf(ids, id)),
        claimedAt := Some(db.now),
        cleanupAttempts := db.jobs[id].cleanupAttempts + 1,
        cleanupError := None)
      else db.jobs[id];
    db.nextClaim := db.nextClaim + |ids|;
  }

  /** claimExpiredJobs: every candidate gets its own fresh claim id. */
  method ClaimExpiredJobs(db: Database, batchSize: nat, locked: set<JobId>, claimTimeout: int)
    returns (claimed: seq<ClaimedJob>, ids: seq<JobId>)
    requires db.Valid()
    modifies db
    ensures db.Valid() && db.history == old(db.history) + [ClaimCleanup(ids, batchSize, locked, claimTimeout)]
    ensures db.Snapshot() == ClaimCleanupTxn(old(db.Snapshot()), ids, batchSize, locked, claimTimeout)
    ensures Selects(old(db.Snapshot()), ids, batchSize, locked, claimTimeout)
    ensures claimed == ClaimedJobs(old(db.Snapshot()), ids)
  {
    var before := db.Snapshot();
    ids := SelectCandidates(db, batchSize, locked, claimTimeout);
    claimed := ClaimedJobs(before, ids);
    StampClaims(db, ids);
    db.Committed(before, ClaimCleanup(ids, batchSize, locked, claimTimeout));
  }

  // ------------------------------------------------------ deleting one job's objects

  function ResultKeys(job: ClaimedJob): set<ObjectKey> {
    if job.results.None? then {} else set name | name in job.results.value :: job.results.value[name]
  }

  /** Everything a complete deletion of the job must name, given the finished listing. */
  function ObjectKeys(job: ClaimedJob, pages: seq<seq<Option<ObjectKey>>>): set<ObjectKey> {
    {job.inputKey} + ResultKeys(job) + ListedKeys(pages)
  }

  predicate Holds(keys: seq<ObjectKey>, elements: set<ObjectKey>) {
    NoDuplicates(keys) && (forall k | k in keys :: k in elements) && (forall k | k in elements :: k in keys)
  }

  /** Set.add on a set that keeps insertion order. */
  function Add(keys: seq<ObjectKey>, key: ObjectKey): seq<ObjectKey> {
    if key in keys then keys else keys + [key]
  }

  /** The loop over one page; an object without a key is skipped. */
  method AddPage(keys: seq<ObjectKey>, contents: seq<Option<ObjectKey>>, ghost known: set<ObjectKey>)
    returns (found: seq<ObjectKey>)
    requires Holds(keys, known)
    ensures Holds(found, known + PageKeys(contents))
  {
    found := keys;
    for i := 0 to |contents|
      invariant Holds(found, known + PageKeys(contents[..i]))
    {
      assert PageKeys(contents[..i + 1]) ==
        PageKeys(contents[..i]) + if Truthy(contents[i]) then {contents[i].value} else {} by {
        assert contents[..i + 1] == contents[..i] + [contents[i]];
      }
      if Truthy(contents[i]) {
        found := Add(found, contents[i].value);
      }
    }
    assert contents[..|contents|] == contents;
  }

  /** collectObjectKeys; None is an exception from the listing. */
  method CollectObjectKeys(s3: ObjectStore, job: ClaimedJob) returns (keys: Option<seq<ObjectKey>>)
    modifies s3`prefixOf, s3`pages, s3`cursor, s3`pagesLeft, s3`listings, s3`failures
    ensures s3.failures == old(s3.failures) + if keys.Some? then 0 else 1
    ensures keys.Some? ==> Holds(keys.value, ObjectKeys(job, s3.pages))
    ensures s3.listings == old(s3.listings) + if keys.Some? then [Listing(job.id, s3.pages)] else []
  {
    var found := [job.inputKey];
    if job.results.Some? {
      var names := job.results.value.Keys;
      while names != {}
        invariant names <= job.results.value.Keys
        invariant Holds(found, {job.inputKey} +
                               (set name | name in job.results.value.Keys - names :: job.results.value[name]))
        decreases names
      {
        var name :| name in names;
        found := Add(found, job.results.value[name]);
        names := names - {name};
      }
    }
    assert Holds(found, {job.inputKey} + ResultKeys(job));
    ghost var fixed := {job.inputKey} + ResultKeys(job);
    var token: Option<string> := None;
    var more := true;
    ghost var answered: seq<seq<Option<ObjectKey>>> := [];
    while more
      invariant Holds(found, fixed + ListedKeys(answered))
      invariant token.Some? ==> token == s3.cursor && s3.prefixOf == job.id && answered == s3.pages
      invariant token.None? && more ==> answered == []
      invariant !more ==> answered == s3.pages
      invariant s3.failures == old(s3.failures)
      invariant s3.listings == old(s3.listings) + if more then [] else [Listing(job.id, s3.pages)]
      decreases more, s3.pagesLeft, token.None?
    {
      ghost var left := s3.pagesLeft;
      var response := s3.ListObjects(job.id, token);
      if response.ListFailed? {
        return None;
      }
      var contents := response.contents;
      found := AddPage(found, contents, fixed + ListedKeys(answered));
      ListedNext(answered, contents);
      answered := answered + [contents];
      more := Truthy(response.next);
      token := response.next;
    }
    keys := Some(found);
  }

  /** The delete requests of one pass cover exactly the job's objects, in chunks. */
  predicate CompleteDeletion(job: ClaimedJob, pages: seq<seq<Option<ObjectKey>>>, requests: seq<seq<ObjectKey>>) {
    && (forall c | c in requests :: |c| <= MAX_DELETE_KEYS)
    && (forall key | key in ObjectKeys(job, pages) :: Mentions(requests, key) == 1)
    && (forall c | c in requests :: forall key | key in c :: key in ObjectKeys(job, pages))
  }

  lemma {:induction false} KeysOfChunks(keys: seq<ObjectKey>)
    ensures forall c | c in Chunks(keys) :: forall key | key in c :: key in keys
    decreases |keys|
  {
    if |keys| > MAX_DELETE_KEYS {
      KeysOfChunks(keys[MAX_DELETE_KEYS..]);
    }
  }

  lemma ChunksDeleteEverything(job: ClaimedJob, pages: seq<seq<Option<ObjectKey>>>, keys: seq<ObjectKey>)
    requires Holds(keys, ObjectKeys(job, pages))
    ensures CompleteDeletion(job, pages, Chunks(keys))
  {
    ChunksPartition(keys);
    KeysOfChunks(keys);
    forall key | key in ObjectKeys(job, pages)
      ensures Mentions(Chunks(keys), key) == 1
    {
      EachKeyInOneRequest(keys, key);
    }
  }

  /** The completing write of one of these claims. */
  predicate OwnCompletion(t: Txn, own: set<ClaimId>) { t.CompleteCleanup? && t.claim in own }

  /**
  Anything other processes commit at this point. A claim number is known only to the process
  that drew it, so nobody else completes one of this process's claims.
  */
  method OthersRun(db: Database, own: set<ClaimId>)
    requires db.Valid()
    modifies db
    ensures db.Valid() && old(db.history) <= db.history
    ensures forall i | |old(db.history)| <= i < |db.history| :: !OwnCompletion(db.history[i], own)
  {
    var ts: seq<Txn> := *;
    for i := 0 to |ts|
      invariant db.Valid() && old(db.history) <= db.history
      invariant forall i | |old(db.history)| <= i < |db.history| :: !OwnCompletion(db.history[i], own)
    {
      if !OwnCompletion(ts[i], own) {
        db.CommitElsewhere(ts[i]);
      }
    }
  }

  /** One whole pass over a job since `l0`: one listing, and requests that delete everything. */
  predicate Pass(job: ClaimedJob, l0: Log, l: Log) {
    && Grows(l0, l)
    && |l.listings| == |l0.listings| + 1 && l.listings[|l0.listings|].job == job.id
    && CompleteDeletion(job, l.listings[|l0.listings|].pages, l.requests[|l0.requests|..])
  }

  lemma ChunksArePass(job: ClaimedJob, pages: seq<seq<Option<ObjectKey>>>, keys: seq<ObjectKey>, l0: Log, l: Log)
    requires Grows(l0, l) && Holds(keys, ObjectKeys(job, pages))
    requires l.listings == l0.listings + [Listing(job.id, pages)] && l.requests == l0.requests + Chunks(keys)
    ensures Pass(job, l0, l)
  {
    ChunksDeleteEverything(job, pages, keys);
    assert l.requests[|l0.requests|..] == Chunks(keys);
  }

  /** All requests since `l0` were acknowledged before transaction `i` committed. */
  predicate SentBefore(l0: Log, l: Log, i: nat)
    requires Grows(l0, l)
  {
    forall k | |l0.requests| <= k < |l.requests| :: l.stamps[k] <= i
  }

  /** One delete request, while others commit. */
  method SendChunk(db: Database, s3: ObjectStore, chunk: seq<ObjectKey>, own: set<ClaimId>, ghost l0: Log)
    returns (acknowledged: bool)
    requires db.Valid() && s3.Valid() && |chunk| <= MAX_DELETE_KEYS
    requires Grows(l0, s3.Answered()) && SentBefore(l0, s3.Answered(), |db.history|)
    modifies db, s3`requests, s3`stamps, s3`failures
    ensures db.Valid() && old(db.history) <= db.history
    ensures forall i | |old(db.history)| <= i < |db.history| :: !OwnCompletion(db.history[i], own)
    ensures s3.requests == if acknowledged then old(s3.requests) + [chunk] else old(s3.requests)
    ensures s3.failures == old(s3.failures) + if acknowledged then 0 else 1
    ensures Grows(l0, s3.Answered()) && SentBefore(l0, s3.Answered(), |db.history|)
  {
    OthersRun(db, own);
    acknowledged := s3.DeleteObjects(db, chunk);
  }

  /** The loop of deleteJobObjects over its chunks. */
  method SendChunks(db: Database, s3: ObjectStore, keys: seq<ObjectKey>, own: set<ClaimId>, ghost l0: Log)
    returns (done: bool)
    requires db.Valid() && s3.Valid()
    requires Grows(l0, s3.Answered()) && SentBefore(l0, s3.Answered(), |db.history|)
    modifies db, s3`requests, s3`stamps, s3`failures
    ensures db.Valid() && old(db.history) <= db.history
    ensures forall i | |old(db.history)| <= i < |db.history| :: !OwnCompletion(db.history[i], own)
    ensures Grows(l0, s3.Answered()) && SentBefore(l0, s3.Answered(), |db.history|)
    ensures done ==> s3.requests == old(s3.requests) + Chunks(keys)
    ensures s3.failures == old(s3.failures) + if done then 0 else 1
  {
    var start := 0;
    assert keys[..0] == [];
    while start < |keys|
      invariant start % MAX_DELETE_KEYS == 0 || start >= |keys|
      invariant s3.requests == old(s3.requests) + Chunks(keys[..if start <= |keys| then start else |keys|])
      invariant s3.failures == old(s3.failures)
      invariant db.Valid() && old(db.history) <= db.history
      invariant forall i | |old(db.history)| <= i < |db.history| :: !OwnCompletion(db.history[i], own)
      invariant Grows(l0, s3.Answered()) && SentBefore(l0, s3.Answered(), |db.history|)
    {
      var end := if start + MAX_DELETE_KEYS <= |keys| then start + MAX_DELETE_KEYS else |keys|;
      ChunksNext(keys, start);
      var acknowledged := SendChunk(db, s3, keys[start..end], own, l0);
      if !acknowledged {
        return false;
      }
      start := start + MAX_DELETE_KEYS;
    }
    assert keys[..|keys|] == keys;
    done := true;
  }

  /** deleteJobObjects; false is an exception from the one listing call or delete request that failed. */
  method DeleteJobObjects(db: Database, s3: ObjectStore, job: ClaimedJob, own: set<ClaimId>) returns (done: bool)
    requires db.Valid() && s3.Valid()
    modifies db, s3
    ensures db.Valid() && old(db.history) <= db.history
    ensures forall i | |old(db.history)| <= i < |db.history| :: !OwnCompletion(db.history[i], own)
    ensures s3.Valid() && Grows(old(s3.Answered()), s3.Answered())
    ensures SentBefore(old(s3.Answered()), s3.Answered(), |db.history|)
    ensures done ==> Pass(job, old(s3.Answered()), s3.Answered())
    ensures s3.failures == old(s3.failures) + if done then 0 else 1
  {
    ghost var l0 := s3.Answered();
    OthersRun(db, own);
    var collected := CollectObjectKeys(s3, job);
    if collected.None? {
      return false;
    }
    done := SendChunks(db, s3, collected.value, own, l0);
    if done {
      ChunksArePass(job, s3.pages, collected.value, l0, s3.Answered());
    }
  }

  // ------------------------------------------------------------ recording the result

  /** markCleanupCompleted; false is the rollback when the claim was lost. */
  method MarkCleanupCompleted(db: Database, id: JobId, claim: ClaimId) returns (held: bool)
    requires db.Valid()
    modifies db
    ensures db.Valid() && db.history == old(db.history) + [CompleteCleanup(id, claim)]
    ensures db.Snapshot() == CompleteCleanupTxn(old(db.Snapshot()), id, claim)
    ensures held <==> HoldsClaim(old(db.Snapshot()), id, claim)
    ensures held ==> Cleaned(db.Snapshot(), id)
  {
    ghost var before := db.Snapshot();
    EmptyDbOk(db.start);
    RunKeepsDbOk(EmptyDb(db.start), db.history);
    held := id in db.jobs && db.jobs[id].claimId == Some(claim);
    if held {
      db.jobs := db.jobs[id := db.jobs[id].(
        deletedAt := Some(db.now), claimId := None, claimedAt := None, cleanupError := None)];
      if db.jobs[id].ownerDeletedAt.Some? {
        db.jobs := map i | i in db.jobs &&
          !(i == id && db.jobs[i].ownerDeletedAt.Some? && db.jobs[i].deletedAt.Some?) :: db.jobs[i];
        assert db.jobs == before.jobs - {id};
      }
    }
    db.Committed(before, CompleteCleanup(id, claim));
  }

  method MarkCleanupFailed(db: Database, id: JobId, claim: ClaimId, error: string)
    requires db.Valid()
    modifies db
    ensures db.Valid() && db.history == old(db.history) + [FailCleanup(id, claim, error)]
    ensures db.Snapshot() == FailCleanupTxn(old(db.Snapshot()), id, claim, error)
  {
    ghost var before := db.Snapshot();
    if id in db.jobs && db.jobs[id].claimId == Some(claim) {
      db.jobs := db.jobs[id := db.jobs[id].(claimId := None, claimedAt := None, cleanupError := Some(error))];
    }
    db.Committed(before, FailCleanup(id, claim, error));
  }

  // ------------------------------------------------------------------- the batch

  /** The job's storage was recorded as deleted, and the row may since be gone. */
  predicate Cleaned(db: Db, id: JobId) {
    id < db.nextJob && (id in db.jobs ==> db.jobs[id].deletedAt.Some?)
  }

  lemma {:induction false} CleanedIsStable(db: Db, run: seq<Txn>, id: JobId)
    requires DbOk(db) && Cleaned(db, id)
    ensures Cleaned(Run(db, run), id)
    decreases |run|
  {
    if run != [] {
      var at := if id in db.jobs then db.jobs[id].deletedAt.value else 0;
      StepKeepsStorageGone(db, run[0], id, at);
      StepKeepsDbOk(db, run[0]);
      CleanedIsStable(Commit(db, run[0]), run[1..], id);
    }
  }

  lemma CleanedLater(start: int, earlier: seq<Txn>, later: seq<Txn>, id: JobId)
    requires earlier <= later && Cleaned(Run(EmptyDb(start), earlier), id)
    ensures Cleaned(Run(EmptyDb(start), later), id)
  {
    EmptyDbOk(start);
    RunKeepsDbOk(EmptyDb(start), earlier);
    assert later == earlier + later[|earlier|..];
    RunAppend(EmptyDb(start), earlier, later[|earlier|..]);
    CleanedIsStable(Run(EmptyDb(start), earlier), later[|earlier|..], id);
  }

  /** Why an iteration did not record the deletion; the source keeps the error's text only. */
  datatype Why = ObjectsRemain | AnswerLost | ClaimLost

  datatype Result = Deleted | Failed(why: Why) | DatabaseDown

  /** The completing write of this claim is at index `i` of the history. */
  predicate RecordedAt(h: seq<Txn>, i: nat, job: ClaimedJob) {
    i < |h| && h[i] == CompleteCleanup(job.id, job.claim)
  }

  /** It is there since index `from`. */
  predicate Recorded(h: seq<Txn>, from: nat, job: ClaimedJob) {
    exists i | from <= i < |h| :: RecordedAt(h, i, job)
  }

  /** It is there, and found that the claim was no longer held. */
  predicate LostItsClaim(start: int, h: seq<Txn>, from: nat, job: ClaimedJob) {
    exists i | from <= i < |h| :: RecordedAt(h, i, job) && !HoldsClaim(Run(EmptyDb(start), h[..i]), job.id, job.claim)
  }

  lemma RecordedLater(h: seq<Txn>, h': seq<Txn>, from: nat, job: ClaimedJob)
    requires h <= h' && Recorded(h, from, job)
    ensures Recorded(h', from, job)
  {
    var i :| from <= i < |h| && RecordedAt(h, i, job);
    assert RecordedAt(h', i, job);
  }

  lemma LostLater(start: int, h: seq<Txn>, h': seq<Txn>, from: nat, to: nat, job: ClaimedJob)
    requires h <= h' && from <= to && LostItsClaim(start, h, to, job)
    ensures LostItsClaim(start, h', from, job)
  {
    var i :| to <= i < |h| && RecordedAt(h, i, job) && !HoldsClaim(Run(EmptyDb(start), h[..i]), job.id, job.claim);
    assert h'[..i] == h[..i];
    assert RecordedAt(h', i, job);
  }

  /**
  The completion after a whole pass, and how it was answered. Unless the call never reached
  the database, the completing write is committed, and it records the deletion exactly if
  the claim is still held.
  */
  method RecordDeletion(db: Database, link: DatabaseLink, job: ClaimedJob) returns (r: Result, ghost reached: bool)
    requires db.Valid()
    modifies db, link
    ensures db.Valid()
    ensures db.history == if reached then old(db.history) + [CompleteCleanup(job.id, job.claim)] else old(db.history)
    ensures r.Deleted? <==> link.lost == old(link.lost) && HoldsClaim(old(db.Snapshot()), job.id, job.claim)
    ensures r.Deleted? ==> Cleaned(db.Snapshot(), job.id)
    ensures link.lost == old(link.lost) ==> reached
    ensures !r.Deleted? ==> r == Failed(if link.lost > old(link.lost) then AnswerLost else ClaimLost)
    ensures old(link.lost) <= link.lost <= old(link.lost) + 1
    ensures r == Failed(ClaimLost) ==> LostItsClaim(db.start, db.history, |old(db.history)|, job)
  {
    ghost var h := db.history;
    var answer := link.Call();
    reached := !answer.LostBefore?;
    if answer.LostBefore? {
      return Failed(AnswerLost), reached;
    }
    var held := MarkCleanupCompleted(db, job.id, job.claim);
    assert db.history[..|h|] == h;
    assert RecordedAt(db.history, |h|, job);
    r := if answer.LostAfter? then Failed(AnswerLost) else if held then Deleted else Failed(ClaimLost);
  }

  /** The try block of one iteration: delete the objects, then record it. */
  method DeleteAndRecord(db: Database, s3: ObjectStore, link: DatabaseLink, job: ClaimedJob, own: set<ClaimId>)
    returns (r: Result, ghost reached: bool)
    requires db.Valid() && s3.Valid() && job.claim in own
    modifies db, s3, link
    ensures db.Valid() && old(db.history) <= db.history
    ensures s3.Valid() && Grows(old(s3.Answered()), s3.Answered())
    ensures PassRecorded(db.history, |old(db.history)|, own, job, old(s3.Answered()), s3.Answered())
    ensures s3.failures == old(s3.failures) ==> Pass(job, old(s3.Answered()), s3.Answered())
    ensures s3.failures == old(s3.failures) && reached ==> Recorded(db.history, |old(db.history)|, job)
    ensures s3.failures == old(s3.failures) && link.lost == old(link.lost) ==> reached
    ensures r.Deleted? ==> s3.failures == old(s3.failures) && link.lost == old(link.lost)
    ensures r.Deleted? ==> Cleaned(db.Snapshot(), job.id) && reached
    ensures r == Failed(ObjectsRemain) ==> s3.failures == old(s3.failures) + 1 && link.lost == old(link.lost)
    ensures r == Failed(AnswerLost) ==> link.lost == old(link.lost) + 1
    ensures r == Failed(ClaimLost) ==> LostItsClaim(db.start, db.history, |old(db.history)|, job)
    ensures r.Failed? || r.Deleted?
    ensures reached ==> s3.failures == old(s3.failures)
    ensures old(link.lost) <= link.lost && old(s3.failures) <= s3.failures
    ensures s3.failures == old(s3.failures) && link.lost == old(link.lost) ==> r.Deleted? || r == Failed(ClaimLost)
  {
    ghost var h := db.history;
    var done := DeleteJobObjects(db, s3, job, own);
    OthersRun(db, own);
    r, reached := Failed(ObjectsRemain), false;
    if done {
      ghost var ready := db.history;
      r, reached := RecordDeletion(db, link, job);
      assert reached ==> RecordedAt(db.history, |ready|, job);
      if r == Failed(ClaimLost) {
        LostLater(db.start, db.history, db.history, |h|, |ready|, job);
      }
    }
  }

  /** The catch block: the claim is given back with the error, if the database can be reached. */
  method GiveBack(db: Database, link: DatabaseLink, job: ClaimedJob, own: set<ClaimId>, why: Why) returns (r: Result)
    requires db.Valid()
    modifies db, link
    ensures db.Valid() && old(db.history) <= db.history
    ensures forall i | |old(db.history)| <= i < |db.history| :: !OwnCompletion(db.history[i], own)
    ensures r == if link.lost == old(link.lost) then Failed(why) else DatabaseDown
    ensures old(link.lost) <= link.lost
    ensures r.Failed? ==>
      db.history != [] && exists e :: db.history[|db.history| - 1] == FailCleanup(job.id, job.claim, e)
    ensures r.Failed? ==> !HoldsClaim(db.Snapshot(), job.id, job.claim)
  {
    OthersRun(db, own);
    var failing := link.Call();
    if !failing.LostBefore? {
      MarkCleanupFailed(db, job.id, job.claim, "storage cleanup failed");
    }
    r := if failing.Heard? then Failed(why) else DatabaseDown;
  }

  /**
  One iteration of the batch loop; `own` are the claims of this process. However it ends, its
  completing write comes only after a whole pass whose requests were all acknowledged; and
  after such a pass it does come, unless the call never reached the database. DatabaseDown is
  the exception that ends the batch.
  */
  method CleanupJob(db: Database, s3: ObjectStore, link: DatabaseLink, job: ClaimedJob, own: set<ClaimId>)
    returns (r: Result, ghost reached: bool)
    requires db.Valid() && s3.Valid() && job.claim in own
    modifies db, s3, link
    ensures db.Valid() && old(db.history) <= db.history
    ensures s3.Valid() && Grows(old(s3.Answered()), s3.Answered())
    ensures PassRecorded(db.history, |old(db.history)|, own, job, old(s3.Answered()), s3.Answered())
    ensures s3.failures == old(s3.failures) ==> Pass(job, old(s3.Answered()), s3.Answered())
    ensures s3.failures == old(s3.failures) && reached ==> Recorded(db.history, |old(db.history)|, job)
    ensures s3.failures == old(s3.failures) && link.lost == old(link.lost) ==> reached
    ensures s3.failures == old(s3.failures) && link.lost == old(link.lost) ==>
      r.Deleted? || (r == Failed(ClaimLost) && LostItsClaim(db.start, db.history, |old(db.history)|, job))
    ensures r.Deleted? ==> s3.failures == old(s3.failures) && link.lost == old(link.lost)
    ensures r.Deleted? ==> Cleaned(db.Snapshot(), job.id) && Recorded(db.history, |old(db.history)|, job)
    ensures r.Failed? ==>
      db.history != [] && exists e :: db.history[|db.history| - 1] == FailCleanup(job.id, job.claim, e)
    ensures r.Failed? ==> !HoldsClaim(db.Snapshot(), job.id, job.claim)
    ensures r == Failed(ObjectsRemain) ==> s3.failures == old(s3.failures) + 1
    ensures r == Failed(AnswerLost) ==> link.lost == old(link.lost) + 1
    ensures r == Failed(ClaimLost) ==> LostItsClaim(db.start, db.history, |old(db.history)|, job)
    ensures r.DatabaseDown? ==> link.lost > old(link.lost)
    ensures old(link.lost) <= link.lost && old(s3.failures) <= s3.failures
  {
    ghost var from := |db.history|;
    r, reached := DeleteAndRecord(db, s3, link, job, own);
    if r.Deleted? {
      return;
    }
    ghost var h := db.history;
    var why := r.why;
    r := GiveBack(db, link, job, own, why);
    if why.ClaimLost? {
      LostLater(db.start, h, db.history, from, from, job);
    }
    if reached {
      RecordedLater(h, db.history, from, job);
    }
  }

  datatype BatchResult = BatchResult(claimed: nat, deleted: nat, failed: nat)

  function CountResults(results: seq<Result>, kind: Result): nat {
    if results == [] then 0
    else CountResults(results[..|results| - 1], kind) + if results[|results| - 1] == kind then 1 else 0
  }

  /** Since `l0` the job's storage was listed to the end and completely deleted, all before transaction `i`. */
  predicate DeletedBefore(job: ClaimedJob, l0: Log, l: Log, i: nat)
    requires Grows(l0, l)
  {
    exists n, low, high | |l0.listings| <= n < |l.listings| && |l0.requests| <= low <= high <= |l.requests| ::
      && l.listings[n].job == job.id && CompleteDeletion(job, l.listings[n].pages, l.requests[low..high])
      && forall k | low <= k < high :: l.stamps[k] <= i
  }

  lemma DeletedLater(job: ClaimedJob, l0: Log, l: Log, l': Log, i: nat)
    requires Grows(l0, l) && Grows(l, l')
    ensures Grows(l0, l') && (DeletedBefore(job, l0, l, i) ==> DeletedBefore(job, l0, l', i))
  {
    if DeletedBefore(job, l0, l, i) {
      var n, low, high :| |l0.listings| <= n < |l.listings| && |l0.requests| <= low <= high <= |l.requests| &&
        l.listings[n].job == job.id && CompleteDeletion(job, l.listings[n].pages, l.requests[low..high]) &&
        forall k | low <= k < high :: l.stamps[k] <= i;
      assert l'.requests[low..high] == l.requests[low..high];
      assert l'.listings[n] == l.listings[n];
    }
  }

  lemma PassDeletes(job: ClaimedJob, l0: Log, l: Log, l': Log, i: nat)
    requires Grows(l0, l) && Pass(job, l, l') && SentBefore(l, l', i)
    ensures Grows(l0, l') && DeletedBefore(job, l0, l', i)
  {
    assert l'.requests[|l.requests|..|l'.requests|] == l'.requests[|l.requests|..];
  }

  /** A completing write of this claim since index `from` follows the complete deletion since `l0`. */
  predicate RecordedAfterDeletion(h: seq<Txn>, from: nat, job: ClaimedJob, l0: Log, l: Log)
    requires Grows(l0, l)
  {
    forall i | from <= i < |h| && RecordedAt(h, i, job) :: DeletedBefore(job, l0, l, i)
  }

  /** A job counted as deleted is recorded as such, and one that lost its claim did lose it. */
  predicate Settled(db: Db, start: int, h: seq<Txn>, from: nat, job: ClaimedJob, result: Result) {
    && (result.Deleted? ==> Cleaned(db, job.id) && Recorded(h, from, job))
    && (result == Failed(ClaimLost) ==> LostItsClaim(start, h, from, job))
  }

  predicate AllSettled(db: Db, start: int, h: seq<Txn>, from: nat, jobs: seq<ClaimedJob>, results: seq<Result>) {
    |results| <= |jobs| && forall k | 0 <= k < |results| :: Settled(db, start, h, from, jobs[k], results[k])
  }

  predicate AllAfterDeletion(h: seq<Txn>, from: nat, jobs: seq<ClaimedJob>, l0: Log, l: Log)
    requires Grows(l0, l)
  {
    forall k | 0 <= k < |jobs| :: RecordedAfterDeletion(h, from, jobs[k], l0, l)
  }

  lemma AllSettledLater(start: int, h: seq<Txn>, h': seq<Txn>, from: nat, jobs: seq<ClaimedJob>, results: seq<Result>)
    requires h <= h' && AllSettled(Run(EmptyDb(start), h), start, h, from, jobs, results)
    ensures AllSettled(Run(EmptyDb(start), h'), start, h', from, jobs, results)
  {
    forall k | 0 <= k < |results|
      ensures Settled(Run(EmptyDb(start), h'), start, h', from, jobs[k], results[k])
    {
      if results[k].Deleted? {
        CleanedLater(start, h, h', jobs[k].id);
        RecordedLater(h, h', from, jobs[k]);
      } else if results[k] == Failed(ClaimLost) {
        LostLater(start, h, h', from, from, jobs[k]);
      }
    }
  }

  function ClaimsOf(jobs: seq<ClaimedJob>): set<ClaimId> { set j | j in jobs :: j.claim }

  predicate DistinctClaims(jobs: seq<ClaimedJob>) {
    forall a, b | 0 <= a < b < |jobs| :: jobs[a].claim != jobs[b].claim
  }

  /** The completing writes of one iteration belong to its job and follow its pass. */
  predicate PassRecorded(h: seq<Txn>, since: nat, own: set<ClaimId>, job: ClaimedJob, l: Log, l': Log)
    requires Grows(l, l')
  {
    forall i | since <= i < |h| && OwnCompletion(h[i], own) ::
      h[i] == CompleteCleanup(job.id, job.claim) && Pass(job, l, l') && SentBefore(l, l', i)
  }

  lemma IterationRecords(h: seq<Txn>, h': seq<Txn>, from: nat, jobs: seq<ClaimedJob>, n: nat, k: nat,
                         l0: Log, l: Log, l': Log)
    requires h <= h' && n < |jobs| && k < |jobs| && DistinctClaims(jobs) && Grows(l0, l) && Grows(l, l')
    requires RecordedAfterDeletion(h, from, jobs[k], l0, l)
    requires PassRecorded(h', |h|, ClaimsOf(jobs), jobs[n], l, l')
    ensures Grows(l0, l') && RecordedAfterDeletion(h', from, jobs[k], l0, l')
  {
    forall i | from <= i < |h'| && RecordedAt(h', i, jobs[k])
      ensures DeletedBefore(jobs[k], l0, l', i)
    {
      if i < |h| {
        assert RecordedAt(h, i, jobs[k]);
        DeletedLater(jobs[k], l0, l, l', i);
      } else {
        assert jobs[k] in jobs;
        assert OwnCompletion(h'[i], ClaimsOf(jobs));
        assert k == n;
        PassDeletes(jobs[n], l0, l, l', i);
      }
    }
  }

  lemma SettledFrom(start: int, h: seq<Txn>, from: nat, since: nat, job: ClaimedJob, result: Result)
    requires from <= since && Settled(Run(EmptyDb(start), h), start, h, since, job, result)
    ensures Settled(Run(EmptyDb(start), h), start, h, from, job, result)
  {
    if result == Failed(ClaimLost) {
      LostLater(start, h, h, from, since, job);
    }
  }

  /** One iteration seen from the whole batch, which began at history index `from` and log `l0`. */
  method CleanupNext(db: Database, s3: ObjectStore, link: DatabaseLink, jobs: seq<ClaimedJob>, ghost from: nat,
                     ghost l0: Log, results: seq<Result>)
    returns (one: Result)
    requires db.Valid() && s3.Valid() && |results| < |jobs| && DistinctClaims(jobs)
    requires from <= |db.history| && Grows(l0, s3.Answered())
    requires AllSettled(db.Snapshot(), db.start, db.history, from, jobs, results)
    requires AllAfterDeletion(db.history, from, jobs, l0, s3.Answered())
    modifies db, s3, link
    ensures db.Valid() && old(db.history) <= db.history
    ensures s3.Valid() && Grows(l0, s3.Answered())
    ensures AllSettled(db.Snapshot(), db.start, db.history, from, jobs, results + [one])
    ensures AllAfterDeletion(db.history, from, jobs, l0, s3.Answered())
    ensures old(link.lost) <= link.lost && old(s3.failures) <= s3.failures
    ensures one.Failed? && !one.why.ClaimLost? ==> s3.failures + link.lost > old(s3.failures) + old(link.lost)
    ensures one.DatabaseDown? ==> link.lost > old(link.lost)
  {
    ghost var h, l := db.history, s3.Answered();
    var job := jobs[|results|];
    ghost var reached;
    one, reached := CleanupJob(db, s3, link, job, ClaimsOf(jobs));
    AllSettledLater(db.start, h, db.history, from, jobs, results);
    SettledFrom(db.start, db.history, from, |h|, job, one);
    forall k | 0 <= k < |jobs|
      ensures RecordedAfterDeletion(db.history, from, jobs[k], l0, s3.Answered())
    {
      IterationRecords(h, db.history, from, jobs, |results|, k, l0, l, s3.Answered());
    }
  }

  /** The loop over the claimed jobs; down is the exception that ends it. */
  method CleanupJobs(db: Database, s3: ObjectStore, link: DatabaseLink, jobs: seq<ClaimedJob>, ghost from: nat,
                     ghost l0: Log)
    returns (down: bool, deleted: nat, failed: nat, results: seq<Result>)
    requires db.Valid() && s3.Valid() && DistinctClaims(jobs)
    requires from <= |db.history| && Grows(l0, s3.Answered())
    requires AllAfterDeletion(db.history, from, jobs, l0, s3.Answered())
    modifies db, s3, link
    ensures db.Valid() && old(db.history) <= db.history
    ensures s3.Valid() && Grows(l0, s3.Answered())
    ensures |results| == deleted + failed && deleted == CountResults(results, Deleted)
    ensures !down ==> |results| == |jobs|
    ensures failed <=
      (s3.failures - old(s3.failures)) + (link.lost - old(link.lost)) + CountResults(results, Failed(ClaimLost))
    ensures old(s3.failures) <= s3.failures && old(link.lost) <= link.lost
    ensures down ==> link.lost > old(link.lost)
    ensures AllSettled(db.Snapshot(), db.start, db.history, from, jobs, results)
    ensures AllAfterDeletion(db.history, from, jobs, l0, s3.Answered())
  {
    down, deleted, failed, results := false, 0, 0, [];
    for i := 0 to |jobs|
      invariant db.Valid() && old(db.history) <= db.history && !down
      invariant s3.Valid() && Grows(l0, s3.Answered())
      invariant |results| == i == deleted + failed && deleted == CountResults(results, Deleted)
      invariant failed <=
        (s3.failures - old(s3.failures)) + (link.lost - old(link.lost)) + CountResults(results, Failed(ClaimLost))
      invariant old(s3.failures) <= s3.failures && old(link.lost) <= link.lost
      invariant AllSettled(db.Snapshot(), db.start, db.history, from, jobs, results)
      invariant AllAfterDeletion(db.history, from, jobs, l0, s3.Answered())
    {
      var one := CleanupNext(db, s3, link, jobs, from, l0, results);
      if one.DatabaseDown? {
        return true, deleted, failed, results;
      }
      deleted, failed := if one.Deleted? then deleted + 1 else deleted, if one.Deleted? then failed else failed + 1;
      assert (results + [one])[..i] == results;
      results := results + [one];
    }
  }

  /**
  cleanupExpiredStorageBatch. A normal return accounts for every claimed job as deleted or
  failed; a job counted as deleted is recorded as cleaned, and no job fails for any other
  reason than a failed call to object storage, a lost answer, or a claim taken over in
  between. However the batch ends, and whether or not the answer was heard, the completing
  write of a claim of this batch comes only after this batch listed the job's storage to the
  end and named every one of its objects in exactly one acknowledged request of at most 1000
  keys, with no other key.
  */
  method CleanupExpiredStorageBatch(
    db: Database, s3: ObjectStore, link: DatabaseLink, batchSize: nat, locked: set<JobId>, claimTimeout: int)
    returns (r: Option<BatchResult>, jobs: seq<ClaimedJob>, results: seq<Result>, ghost ids: seq<JobId>)
    requires db.Valid() && s3.Valid()
    modifies db, s3, link
    ensures db.Valid() && old(db.history) <= db.history
    ensures s3.Valid() && Grows(old(s3.Answered()), s3.Answered())
    ensures |jobs| <= batchSize
    ensures r.Some? ==> Selects(old(db.Snapshot()), ids, batchSize, locked, claimTimeout)
    ensures r.Some? ==> (forall id | id in ids :: id in old(db.jobs)) && jobs == ClaimedJobs(old(db.Snapshot()), ids)
    ensures r.Some? ==> |results| == |jobs|
    ensures r.Some? ==> r.value.claimed == |jobs| == r.value.deleted + r.value.failed
    ensures r.Some? ==> r.value.deleted == CountResults(results, Deleted)
    ensures r.Some? ==>
      r.value.failed <=
        (s3.failures - old(s3.failures)) + (link.lost - old(link.lost)) + CountResults(results, Failed(ClaimLost))
    ensures r.None? ==> link.lost > old(link.lost)
    ensures AllSettled(db.Snapshot(), db.start, db.history, |old(db.history)|, jobs, results)
    ensures AllAfterDeletion(db.history, |old(db.history)|, jobs, old(s3.Answered()), s3.Answered())
  {
    results, ids := [], [];
    var claiming := link.Call();
    if claiming.LostBefore? {
      return None, [], results, ids;
    }
    ghost var from, l0 := |db.history|, s3.Answered();
    var claimedIds;
    jobs, claimedIds := ClaimExpiredJobs(db, batchSize, locked, claimTimeout);
    ids := claimedIds;
    if claiming.LostAfter? {
      return None, jobs, results, ids;
    }
    var down, deleted, failed;
    down, deleted, failed, results := CleanupJobs(db, s3, link, jobs, from, l0);
    r := if down then None else Some(BatchResult(|jobs|, deleted, failed));
  }
}
