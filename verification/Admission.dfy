/**
Admission control statement by statement (createJob in backend/src/services/jobService.ts):
many transactions run at once, each statement reads committed rows only, and an advisory
lock keyed by a hash of the owner lasts from its statement to commit or rollback. Jobs end,
rows disappear, and logins move rows between owners in between.
*/
module Admission {
  import opened Tables

  datatype Row = Row(owner: OwnerId, inputKey: ObjectKey, active: bool)

  datatype Phase = Waiting | Locked | NotDuplicate | BelowLimit | Inserted(id: JobId)

  datatype Creation = Creation(owner: OwnerId, inputKey: ObjectKey, phase: Phase)

  /** Committed rows, open creations by connection, and how often each owner adopted rows so far. */
  datatype Board = Board(
    limit: nat, rows: map<JobId, Row>, nextJob: JobId, open: map<nat, Creation>, adoptions: map<OwnerId, nat>)

  datatype Statement =
    | Begin(connection: nat, owner: OwnerId, inputKey: ObjectKey)
    | TakeLock(connection: nat)
    | CheckDuplicate(connection: nat)
    | CheckLimit(connection: nat)
    | Insert(connection: nat)
    | CommitCreation(connection: nat)
    | Abort(connection: nat)                       // error, rollback or lost connection
    | JobEnds(id: JobId)
    | RowRemoved(id: JobId)                        // only finished jobs are ever removed
    | Adopt(anonymous: OwnerId, user: OwnerId, seen: set<JobId>)   // moves only rows its UPDATE saw

  function Active(rows: map<JobId, Row>, owner: OwnerId): set<JobId> {
    set id | id in rows && rows[id].owner == owner && rows[id].active
  }

  predicate RowExists(rows: map<JobId, Row>, owner: OwnerId, inputKey: ObjectKey) {
    exists id | id in rows :: rows[id].owner == owner && rows[id].inputKey == inputKey
  }

  predicate Holds(c: Creation) { !c.phase.Waiting? }

  predicate LockFree(hash: OwnerId -> int, b: Board, connection: nat, owner: OwnerId) {
    forall k | k in b.open && k != connection && Holds(b.open[k]) :: hash(b.open[k].owner) != hash(owner)
  }

  function Adoptions(b: Board, owner: OwnerId): nat {
    if owner in b.adoptions then b.adoptions[owner] else 0
  }

  function Advance(b: Board, k: nat, phase: Phase): Board
    requires k in b.open
  {
    b.(open := b.open[k := b.open[k].(phase := phase)])
  }

  function Drop(b: Board, k: nat): Board { b.(open := b.open - {k}) }

  predicate AtPhase(b: Board, k: nat, phase: Phase) { k in b.open && b.open[k].phase == phase }

  /** The inserted row becomes visible. */
  function Committed(b: Board, k: nat): Board
    requires k in b.open && b.open[k].phase.Inserted?
  {
    Drop(b, k).(rows := b.rows[b.open[k].phase.id := Row(b.open[k].owner, b.open[k].inputKey, true)])
  }

  /** adoptAnonymousJobs: the rows change owner. */
  function AdoptedRows(rows: map<JobId, Row>, anonymous: OwnerId, user: OwnerId, seen: set<JobId>): map<JobId, Row> {
    map id | id in rows :: if rows[id].owner == anonymous && id in seen then rows[id].(owner := user) else rows[id]
  }

  function Execute(hash: OwnerId -> int, b: Board, s: Statement): Board {
    match s
    case Begin(k, owner, key) => if k in b.open then b else b.(open := b.open[k := Creation(owner, key, Waiting)])
    case TakeLock(k) =>
      if AtPhase(b, k, Waiting) && LockFree(hash, b, k, b.open[k].owner) then Advance(b, k, Locked) else b
    case CheckDuplicate(k) =>
      if !AtPhase(b, k, Locked) then b
      else if RowExists(b.rows, b.open[k].owner, b.open[k].inputKey) then Drop(b, k)
      else Advance(b, k, NotDuplicate)
    case CheckLimit(k) =>
      if !AtPhase(b, k, NotDuplicate) then b
      else if |Active(b.rows, b.open[k].owner)| >= b.limit then Drop(b, k)
      else Advance(b, k, BelowLimit)
    case Insert(k) =>
      if AtPhase(b, k, BelowLimit) then Advance(b, k, Inserted(b.nextJob)).(nextJob := b.nextJob + 1) else b
    case CommitCreation(k) =>
      if k in b.open && b.open[k].phase.Inserted? then Committed(b, k) else b
    case Abort(k) => Drop(b, k)
    case JobEnds(id) => if id in b.rows then b.(rows := b.rows[id := b.rows[id].(active := false)]) else b
    case RowRemoved(id) => if id in b.rows && !b.rows[id].active then b.(rows := b.rows - {id}) else b
    case Adopt(anonymous, user, seen) =>
      if anonymous == user then b
      else b.(rows := AdoptedRows(b.rows, anonymous, user, seen),
              adoptions := b.adoptions[user := Adoptions(b, user) + 1])
  }

  function ExecuteAll(hash: OwnerId -> int, b: Board, run: seq<Statement>): Board
    decreases |run|
  {
    if run == [] then b else ExecuteAll(hash, Execute(hash, b, run[0]), run[1..])
  }

  function EmptyBoard(limit: nat): Board { Board(limit, map[], 0, map[], map[]) }

  // ---------------------------------------------------------------- invariants

  /** Counted against the limit, but not committed yet. */
  predicate Reserved(c: Creation) { c.phase.BelowLimit? || c.phase.Inserted? }

  function Reservations(b: Board, owner: OwnerId): set<nat> {
    set k | k in b.open && b.open[k].owner == owner && Reserved(b.open[k])
  }

  /** No two transactions hold locks with the same key. */
  predicate LocksExclusive(hash: OwnerId -> int, b: Board) {
    forall a, k | a in b.open && k in b.open && a != k && Holds(b.open[a]) && Holds(b.open[k]) ::
      hash(b.open[a].owner) != hash(b.open[k].owner)
  }

  /** Uncommitted ids are numbers nobody else has. */
  predicate IdsOk(b: Board) {
    && (forall id | id in b.rows :: id < b.nextJob)
    && (forall k | k in b.open && b.open[k].phase.Inserted? ::
          b.open[k].phase.id < b.nextJob && b.open[k].phase.id !in b.rows)
    && (forall a, k | a in b.open && k in b.open && a != k && b.open[a].phase.Inserted? && b.open[k].phase.Inserted? ::
          b.open[a].phase.id != b.open[k].phase.id)
  }

  predicate LocksOk(hash: OwnerId -> int, b: Board) { LocksExclusive(hash, b) && IdsOk(b) }

  /** Active jobs and reserved places of an owner. */
  function Places(b: Board, owner: OwnerId): nat { |Active(b.rows, owner)| + |Reservations(b, owner)| }

  predicate LimitOk(b: Board, owner: OwnerId) { Places(b, owner) <= b.limit * (1 + Adoptions(b, owner)) }

  /** Anonymous owners never adopt: rows move only from outside `accounts` into it. */
  predicate AdoptsInto(s: Statement, accounts: set<OwnerId>) {
    s.Adopt? ==> s.user in accounts && s.anonymous !in accounts
  }

  ghost predicate AdmissionInv(hash: OwnerId -> int, b: Board, accounts: set<OwnerId>) {
    && LocksOk(hash, b)
    && (forall owner: OwnerId :: LimitOk(b, owner))
    && (forall owner: OwnerId | owner !in accounts :: Adoptions(b, owner) == 0)
  }

  lemma ExecuteKeepsExclusion(hash: OwnerId -> int, b: Board, s: Statement)
    requires LocksExclusive(hash, b)
    ensures LocksExclusive(hash, Execute(hash, b, s))
  {}

  lemma CreationKeepsIds(hash: OwnerId -> int, b: Board, s: Statement)
    requires IdsOk(b) && (s.Insert? || s.CommitCreation?)
    ensures IdsOk(Execute(hash, b, s))
  {}

  lemma ExecuteKeepsIds(hash: OwnerId -> int, b: Board, s: Statement)
    requires IdsOk(b)
    ensures IdsOk(Execute(hash, b, s))
  {
    if s.Insert? || s.CommitCreation? {
      CreationKeepsIds(hash, b, s);
    }
  }

  lemma ExecuteKeepsLocks(hash: OwnerId -> int, b: Board, s: Statement)
    requires LocksOk(hash, b)
    ensures LocksOk(hash, Execute(hash, b, s)) && Execute(hash, b, s).limit == b.limit
  {
    ExecuteKeepsExclusion(hash, b, s);
    ExecuteKeepsIds(hash, b, s);
  }

  /** The lock serialises an owner's creations, so at most one has reserved a place. */
  lemma OneReservation(hash: OwnerId -> int, b: Board, k: nat)
    requires LocksOk(hash, b) && k in b.open && Holds(b.open[k])
    ensures Reservations(b, b.open[k].owner) <= {k}
  {}

  lemma SubsetSize<T>(a: set<T>, b: set<T>)
    requires a <= b
    ensures |a| <= |b|
  {
    if a != {} {
      var x :| x in a;
      SubsetSize(a - {x}, b - {x});
    }
  }

  lemma AtLeastTheLimit(limit: nat, adoptions: nat)
    ensures limit <= limit * (1 + adoptions)
  {}

  /** The limit check itself reserves a place only within the limit. */
  lemma CheckLimitKeepsPlaces(hash: OwnerId -> int, b: Board, k: nat, owner: OwnerId)
    requires LocksOk(hash, b)
    ensures var places := Places(Execute(hash, b, CheckLimit(k)), owner);
      places <= Places(b, owner) || places <= b.limit
  {
    var b' := Execute(hash, b, CheckLimit(k));
    if AtPhase(b, k, NotDuplicate) {
      assert b'.rows == b.rows;
      if b.open[k].owner == owner && |Active(b.rows, owner)| < b.limit {
        OneReservation(hash, b, k);
        SubsetSize(Reservations(b', owner), {k});
      } else {
        SubsetSize(Reservations(b', owner), Reservations(b, owner));
      }
    }
  }

  /** A commit turns the reservation into an active row. */
  lemma CommitSizes(b: Board, k: nat)
    requires IdsOk(b) && k in b.open && b.open[k].phase.Inserted?
    ensures var owner := b.open[k].owner;
      && |Active(Committed(b, k).rows, owner)| == |Active(b.rows, owner)| + 1
      && Reservations(Committed(b, k), owner) == Reservations(b, owner) - {k}
      && Places(Committed(b, k), owner) == Places(b, owner)
  {
    var id, owner := b.open[k].phase.id, b.open[k].owner;
    assert Active(Committed(b, k).rows, owner) == Active(b.rows, owner) + {id};
    assert id !in Active(b.rows, owner);
    assert k in Reservations(b, owner);
    assert Reservations(Committed(b, k), owner) == Reservations(b, owner) - {k};
  }

  lemma CommitElsewhere(b: Board, k: nat, owner: OwnerId)
    requires IdsOk(b) && k in b.open && b.open[k].phase.Inserted? && b.open[k].owner != owner
    ensures Places(Committed(b, k), owner) == Places(b, owner)
  {
    assert Active(Committed(b, k).rows, owner) == Active(b.rows, owner);
    assert Reservations(Committed(b, k), owner) == Reservations(b, owner);
  }

  lemma CommitKeepsPlaces(hash: OwnerId -> int, b: Board, k: nat, owner: OwnerId)
    requires IdsOk(b)
    ensures Places(Execute(hash, b, CommitCreation(k)), owner) == Places(b, owner)
  {
    if k in b.open && b.open[k].phase.Inserted? {
      if b.open[k].owner == owner {
        CommitSizes(b, k);
      } else {
        CommitElsewhere(b, k, owner);
      }
    }
  }

  lemma OthersKeepPlaces(hash: OwnerId -> int, b: Board, s: Statement, owner: OwnerId)
    requires !s.CheckLimit? && !s.CommitCreation? && (s.Adopt? ==> s.user != owner)
    ensures Places(Execute(hash, b, s), owner) <= Places(b, owner)
  {
    var b' := Execute(hash, b, s);
    assert Active(b'.rows, owner) <= Active(b.rows, owner);
    assert Reservations(b', owner) <= Reservations(b, owner);
    SubsetSize(Active(b'.rows, owner), Active(b.rows, owner));
    SubsetSize(Reservations(b', owner), Reservations(b, owner));
  }

  /** Only an adoption by the owner takes more places than the limit allows. */
  lemma ExecuteKeepsPlaces(hash: OwnerId -> int, b: Board, s: Statement, owner: OwnerId)
    requires LocksOk(hash, b) && (s.Adopt? ==> s.user != owner)
    ensures var places := Places(Execute(hash, b, s), owner);
      places <= Places(b, owner) || places <= b.limit
  {
    match s
    case CheckLimit(k) => CheckLimitKeepsPlaces(hash, b, k, owner);
    case CommitCreation(k) => CommitKeepsPlaces(hash, b, k, owner);
    case _ => OthersKeepPlaces(hash, b, s, owner);
  }

  lemma ExecuteKeepsAdoptions(hash: OwnerId -> int, b: Board, s: Statement, owner: OwnerId)
    requires s.Adopt? ==> s.user != owner
    ensures Adoptions(Execute(hash, b, s), owner) == Adoptions(b, owner)
  {}

  /** Where each active row is after an adoption. */
  lemma AdoptedRow(rows: map<JobId, Row>, anonymous: OwnerId, user: OwnerId, seen: set<JobId>, id: JobId)
    requires anonymous != user
    ensures var after := AdoptedRows(rows, anonymous, user, seen);
      && (id in Active(after, user) <==> id in Active(rows, user) || (id in Active(rows, anonymous) && id in seen))
      && (id in Active(after, anonymous) <==> id in Active(rows, anonymous) && id !in seen)
  {}

  lemma DisjointSize<T>(whole: set<T>, a: set<T>, b: set<T>)
    requires a !! b && forall x :: x in whole <==> x in a || x in b
    ensures |whole| == |a| + |b|
  {
    assert whole == a + b;
  }

  lemma AdoptedSizes(rows: map<JobId, Row>, anonymous: OwnerId, user: OwnerId, seen: set<JobId>)
    requires anonymous != user
    ensures var after := AdoptedRows(rows, anonymous, user, seen);
      && |Active(after, user)| == |Active(rows, user)| + |Active(rows, anonymous) * seen|
      && Active(after, anonymous) == Active(rows, anonymous) - seen
  {
    var after := AdoptedRows(rows, anonymous, user, seen);
    forall id: JobId
      ensures id in Active(after, user) <==> id in Active(rows, user) || (id in Active(rows, anonymous) && id in seen)
      ensures id in Active(after, anonymous) <==> id in Active(rows, anonymous) && id !in seen
    {
      AdoptedRow(rows, anonymous, user, seen, id);
    }
    DisjointSize(Active(after, user), Active(rows, user), Active(rows, anonymous) * seen);
  }

  lemma OneMoreAdoption(limit: nat, adoptions: nat, active: nat, adopted: nat)
    requires active <= limit * (1 + adoptions) && adopted <= limit
    ensures active + adopted <= limit * (1 + (adoptions + 1))
  {
    assert limit * (1 + (adoptions + 1)) == limit * (1 + adoptions) + limit;
  }

  lemma AdoptedPlaces(hash: OwnerId -> int, b: Board, anonymous: OwnerId, user: OwnerId, seen: set<JobId>)
    requires anonymous != user
    ensures var b' := Execute(hash, b, Adopt(anonymous, user, seen));
      && Places(b', user) == Places(b, user) + |Active(b.rows, anonymous) * seen|
      && Reservations(b', user) == Reservations(b, user)
      && b'.limit == b.limit && Adoptions(b', user) == Adoptions(b, user) + 1
  {
    AdoptedSizes(b.rows, anonymous, user, seen);
    assert Reservations(Execute(hash, b, Adopt(anonymous, user, seen)), user) == Reservations(b, user);
  }

  lemma SeenWithinLimit(b: Board, anonymous: OwnerId, seen: set<JobId>)
    requires LimitOk(b, anonymous) && Adoptions(b, anonymous) == 0
    ensures |Active(b.rows, anonymous) * seen| <= b.limit
  {
    SubsetSize(Active(b.rows, anonymous) * seen, Active(b.rows, anonymous));
  }

  /** Adopting an owner's rows adds at most one owner's worth of active jobs. */
  lemma AdoptKeepsLimit(hash: OwnerId -> int, b: Board, anonymous: OwnerId, user: OwnerId, seen: set<JobId>)
    requires LimitOk(b, user) && LimitOk(b, anonymous) && Adoptions(b, anonymous) == 0
    ensures LimitOk(Execute(hash, b, Adopt(anonymous, user, seen)), user)
  {
    if anonymous != user {
      AdoptedPlaces(hash, b, anonymous, user, seen);
      SeenWithinLimit(b, anonymous, seen);
      OneMoreAdoption(b.limit, Adoptions(b, user), Places(b, user), |Active(b.rows, anonymous) * seen|);
    }
  }

  lemma ExecuteKeepsLimit(hash: OwnerId -> int, b: Board, s: Statement, owner: OwnerId)
    requires LocksOk(hash, b) && LimitOk(b, owner) && (s.Adopt? ==> s.user != owner)
    ensures LimitOk(Execute(hash, b, s), owner)
  {
    ExecuteKeepsLocks(hash, b, s);
    ExecuteKeepsPlaces(hash, b, s, owner);
    ExecuteKeepsAdoptions(hash, b, s, owner);
    AtLeastTheLimit(b.limit, Adoptions(b, owner));
  }

  lemma ExecuteKeepsAdmission(hash: OwnerId -> int, b: Board, s: Statement, accounts: set<OwnerId>)
    requires AdmissionInv(hash, b, accounts) && AdoptsInto(s, accounts)
    ensures AdmissionInv(hash, Execute(hash, b, s), accounts)
  {
    ExecuteKeepsLocks(hash, b, s);
    forall owner: OwnerId
      ensures LimitOk(Execute(hash, b, s), owner)
    {
      if s.Adopt? && s.user == owner {
        AdoptKeepsLimit(hash, b, s.anonymous, owner, s.seen);
      } else {
        ExecuteKeepsLimit(hash, b, s, owner);
      }
    }
  }

  lemma {:induction false} RunKeepsAdmission(
    hash: OwnerId -> int, b: Board, run: seq<Statement>, accounts: set<OwnerId>)
    requires AdmissionInv(hash, b, accounts) && forall s | s in run :: AdoptsInto(s, accounts)
    ensures AdmissionInv(hash, ExecuteAll(hash, b, run), accounts) && ExecuteAll(hash, b, run).limit == b.limit
    decreases |run|
  {
    if run != [] {
      assert run[0] in run;
      ExecuteKeepsLocks(hash, b, run[0]);
      ExecuteKeepsAdmission(hash, b, run[0], accounts);
      RunKeepsAdmission(hash, Execute(hash, b, run[0]), run[1..], accounts);
    }
  }

  /**
  Admission under every interleaving: an owner's active jobs never exceed the limit times
  one plus the adoptions into that owner, so the bare limit for an owner that adopted nothing.
  */
  lemma ActiveJobsAreBounded(
    hash: OwnerId -> int, limit: nat, run: seq<Statement>, accounts: set<OwnerId>, owner: OwnerId)
    requires forall s | s in run :: AdoptsInto(s, accounts)
    ensures var b := ExecuteAll(hash, EmptyBoard(limit), run);
      |Active(b.rows, owner)| <= limit * (1 + Adoptions(b, owner))
    ensures owner !in accounts ==> |Active(ExecuteAll(hash, EmptyBoard(limit), run).rows, owner)| <= limit
  {
    var b := ExecuteAll(hash, EmptyBoard(limit), run);
    forall o: OwnerId
      ensures LimitOk(EmptyBoard(limit), o)
    {
      assert Active(map[], o) == {} && Reservations(EmptyBoard(limit), o) == {};
    }
    RunKeepsAdmission(hash, EmptyBoard(limit), run, accounts);
    assert LimitOk(b, owner);
  }

  /** Adoption does not go through admission: right after it the rows it saw count for the user. */
  lemma AdoptionAddsUp(hash: OwnerId -> int, b: Board, anonymous: OwnerId, user: OwnerId, seen: set<JobId>)
    requires anonymous != user
    ensures var b' := Execute(hash, b, Adopt(anonymous, user, seen));
      && |Active(b'.rows, user)| == |Active(b.rows, user)| + |Active(b.rows, anonymous) * seen|
      && Active(b'.rows, anonymous) == Active(b.rows, anonymous) - seen
  {
    AdoptedSizes(b.rows, anonymous, user, seen);
  }

  predicate NoAdoptionBy(run: seq<Statement>, user: OwnerId) {
    forall s | s in run :: s.Adopt? ==> s.user != user
  }

  lemma {:induction false} RunKeepsPlaces(hash: OwnerId -> int, b: Board, run: seq<Statement>, owner: OwnerId)
    requires LocksOk(hash, b) && Places(b, owner) <= b.limit && NoAdoptionBy(run, owner)
    ensures Places(ExecuteAll(hash, b, run), owner) <= b.limit
    decreases |run|
  {
    if run != [] {
      assert run[0] in run;
      ExecuteKeepsLocks(hash, b, run[0]);
      ExecuteKeepsPlaces(hash, b, run[0], owner);
      RunKeepsPlaces(hash, Execute(hash, b, run[0]), run[1..], owner);
    }
  }

  /** The statements that a creation with a reserved place has left. */
  function Finish(b: Board, k: nat): seq<Statement>
    requires k in b.open
  {
    (if b.open[k].phase.Inserted? then [] else [Insert(k)]) + [CommitCreation(k)]
  }

  function WithRow(hash: OwnerId -> int, b: Board, k: nat): Board
    requires k in b.open
  {
    if b.open[k].phase.Inserted? then b else Execute(hash, b, Insert(k))
  }

  lemma FinishCommits(hash: OwnerId -> int, b: Board, k: nat)
    requires k in b.open && Reserved(b.open[k])
    ensures ExecuteAll(hash, b, Finish(b, k)) == Execute(hash, WithRow(hash, b, k), CommitCreation(k))
  {
    OneStatement(hash, WithRow(hash, b, k), CommitCreation(k));
    if !b.open[k].phase.Inserted? {
      OneStatement(hash, b, Insert(k));
      ExecuteAppend(hash, b, [Insert(k)], [CommitCreation(k)]);
    }
  }

  /** A reserved place becomes one more active job, whatever the count is by then. */
  lemma FinishAddsOne(hash: OwnerId -> int, b: Board, k: nat)
    requires LocksOk(hash, b) && k in b.open && Reserved(b.open[k])
    ensures var owner := b.open[k].owner;
      |Active(ExecuteAll(hash, b, Finish(b, k)).rows, owner)| == |Active(b.rows, owner)| + 1
  {
    FinishCommits(hash, b, k);
    ExecuteKeepsLocks(hash, b, Insert(k));
    CommitSizes(WithRow(hash, b, k), k);
  }

  lemma ExceedingRun(hash: OwnerId -> int, b: Board, user: OwnerId) returns (run: seq<Statement>)
    requires LocksOk(hash, b) && Places(b, user) > b.limit
    ensures NoAdoptionBy(run, user) && |Active(ExecuteAll(hash, b, run).rows, user)| > b.limit
  {
    if |Active(b.rows, user)| > b.limit {
      run := [];
    } else {
      assert Reservations(b, user) != {};
      var k :| k in Reservations(b, user);
      OneReservation(hash, b, k);
      SubsetSize(Reservations(b, user), {k});
      FinishAddsOne(hash, b, k);
      run := Finish(b, k);
    }
  }

  /**
  Exactly when an adoption keeps the bare limit: no statements that follow the adoption,
  short of another one by the same user, find the user above the limit if and only if its
  active jobs, its reserved place and the active jobs that move were together within the
  limit before. A creation of the anonymous owner that the UPDATE did not see stays behind.
  */
  lemma AdoptionKeepsLimitExactly(hash: OwnerId -> int, b: Board, anonymous: OwnerId, user: OwnerId, seen: set<JobId>)
    requires LocksOk(hash, b) && anonymous != user
    ensures
      (|Active(b.rows, user)| + |Reservations(b, user)| + |Active(b.rows, anonymous) * seen| <= b.limit)
      <==>
      (forall run | NoAdoptionBy(run, user) ::
         |Active(ExecuteAll(hash, Execute(hash, b, Adopt(anonymous, user, seen)), run).rows, user)| <= b.limit)
  {
    var after := Execute(hash, b, Adopt(anonymous, user, seen));
    ExecuteKeepsLocks(hash, b, Adopt(anonymous, user, seen));
    AdoptedPlaces(hash, b, anonymous, user, seen);
    if Places(after, user) <= b.limit {
      forall run | NoAdoptionBy(run, user)
        ensures |Active(ExecuteAll(hash, after, run).rows, user)| <= b.limit
      {
        RunKeepsPlaces(hash, after, run, user);
      }
    } else {
      var run := ExceedingRun(hash, after, user);
    }
  }

  /** All statements of one creation that nobody interrupts. */
  function WholeCreation(k: nat, owner: OwnerId, inputKey: ObjectKey): seq<Statement> {
    [Begin(k, owner, inputKey), TakeLock(k), CheckDuplicate(k)] + [CheckLimit(k), Insert(k), CommitCreation(k)]
  }

  lemma ThreeStatements(hash: OwnerId -> int, b: Board, x: Statement, y: Statement, z: Statement)
    ensures ExecuteAll(hash, b, [x, y, z]) == Execute(hash, Execute(hash, Execute(hash, b, x), y), z)
  {
    assert [x, y, z][1..] == [y, z] && [y, z][1..] == [z] && [z][1..] == [];
    assert ExecuteAll(hash, b, [x, y, z]) == ExecuteAll(hash, Execute(hash, b, x), [y, z]);
    var first := Execute(hash, b, x);
    assert ExecuteAll(hash, first, [y, z]) == ExecuteAll(hash, Execute(hash, first, y), [z]);
  }

  /** No other transaction is open for an owner with the same lock, and connection `k` is idle. */
  predicate Idle(hash: OwnerId -> int, b: Board, k: nat, owner: OwnerId) {
    k !in b.open && LockFree(hash, b, k, owner)
  }

  lemma CheckedCreation(hash: OwnerId -> int, b: Board, k: nat, owner: OwnerId, inputKey: ObjectKey)
    requires Idle(hash, b, k, owner) && !RowExists(b.rows, owner, inputKey)
    ensures ExecuteAll(hash, b, [Begin(k, owner, inputKey), TakeLock(k), CheckDuplicate(k)]) ==
            b.(open := b.open[k := Creation(owner, inputKey, NotDuplicate)])
  {
    var c := Begin(k, owner, inputKey);
    ThreeStatements(hash, b, c, TakeLock(k), CheckDuplicate(k));
    var begun := Execute(hash, b, c);
    assert begun.open == b.open[k := Creation(owner, inputKey, Waiting)];
    assert LockFree(hash, begun, k, owner);
    assert Execute(hash, begun, TakeLock(k)).open == b.open[k := Creation(owner, inputKey, Locked)];
  }

  /**
  Whatever else is open, an upload without a job, of an owner below the limit, gets its job
  once the creation has its lock: one new active row, and everything else as it was.
  */
  lemma UninterruptedCreation(hash: OwnerId -> int, b: Board, k: nat, owner: OwnerId, inputKey: ObjectKey)
    requires Idle(hash, b, k, owner) && !RowExists(b.rows, owner, inputKey) && |Active(b.rows, owner)| < b.limit
    ensures ExecuteAll(hash, b, WholeCreation(k, owner, inputKey)) ==
            b.(rows := b.rows[b.nextJob := Row(owner, inputKey, true)], nextJob := b.nextJob + 1)
  {
    CheckedCreation(hash, b, k, owner, inputKey);
    CountedCreation(hash, b, k, owner, inputKey);
    ExecuteAppend(hash, b, [Begin(k, owner, inputKey), TakeLock(k), CheckDuplicate(k)],
                  [CheckLimit(k), Insert(k), CommitCreation(k)]);
  }

  lemma CountedCreation(hash: OwnerId -> int, b: Board, k: nat, owner: OwnerId, inputKey: ObjectKey)
    requires k !in b.open && |Active(b.rows, owner)| < b.limit
    ensures ExecuteAll(hash, b.(open := b.open[k := Creation(owner, inputKey, NotDuplicate)]),
                       [CheckLimit(k), Insert(k), CommitCreation(k)]) ==
            b.(rows := b.rows[b.nextJob := Row(owner, inputKey, true)], nextJob := b.nextJob + 1)
  {
    var checked := b.(open := b.open[k := Creation(owner, inputKey, NotDuplicate)]);
    ThreeStatements(hash, checked, CheckLimit(k), Insert(k), CommitCreation(k));
    var counted := Execute(hash, checked, CheckLimit(k));
    assert counted.open == b.open[k := Creation(owner, inputKey, BelowLimit)];
    var inserted := Execute(hash, counted, Insert(k));
    assert inserted.open == b.open[k := Creation(owner, inputKey, Inserted(b.nextJob))];
    assert Execute(hash, inserted, CommitCreation(k)).open == b.open;
  }

  /** A creation at or over the limit, or of an upload that has a job, leaves no trace. */
  lemma RefusedCreation(hash: OwnerId -> int, b: Board, k: nat, owner: OwnerId, inputKey: ObjectKey)
    requires Idle(hash, b, k, owner)
    requires RowExists(b.rows, owner, inputKey) || |Active(b.rows, owner)| >= b.limit
    ensures ExecuteAll(hash, b, WholeCreation(k, owner, inputKey)) == b
  {
    var first, second := [Begin(k, owner, inputKey), TakeLock(k), CheckDuplicate(k)],
                         [CheckLimit(k), Insert(k), CommitCreation(k)];
    ExecuteAppend(hash, b, first, second);
    if RowExists(b.rows, owner, inputKey) {
      DuplicateIsDropped(hash, b, k, owner, inputKey);
      ThreeStatements(hash, b, CheckLimit(k), Insert(k), CommitCreation(k));
    } else {
      CheckedCreation(hash, b, k, owner, inputKey);
      var checked := b.(open := b.open[k := Creation(owner, inputKey, NotDuplicate)]);
      ThreeStatements(hash, checked, CheckLimit(k), Insert(k), CommitCreation(k));
      assert Execute(hash, checked, CheckLimit(k)).open == b.open;
    }
  }

  lemma DuplicateIsDropped(hash: OwnerId -> int, b: Board, k: nat, owner: OwnerId, inputKey: ObjectKey)
    requires Idle(hash, b, k, owner) && RowExists(b.rows, owner, inputKey)
    ensures ExecuteAll(hash, b, [Begin(k, owner, inputKey), TakeLock(k), CheckDuplicate(k)]) == b
  {
    var c := Begin(k, owner, inputKey);
    ThreeStatements(hash, b, c, TakeLock(k), CheckDuplicate(k));
    var begun := Execute(hash, b, c);
    assert begun.open == b.open[k := Creation(owner, inputKey, Waiting)];
    assert LockFree(hash, begun, k, owner);
    var locked := Execute(hash, begun, TakeLock(k));
    assert locked.open == b.open[k := Creation(owner, inputKey, Locked)];
    assert Execute(hash, locked, CheckDuplicate(k)).open == b.open;
  }

  /** With limit 1, a visitor and an account can have one active job each. */
  lemma OneJobEach(
    hash: OwnerId -> int, limit: nat, k: nat, visitor: OwnerId, account: OwnerId, x: ObjectKey, y: ObjectKey)
    requires limit == 1 && visitor != account
    ensures ExecuteAll(hash, EmptyBoard(limit), WholeCreation(k, visitor, x) + WholeCreation(k, account, y)).rows ==
            map[0 := Row(visitor, x, true), 1 := Row(account, y, true)]
  {
    var b0 := EmptyBoard(limit);
    assert Active(b0.rows, visitor) == {};
    UninterruptedCreation(hash, b0, k, visitor, x);
    var b1 := b0.(rows := map[0 := Row(visitor, x, true)], nextJob := 1);
    assert Active(b1.rows, account) == {};
    UninterruptedCreation(hash, b1, k, account, y);
    ExecuteAppend(hash, b0, WholeCreation(k, visitor, x), WholeCreation(k, account, y));
  }

  /** The bare limit is not kept across logins: one job each and one adoption make two under limit 1. */
  lemma AdoptionCanExceedLimit(
    hash: OwnerId -> int, limit: nat, visitor: OwnerId, account: OwnerId, x: ObjectKey, y: ObjectKey)
    requires limit == 1 && visitor != account
    ensures exists run: seq<Statement> :: |Active(ExecuteAll(hash, EmptyBoard(limit), run).rows, account)| > limit
  {
    var run := WholeCreation(0, visitor, x) + WholeCreation(0, account, y);
    OneJobEach(hash, limit, 0, visitor, account, x, y);
    var b := ExecuteAll(hash, EmptyBoard(limit), run);
    var adopt := Adopt(visitor, account, {0});
    ExecuteAppend(hash, EmptyBoard(limit), run, [adopt]);
    OneStatement(hash, b, adopt);
    assert Active(b.rows, visitor) == {0} && Active(b.rows, account) == {1};
    AdoptionAddsUp(hash, b, visitor, account, {0});
    assert |Active(ExecuteAll(hash, EmptyBoard(limit), run + [adopt]).rows, account)| == 2;
  }

  /** A visitor's whole creation, then an account's creation up to its limit check. */
  function CreatedAndCounted(visitor: OwnerId, account: OwnerId, x: ObjectKey, y: ObjectKey): seq<Statement> {
    WholeCreation(0, visitor, x) + [Begin(0, account, y), TakeLock(0), CheckDuplicate(0)] + [CheckLimit(0)]
  }

  lemma CreatedAndCountedBoard(
    hash: OwnerId -> int, visitor: OwnerId, account: OwnerId, x: ObjectKey, y: ObjectKey)
    requires visitor != account
    ensures ExecuteAll(hash, EmptyBoard(1), CreatedAndCounted(visitor, account, x, y)) ==
            Board(1, map[0 := Row(visitor, x, true)], 1, map[0 := Creation(account, y, BelowLimit)], map[])
  {
    var b0 := EmptyBoard(1);
    var counted := [Begin(0, account, y), TakeLock(0), CheckDuplicate(0)];
    assert Active(b0.rows, visitor) == {};
    UninterruptedCreation(hash, b0, 0, visitor, x);
    var b1 := b0.(rows := map[0 := Row(visitor, x, true)], nextJob := 1);
    CheckedCreation(hash, b1, 0, account, y);
    ExecuteAppend(hash, b0, WholeCreation(0, visitor, x), counted);
    var checked := b1.(open := map[0 := Creation(account, y, NotDuplicate)]);
    OneStatement(hash, checked, CheckLimit(0));
    ExecuteAppend(hash, b0, WholeCreation(0, visitor, x) + counted, [CheckLimit(0)]);
    assert Active(b1.rows, account) == {};
    assert Execute(hash, checked, CheckLimit(0)).open == map[0 := Creation(account, y, BelowLimit)];
  }

  /**
  Counting committed rows only is not enough: here the limit 1 still holds right after the
  adoption, and the creation that was admitted before it makes two.
  */
  lemma AdmittedCreationCanExceedLimit(
    hash: OwnerId -> int, visitor: OwnerId, account: OwnerId, x: ObjectKey, y: ObjectKey)
    requires visitor != account
    ensures var run := CreatedAndCounted(visitor, account, x, y) + [Adopt(visitor, account, {0})];
      && |Active(ExecuteAll(hash, EmptyBoard(1), run).rows, account)| == 1
      && |Active(ExecuteAll(hash, EmptyBoard(1), run + [Insert(0), CommitCreation(0)]).rows, account)| == 2
  {
    var before := CreatedAndCounted(visitor, account, x, y);
    var b := Board(1, map[0 := Row(visitor, x, true)], 1, map[0 := Creation(account, y, BelowLimit)], map[]);
    CreatedAndCountedBoard(hash, visitor, account, x, y);
    OneStatement(hash, b, Adopt(visitor, account, {0}));
    ExecuteAppend(hash, EmptyBoard(1), before, [Adopt(visitor, account, {0})]);
    var adopted := Execute(hash, b, Adopt(visitor, account, {0}));
    assert Active(adopted.rows, account) == {0};
    FinishAddsOne(hash, adopted, 0);
    assert Finish(adopted, 0) == [Insert(0), CommitCreation(0)];
    ExecuteAppend(hash, EmptyBoard(1), before + [Adopt(visitor, account, {0})], [Insert(0), CommitCreation(0)]);
  }

  lemma OneStatement(hash: OwnerId -> int, b: Board, s: Statement)
    ensures ExecuteAll(hash, b, [s]) == Execute(hash, b, s)
  {
    assert [s][1..] == [];
  }

  lemma {:induction false} ExecuteAppend(hash: OwnerId -> int, b: Board, first: seq<Statement>, second: seq<Statement>)
    ensures ExecuteAll(hash, b, first + second) == ExecuteAll(hash, ExecuteAll(hash, b, first), second)
    decreases |first|
  {
    if first == [] {
      assert first + second == second;
    } else {
      assert (first + second)[1..] == first[1..] + second;
      ExecuteAppend(hash, Execute(hash, b, first[0]), first[1..], second);
    }
  }

  // ------------------------------------------------------- one job per upload

  /** A creation that passed its duplicate check. */
  predicate Unique(c: Creation) { Reserved(c) || c.phase.NotDuplicate? }

  predicate UploadsOk(b: Board) {
    && (forall i, j | i in b.rows && j in b.rows && i != j ::
          b.rows[i].owner != b.rows[j].owner || b.rows[i].inputKey != b.rows[j].inputKey)
    && (forall k, id | k in b.open && id in b.rows && Unique(b.open[k]) ::
          b.rows[id].owner != b.open[k].owner || b.rows[id].inputKey != b.open[k].inputKey)
  }

  lemma CommitKeepsUploads(hash: OwnerId -> int, b: Board, k: nat)
    requires LocksOk(hash, b) && UploadsOk(b) && k in b.open && b.open[k].phase.Inserted?
    ensures UploadsOk(Execute(hash, b, CommitCreation(k)))
  {
    var c := b.open[k];
    forall i | i in b.open && i != k && Unique(b.open[i])
      ensures b.open[i].owner != c.owner
    {
      assert Holds(b.open[i]) && Holds(c);
    }
  }

  lemma ExecuteKeepsUploads(hash: OwnerId -> int, b: Board, s: Statement)
    requires LocksOk(hash, b) && UploadsOk(b) && !s.Adopt?
    ensures UploadsOk(Execute(hash, b, s))
  {
    if s.CommitCreation? && s.connection in b.open && b.open[s.connection].phase.Inserted? {
      CommitKeepsUploads(hash, b, s.connection);
    }
  }

  lemma {:induction false} RunKeepsUploads(hash: OwnerId -> int, b: Board, run: seq<Statement>)
    requires LocksOk(hash, b) && UploadsOk(b) && forall s | s in run :: !s.Adopt?
    ensures UploadsOk(ExecuteAll(hash, b, run))
    decreases |run|
  {
    if run != [] {
      assert run[0] in run;
      ExecuteKeepsLocks(hash, b, run[0]);
      ExecuteKeepsUploads(hash, b, run[0]);
      RunKeepsUploads(hash, Execute(hash, b, run[0]), run[1..]);
    }
  }

  /** While no job changes owner, one upload of an owner has at most one job. */
  lemma OneJobPerUpload(hash: OwnerId -> int, limit: nat, run: seq<Statement>, i: JobId, j: JobId)
    requires forall s | s in run :: !s.Adopt?
    requires var rows := ExecuteAll(hash, EmptyBoard(limit), run).rows;
      i in rows && j in rows && rows[i].owner == rows[j].owner && rows[i].inputKey == rows[j].inputKey
    ensures i == j
  {
    RunKeepsUploads(hash, EmptyBoard(limit), run);
  }
}
