/** That an undisturbed publishing pass publishes what it takes. */
module ProtocolPublishing {
  import opened AcceptedWrites
  import opened OutboxPublisher
  import opened Protocol
  import opened ProtocolSafety
  import opened ProtocolSteps

  /** The sends of so many rows, all acknowledged. */
  function Sends(r: nat, partition: nat, n: nat): seq<Step> {
    if n == 0 then [] else [Send(r, partition, true, true)] + Sends(r, partition, n - 1)
  }

  /** Between `s` and `z` the rest of a pass was sent, and nothing else happened to tables or passes. */
  predicate SentRest(s: Sys, z: Sys, r: nat, rest: set<nat>)
    requires r in s.batches
  {
    && z.db == s.db && |z.logs| == |s.logs| && r in z.batches && z.batches - {r} == s.batches - {r}
    && z.batches[r] == s.batches[r].(done := |s.batches[r].rows|, sent := s.batches[r].sent + rest)
  }

  function Rest(b: Batch): set<nat> { set k | b.done <= k < |b.rows| :: b.rows[k] }

  lemma SentMore(s: Sys, m: Sys, z: Sys, r: nat)
    requires r in s.batches && r in m.batches && s.batches[r].done < |s.batches[r].rows|
    requires var b := s.batches[r];
      && m.db == s.db && |m.logs| == |s.logs| && m.batches - {r} == s.batches - {r}
      && m.batches[r] == b.(done := b.done + 1, sent := b.sent + {b.rows[b.done]})
    requires SentRest(m, z, r, Rest(m.batches[r]))
    ensures SentRest(s, z, r, Rest(s.batches[r]))
  {
    RestNext(s.batches[r]);
  }

  lemma SendsOne(s: Sys, r: nat, partition: nat)
    requires Inv(s) && r in s.batches && s.batches[r].done < |s.batches[r].rows| && partition < |s.logs|
    ensures var z, b := Next(s, Send(r, partition, true, true)), s.batches[r];
      && z.db == s.db && |z.logs| == |s.logs| && r in z.batches && z.batches - {r} == s.batches - {r}
      && z.batches[r] == b.(done := b.done + 1, sent := b.sent + {b.rows[b.done]})
  {
    var b := s.batches[r];
    assert BatchOk(s, b);
    assert b.rows[b.done] in b.rows;
    var z := Next(s, Send(r, partition, true, true));
    assert z.batches == s.batches[r := b.(done := b.done + 1, sent := b.sent + {b.rows[b.done]})];
  }

  lemma RestNext(b: Batch)
    requires b.done < |b.rows|
    ensures Rest(b) == {b.rows[b.done]} + Rest(b.(done := b.done + 1, sent := b.sent + {b.rows[b.done]}))
  {}

  lemma {:induction false} SendsRest(s: Sys, r: nat, partition: nat, n: nat)
    requires Inv(s) && r in s.batches && partition < |s.logs| && s.batches[r].done + n == |s.batches[r].rows|
    ensures Inv(Exec(s, Sends(r, partition, n))) && SentRest(s, Exec(s, Sends(r, partition, n)), r, Rest(s.batches[r]))
    decreases n
  {
    if n > 0 {
      var m := Next(s, Send(r, partition, true, true));
      var z := Exec(m, Sends(r, partition, n - 1));
      assert Exec(s, Sends(r, partition, n)) == z;
      SendsOne(s, r, partition);
      NextKeepsInv(s, Send(r, partition, true, true));
      SendsRest(m, r, partition, n - 1);
      SentMore(s, m, z, r);
    }
  }

  /** The commit of a pass whose rows were all sent. */
  lemma CommitPublishes(s: Sys, r: nat)
    requires Inv(s) && r in s.batches && s.batches[r].done == |s.batches[r].rows|
    requires forall k | 0 <= k < |s.batches[r].rows| :: s.batches[r].rows[k] in s.batches[r].sent
    ensures var z, rows := Next(s, CommitBatch(r)), s.batches[r].rows;
      && z.batches == s.batches - {r} && |z.db.outbox| == |s.db.outbox|
      && (forall k | 0 <= k < |rows| ::
            rows[k] < |z.db.outbox| && z.db.outbox[rows[k]].published && InKafka(z, rows[k]))
  {
    NextKeepsInv(s, CommitBatch(r));
    assert BatchOk(s, s.batches[r]);
    var z, rows := Next(s, CommitBatch(r)), s.batches[r].rows;
    forall k | 0 <= k < |rows|
      ensures rows[k] < |z.db.outbox| && z.db.outbox[rows[k]].published && InKafka(z, rows[k])
    {
      assert rows[k] in rows;
      PublishingMarks(s.db, s.batches[r].sent, s.batches[r].failed, rows[k]);
    }
  }

  /**
  A publishing pass publishes: it takes the oldest pending unlocked rows, ten of them or all
  there are, and when every send is acknowledged, each of them is in Kafka and PUBLISHED.
  */
  lemma PassPublishes(s: Sys, r: nat, partition: nat, i: nat)
    requires Inv(s) && r !in s.batches && partition < |s.logs|
    requires i < |s.db.outbox| && !s.db.outbox[i].published && i !in LockedRows(s.batches)
    ensures var rows := SelectRows(s.db.outbox, LockedRows(s.batches), 0, BATCH_SIZE);
      var z := Exec(s, [LockRows(r)] + Sends(r, partition, |rows|) + [CommitBatch(r)]);
      && z.batches == s.batches && |z.db.outbox| == |s.db.outbox|
      && (forall k | 0 <= k < |rows| ::
            rows[k] < |z.db.outbox| && z.db.outbox[rows[k]].published && InKafka(z, rows[k]))
      && (i in rows || (|rows| == 10 && forall k | 0 <= k < |rows| :: rows[k] < i))
  {
    var rows := SelectRows(s.db.outbox, LockedRows(s.batches), 0, BATCH_SIZE);
    SelectsOldest(s.db.outbox, LockedRows(s.batches));
    assert Selectable(s.db.outbox, LockedRows(s.batches), i);
    PassSends(s, r, partition);
    var sent := Exec(s, [LockRows(r)] + Sends(r, partition, |rows|));
    CommitPublishes(sent, r);
    ExecAppend(s, [LockRows(r)] + Sends(r, partition, |rows|), [CommitBatch(r)]);
    ExecOne(sent, CommitBatch(r));
  }

  lemma PassLocks(s: Sys, r: nat)
    requires Inv(s) && r !in s.batches
    ensures var rows, z := SelectRows(s.db.outbox, LockedRows(s.batches), 0, BATCH_SIZE), Exec(s, [LockRows(r)]);
      && Inv(z) && z.db == s.db && z.logs == s.logs && z.batches == s.batches[r := Batch(rows, 0, {}, {})]
  {
    NextKeepsInv(s, LockRows(r));
    ExecOne(s, LockRows(r));
  }

  lemma PassSends(s: Sys, r: nat, partition: nat)
    requires Inv(s) && r !in s.batches && partition < |s.logs|
    ensures var rows := SelectRows(s.db.outbox, LockedRows(s.batches), 0, BATCH_SIZE);
      var z := Exec(s, [LockRows(r)] + Sends(r, partition, |rows|));
      && Inv(z) && z.db == s.db && r in z.batches && z.batches - {r} == s.batches
      && z.batches[r].rows == rows && z.batches[r].done == |rows|
      && (forall k | 0 <= k < |rows| :: rows[k] in z.batches[r].sent)
  {
    var rows := SelectRows(s.db.outbox, LockedRows(s.batches), 0, BATCH_SIZE);
    var locked := Exec(s, [LockRows(r)]);
    PassLocks(s, r);
    SendsRest(locked, r, partition, |rows|);
    ExecAppend(s, [LockRows(r)], Sends(r, partition, |rows|));
    assert locked.batches - {r} == s.batches;
  }
}
