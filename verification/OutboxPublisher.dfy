/** One backend replica's publishing pass (backend/src/kafka/outboxPublisher.ts). */
module OutboxPublisher {
  import opened Tables
  import opened Store

  const BATCH_SIZE := 10

  /**
  The rows a pass locks: WHERE status = 'PENDING' ORDER BY created_at LIMIT n FOR UPDATE
  SKIP LOCKED. Rows are numbered in creation order; `locked` rows belong to other passes.
  */
  function SelectRows(outbox: seq<Event>, locked: set<nat>, from: nat, n: nat): seq<nat>
    requires from <= |outbox|
    decreases |outbox| - from
  {
    if n == 0 || from == |outbox| then []
    else if outbox[from].published || from in locked then SelectRows(outbox, locked, from + 1, n)
    else [from] + SelectRows(outbox, locked, from + 1, n - 1)
  }

  predicate Selectable(outbox: seq<Event>, locked: set<nat>, i: nat) {
    i < |outbox| && !outbox[i].published && i !in locked
  }

  lemma {:induction false} SelectsSelectable(outbox: seq<Event>, locked: set<nat>, from: nat, n: nat)
    requires from <= |outbox|
    ensures var rows := SelectRows(outbox, locked, from, n);
      && |rows| <= n
      && (forall k | 0 <= k < |rows| :: from <= rows[k] && Selectable(outbox, locked, rows[k]))
      && (forall k, m | 0 <= k < m < |rows| :: rows[k] < rows[m])
    decreases |outbox| - from
  {
    if n != 0 && from != |outbox| {
      if outbox[from].published || from in locked {
        SelectsSelectable(outbox, locked, from + 1, n);
      } else {
        SelectsSelectable(outbox, locked, from + 1, n - 1);
      }
    }
  }

  lemma {:induction false} SelectsAllEarlier(outbox: seq<Event>, locked: set<nat>, from: nat, n: nat, i: nat)
    requires from <= i && Selectable(outbox, locked, i)
    ensures var rows := SelectRows(outbox, locked, from, n);
      i !in rows ==> |rows| == n && forall k | 0 <= k < n :: rows[k] < i
    decreases |outbox| - from
  {
    if n != 0 && from != |outbox| {
      if outbox[from].published || from in locked {
        SelectsAllEarlier(outbox, locked, from + 1, n, i);
      } else if from < i {
        SelectsAllEarlier(outbox, locked, from + 1, n - 1, i);
        var rest := SelectRows(outbox, locked, from + 1, n - 1);
        assert i in rest ==> i in [from] + rest;
      } else {
        assert SelectRows(outbox, locked, from, n)[0] == i;
      }
    }
  }

  /** A pass locks at most ten rows: pending, unlocked, each once, and none older is left out. */
  lemma SelectsOldest(outbox: seq<Event>, locked: set<nat>)
    ensures var rows := SelectRows(outbox, locked, 0, BATCH_SIZE);
      && |rows| <= BATCH_SIZE
      && (forall k | 0 <= k < |rows| :: Selectable(outbox, locked, rows[k]))
      && (forall k, m | 0 <= k < m < |rows| :: rows[k] < rows[m])
      && (forall i: nat | Selectable(outbox, locked, i) && i !in rows ::
            |rows| == BATCH_SIZE && forall k | 0 <= k < |rows| :: rows[k] < i)
  {
    SelectsSelectable(outbox, locked, 0, BATCH_SIZE);
    forall i: nat | Selectable(outbox, locked, i) && i !in SelectRows(outbox, locked, 0, BATCH_SIZE)
      ensures var rows := SelectRows(outbox, locked, 0, BATCH_SIZE);
        |rows| == BATCH_SIZE && forall k | 0 <= k < |rows| :: rows[k] < i
    {
      SelectsAllEarlier(outbox, locked, 0, BATCH_SIZE, i);
    }
  }

  /** Row numbers below `n`, increasing. */
  predicate InOrder(rows: seq<nat>, n: nat) {
    && (forall k | 0 <= k < |rows| :: rows[k] < n)
    && (forall k, m | 0 <= k < m < |rows| :: rows[k] < rows[m])
  }

  /** The first `i` rows of a pass. */
  function FirstRows(rows: seq<nat>, i: nat): set<nat>
    requires i <= |rows|
  {
    set k | 0 <= k < i :: rows[k]
  }

  lemma FirstRowsNext(rows: seq<nat>, i: nat, n: nat)
    requires InOrder(rows, n) && i < |rows|
    ensures rows[i] < n && rows[i] !in FirstRows(rows, i)
    ensures FirstRows(rows, i + 1) == FirstRows(rows, i) + {rows[i]}
  {}

  lemma RowsInOrder(outbox: seq<Event>, locked: set<nat>)
    ensures InOrder(SelectRows(outbox, locked, 0, BATCH_SIZE), |outbox|)
  {
    SelectsSelectable(outbox, locked, 0, BATCH_SIZE);
  }

  /** One producer.send: whether the event reached its topic, and whether that was acknowledged. */
  datatype SendRecord = SendRecord(event: nat, appended: bool, acknowledged: bool)

  /** The broker, with every send so far. */
  class Kafka {
    var sends: seq<SendRecord>

    constructor ()
      ensures sends == []
    {
      sends := [];
    }

    /** An acknowledged event is in its topic; an unacknowledged one may be. */
    method Send(event: nat) returns (acknowledged: bool)
      modifies this
      ensures exists appended :: sends == old(sends) + [SendRecord(event, appended, acknowledged)]
      ensures acknowledged ==> sends[|old(sends)|].appended
    {
      acknowledged := *;
      var arrived: bool := *;
      sends := sends + [SendRecord(event, arrived || acknowledged, acknowledged)];
    }
  }

  datatype Pass = Skipped | Committed(sent: set<nat>, failed: set<nat>) | RolledBack

  lemma MarkNext(outbox: seq<Event>, sent: set<nat>, failed: set<nat>, r: nat)
    requires r < |outbox| && r !in sent + failed
    ensures var m := Marked(outbox, sent, failed);
      && m[r := m[r].(published := true)] == Marked(outbox, sent + {r}, failed)
      && m[r := m[r].(attempts := m[r].attempts + 1)] == Marked(outbox, sent, failed + {r})
  {}

  /** Rows `done` are marked: those in `sent` as published, the others as failed once more. */
  predicate MarkedSoFar(before: seq<Event>, now: seq<Event>, done: set<nat>, sent: set<nat>, failed: set<nat>) {
    now == Marked(before, sent, failed) && sent + failed == done && sent !! failed
  }

  /** The k-th send was of the k-th row, whose mark says whether it was acknowledged. */
  predicate Follows(sends: seq<SendRecord>, rows: seq<nat>, sent: set<nat>, failed: set<nat>) {
    |sends| <= |rows| && forall k | 0 <= k < |sends| ::
      && sends[k].event == rows[k] && (sends[k].acknowledged ==> sends[k].appended)
      && (if sends[k].acknowledged then rows[k] in sent else rows[k] in failed)
  }

  class Publisher {
    var isPublishing: bool

    constructor ()
      ensures !isPublishing
    {
      isPublishing := false;
    }

    /** One iteration: send the row, then mark it published or count the failed attempt. */
    method SendAndMark(db: Database, kafka: Kafka, event: nat) returns (acknowledged: bool)
      requires event < |db.outbox|
      modifies db`outbox, kafka
      ensures db.outbox == old(db.outbox)[event := if acknowledged
        then old(db.outbox)[event].(published := true)
        else old(db.outbox)[event].(attempts := old(db.outbox)[event].attempts + 1)]
      ensures exists appended :: kafka.sends == old(kafka.sends) + [SendRecord(event, appended, acknowledged)]
      ensures acknowledged ==> kafka.sends[|old(kafka.sends)|].appended
    {
      acknowledged := kafka.Send(event);
      if acknowledged {
        db.outbox := db.outbox[event := db.outbox[event].(published := true)];
      } else {
        db.outbox := db.outbox[event := db.outbox[event].(attempts := db.outbox[event].attempts + 1)];
      }
    }

    /** One turn of the loop; not intact when a statement raised. */
    method SendNext(db: Database, kafka: Kafka, link: DatabaseLink, r: nat, ghost before: seq<Event>,
                    ghost done: set<nat>, ghost sent: set<nat>, ghost failed: set<nat>)
      returns (intact: bool, ghost one: SendRecord)
      requires r < |before| && r !in done && MarkedSoFar(before, db.outbox, done, sent, failed)
      modifies db`outbox, kafka, link
      ensures link.lost == old(link.lost) + if intact then 0 else 1
      ensures kafka.sends == old(kafka.sends) + [one] && one.event == r && (one.acknowledged ==> one.appended)
      ensures one.acknowledged ==> MarkedSoFar(before, db.outbox, done + {r}, sent + {r}, failed)
      ensures !one.acknowledged ==> MarkedSoFar(before, db.outbox, done + {r}, sent, failed + {r})
    {
      MarkNext(before, sent, failed, r);
      var acknowledged := SendAndMark(db, kafka, r);
      one := kafka.sends[|kafka.sends| - 1];
      var updating := link.Call();
      intact := updating.Heard?;
    }

    /** The loop over the locked rows; not intact when a statement raised. Each row is sent once, in order. */
    method SendRows(db: Database, kafka: Kafka, link: DatabaseLink, rows: seq<nat>)
      returns (intact: bool, ghost sent: set<nat>, ghost failed: set<nat>, ghost sends: seq<SendRecord>)
      requires InOrder(rows, |db.outbox|)
      modifies db`outbox, kafka, link
      ensures link.lost == old(link.lost) + if intact then 0 else 1
      ensures kafka.sends == old(kafka.sends) + sends && Follows(sends, rows, sent, failed)
      ensures intact ==> |sends| == |rows|
      ensures intact ==> MarkedSoFar(old(db.outbox), db.outbox, FirstRows(rows, |rows|), sent, failed)
    {
      intact, sent, failed, sends := true, {}, {}, [];
      ghost var before := db.outbox;
      assert Marked(before, {}, {}) == before;
      for i := 0 to |rows|
        invariant intact && link.lost == old(link.lost)
        invariant kafka.sends == old(kafka.sends) + sends && |sends| == i && Follows(sends, rows, sent, failed)
        invariant MarkedSoFar(before, db.outbox, FirstRows(rows, i), sent, failed)
      {
        FirstRowsNext(rows, i, |before|);
        ghost var one;
        intact, one := SendNext(db, kafka, link, rows[i], before, FirstRows(rows, i), sent, failed);
        FollowsNext(sends, rows, sent, failed, one);
        sends := sends + [one];
        if one.acknowledged {
          sent := sent + {rows[i]};
        } else {
          failed := failed + {rows[i]};
        }
        if !intact {
          return;
        }
      }
    }

    lemma FollowsNext(sends: seq<SendRecord>, rows: seq<nat>, sent: set<nat>, failed: set<nat>, one: SendRecord)
      requires |sends| < |rows| && Follows(sends, rows, sent, failed)
      requires one.event == rows[|sends|] && (one.acknowledged ==> one.appended)
      ensures one.acknowledged ==> Follows(sends + [one], rows, sent + {one.event}, failed)
      ensures !one.acknowledged ==> Follows(sends + [one], rows, sent, failed + {one.event})
    {}

    /**
    publishPendingOutboxEvents. A pass is skipped only while another runs in this process and
    rolled back only when a database call raised. It sends the selected rows once each, in order,
    and nothing else. Only a commit changes the tables; it marks exactly the selected rows
    whose send was acknowledged, and counts a failed attempt for exactly the others.
    */
    method PublishPendingOutboxEvents(db: Database, kafka: Kafka, link: DatabaseLink, locked: set<nat>)
      returns (ghost pass: Pass, rows: seq<nat>, ghost sends: seq<SendRecord>)
      requires db.Valid()
      modifies this, db, kafka, link
      ensures db.Valid() && isPublishing == old(isPublishing)
      ensures pass.Skipped? <==> old(isPublishing)
      ensures pass.RolledBack? ==> link.lost == old(link.lost) + 1
      ensures old(link.lost) <= link.lost && (pass.Skipped? ==> link.lost == old(link.lost))
      ensures !pass.Skipped? ==> rows == SelectRows(old(db.outbox), locked, 0, BATCH_SIZE)
      ensures kafka.sends == old(kafka.sends) + sends && |sends| <= |rows|
      ensures forall k | 0 <= k < |sends| :: sends[k].event == rows[k]
      ensures pass.Skipped? ==> sends == []
      ensures !pass.Committed? ==> db.Snapshot() == old(db.Snapshot()) && db.history == old(db.history)
      ensures pass.Committed? ==> db.history == old(db.history) + [Publish(pass.sent, pass.failed)]
      ensures pass.Committed? ==> db.Snapshot() == PublishTxn(old(db.Snapshot()), pass.sent, pass.failed)
      ensures pass.Committed? ==> |sends| == |rows| && Follows(sends, rows, pass.sent, pass.failed)
      ensures pass.Committed? ==> pass.sent + pass.failed == FirstRows(rows, |rows|) && pass.sent !! pass.failed
    {
      sends := [];
      if isPublishing {
        return Skipped, [], sends;
      }
      isPublishing := true;
      rows := SelectRows(db.outbox, locked, 0, BATCH_SIZE);
      RowsInOrder(db.outbox, locked);
      ghost var before := db.Snapshot();
      var savedOutbox := db.outbox;
      var intact;
      ghost var sent, failed;
      intact, sent, failed, sends := SendRows(db, kafka, link, rows);
      if intact {
        var committing := link.Call();
        intact := !committing.LostBefore?;
      }
      if intact {
        db.Committed(before, Publish(sent, failed));
        pass := Pass.Committed(sent, failed);
      } else {
        db.outbox := savedOutbox;
        pass := RolledBack;
      }
      isPublishing := false;
    }
  }
}
