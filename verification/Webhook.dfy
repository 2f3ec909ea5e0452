/** The delivery queue of internal/webhook/webhook.go: bounded retries with backoff, drained oldest first. */
module Webhook {
  import opened Common

  type Id = nat

  datatype Status = Pending | Delivered | Dead

  /** One HTTP POST: when it started, when its result was recorded, whether it was answered 2xx. */
  datatype Try = Try(start: int, end: int, ok: bool)

  /** A `webhook_deliveries` row. `tries` and `lost` are history variables: the POSTs made for the row,
      and how many of them could not be recorded. */
  datatype Row = Row(status: Status, attempt: nat, nextAt: int, tries: seq<Try>, lost: nat)

  type Rows = map<Id, Row>

  /** What happened to one delivery of a batch. `saved` tells whether the row update succeeded. */
  datatype Answer = Answer(start: int, end: int, ok: bool, saved: bool)

  /** The gaps between attempts, and how many rows one tick reads. */
  datatype Config = Config(schedule: seq<nat>, batchSize: nat)

  /** The schedule of the source, in seconds. */
  const BACKOFF_SCHEDULE: seq<nat> := [5, 30, 300, 1800]

  predicate IsDue(rows: Rows, now: int, id: Id) {
    id in rows && rows[id].status.Pending? && rows[id].nextAt <= now
  }

  /** The answer of the worker's query: due rows by `next_attempt_at`, at most `batchSize` of them. */
  ghost predicate IsBatch(c: Config, rows: Rows, now: int, batch: seq<Id>) {
    && |batch| <= c.batchSize && Distinct(batch)
    && (forall i :: 0 <= i < |batch| ==> IsDue(rows, now, batch[i]))
    && (forall id :: IsDue(rows, now, id) && id !in batch ==>
          |batch| == c.batchSize && forall i :: 0 <= i < |batch| ==> rows[batch[i]].nextAt <= rows[id].nextAt)
  }

  /** The row after one delivery attempt. */
  function Attempted(c: Config, row: Row, a: Answer): Row {
    var posted := row.(tries := row.tries + [Try(a.start, a.end, a.ok)]);
    if !a.saved then posted.(lost := row.lost + 1)
    else if a.ok then posted.(status := Delivered, attempt := row.attempt + 1)
    else if row.attempt + 1 >= |c.schedule| + 1 then posted.(status := Dead, attempt := row.attempt + 1)
    else posted.(attempt := row.attempt + 1, nextAt := a.end + c.schedule[row.attempt])
  }

  /** The table after the first `|answers|` deliveries of a batch. */
  function AfterBatch(c: Config, rows: Rows, batch: seq<Id>, answers: seq<Answer>): (r: Rows)
    requires |answers| <= |batch|
    requires forall i :: 0 <= i < |batch| ==> batch[i] in rows
    ensures r.Keys == rows.Keys
    decreases |answers|
  {
    if answers == [] then rows
    else
      var n := |answers| - 1;
      var before := AfterBatch(c, rows, batch, answers[..n]);
      before[batch[n] := Attempted(c, before[batch[n]], answers[n])]
  }

  /** A delivery is attempted once per batch; all others keep their row. */
  lemma {:induction false} AfterBatchRow(c: Config, rows: Rows, batch: seq<Id>, answers: seq<Answer>, id: Id)
    requires |answers| <= |batch| && Distinct(batch) && id in rows
    requires forall i :: 0 <= i < |batch| ==> batch[i] in rows
    ensures id !in batch[..|answers|] ==> AfterBatch(c, rows, batch, answers)[id] == rows[id]
    ensures forall i :: 0 <= i < |answers| && batch[i] == id ==>
              AfterBatch(c, rows, batch, answers)[id] == Attempted(c, rows[id], answers[i])
    decreases |answers|
  {
    if answers != [] {
      var n := |answers| - 1;
      AfterBatchRow(c, rows, batch, answers[..n], id);
      if batch[n] == id {
        assert id !in batch[..n];
      }
    }
  }

  class Worker {
    const config: Config
    var rows: Rows

    constructor (config: Config)
      ensures this.config == config && rows == map[]
    {
      this.config, this.rows := config, map[];
    }

    /** `Enqueue`'s insert: a pending row that is due at once. */
    method Insert(id: Id, now: int)
      requires id !in rows
      modifies this
      ensures id in rows && rows == old(rows)[id := rows[id]]
      ensures rows[id].status == Pending && rows[id].attempt == 0 && rows[id].nextAt == now
      ensures rows[id].tries == [] && rows[id].lost == 0 && IsDue(rows, now, id)
    {
      rows := rows[id := NewRow(now)];
    }

    /** `deliver`: POST, then record the outcome. */
    method Deliver(id: Id, a: Answer)
      requires id in rows
      modifies this
      ensures rows == old(rows)[id := Attempted(config, old(rows)[id], a)]
    {
      var row := rows[id];
      row := row.(tries := row.tries + [Try(a.start, a.end, a.ok)]);
      rows := rows[id := row];
      if !a.saved {
        rows := rows[id := row.(lost := row.lost + 1)];
      } else if a.ok {
        rows := rows[id := row.(status := Delivered, attempt := row.attempt + 1)];
      } else {
        RecordFailure(id, row, a.end);
      }
    }

    method RecordFailure(id: Id, row: Row, now: int)
      requires id in rows
      modifies this
      ensures rows == old(rows)[id :=
                        if row.attempt < |config.schedule|
                        then row.(attempt := row.attempt + 1, nextAt := now + config.schedule[row.attempt])
                        else row.(status := Dead, attempt := row.attempt + 1)]
    {
      var nextAttempt := row.attempt + 1;
      if nextAttempt >= |config.schedule| + 1 {
        rows := rows[id := row.(status := Dead, attempt := nextAttempt)];
        return;
      }
      var next := now + config.schedule[row.attempt];
      rows := rows[id := row.(attempt := nextAttempt, nextAt := next)];
    }

    /** One tick over the rows the query returned. */
    method Tick(batch: seq<Id>, answers: seq<Answer>) returns (processed: nat)
      requires |answers| == |batch| && forall i :: 0 <= i < |batch| ==> batch[i] in rows
      modifies this
      ensures processed == |batch|
      ensures rows == AfterBatch(config, old(rows), batch, answers)
    {
      processed := 0;
      while processed < |batch|
        invariant processed <= |batch|
        invariant rows == AfterBatch(config, old(rows), batch, answers[..processed])
      {
        assert answers[..processed + 1][..processed] == answers[..processed];
        Deliver(batch[processed], answers[processed]);
        processed := processed + 1;
      }
      assert answers[..processed] == answers;
    }
  }

  function NewRow(now: int): Row {
    Row(Pending, 0, now, [], 0)
  }

  // ---- Runs

  /** Deliveries enqueued since the last tick, then one tick. */
  datatype Round = Round(arrivals: map<Id, int>, now: int, batch: seq<Id>, answers: seq<Answer>)

  /** The table and the time of the last tick. */
  datatype Queue = Queue(rows: Rows, now: int)

  function Arrived(rows: Rows, arrivals: map<Id, int>): Rows {
    rows + map id | id in arrivals :: NewRow(arrivals[id])
  }

  /** Ids are fresh, time advances strictly, and the worker gets the rows its query asks for. It may end in the
      middle of its batch: `answers` are the deliveries it got to. */
  ghost predicate RoundOk(c: Config, q: Queue, rd: Round) {
    && rd.arrivals.Keys !! q.rows.Keys
    && q.now < rd.now
    && (forall id :: id in rd.arrivals ==> q.now < rd.arrivals[id])
    && IsBatch(c, Arrived(q.rows, rd.arrivals), rd.now, rd.batch)
    && |rd.answers| <= |rd.batch|
    && (forall i :: 0 <= i < |rd.answers| ==> rd.now <= rd.answers[i].start && rd.now < rd.answers[i].end
                                               && rd.answers[i].start <= rd.answers[i].end)
  }

  ghost function NextQueue(c: Config, q: Queue, rd: Round): Queue
    requires RoundOk(c, q, rd)
  {
    Queue(AfterBatch(c, Arrived(q.rows, rd.arrivals), rd.batch, rd.answers), rd.now)
  }

  // ---- Bounded, spaced attempts

  /** What is known of a row whose updates all succeeded. */
  ghost predicate Faithful(c: Config, row: Row) {
    var n := |c.schedule|;
    && |row.tries| == row.attempt <= n + 1
    && (forall j :: 0 <= j < |row.tries| - 1 ==> !row.tries[j].ok)
    && (forall j :: 0 <= j < |row.tries| - 1 ==> row.tries[j + 1].start >= row.tries[j].end + c.schedule[j])
    && match row.status
       case Pending => && row.attempt <= n
                       && (row.attempt > 0 ==>
                             && !row.tries[row.attempt - 1].ok
                             && row.nextAt == row.tries[row.attempt - 1].end + c.schedule[row.attempt - 1])
       case Delivered => row.attempt > 0 && row.tries[row.attempt - 1].ok
       case Dead => row.attempt == n + 1 && !row.tries[n].ok
  }

  ghost predicate RowOk(c: Config, row: Row) {
    && (row.lost == 0 ==> Faithful(c, row))
    && |row.tries| == row.attempt + row.lost
    && row.attempt <= |c.schedule| + (if row.status.Pending? then 0 else 1)
  }

  ghost predicate RowsOk(c: Config, rows: Rows) {
    forall id {:trigger RowOk(c, rows[id])} :: id in rows ==> RowOk(c, rows[id])
  }

  /** An attempt of a due row, started no earlier than the tick, keeps what is known of the row. */
  lemma AttemptedOk(c: Config, row: Row, a: Answer, now: int)
    requires RowOk(c, row) && row.status.Pending? && row.nextAt <= now <= a.start
    ensures RowOk(c, Attempted(c, row, a))
  {
    var row' := Attempted(c, row, a);
    if row'.lost == 0 {
      var k := |row.tries|;
      assert row'.tries[..k] == row.tries;
      forall j | 0 <= j < |row'.tries| - 1
        ensures !row'.tries[j].ok && row'.tries[j + 1].start >= row'.tries[j].end + c.schedule[j]
      {
        assert row'.tries[j] == row.tries[j];
        if j + 1 < k {
          assert row'.tries[j + 1] == row.tries[j + 1];
        }
      }
    }
  }

  /** A tick keeps every row's bounds and spacing, and never touches a delivered or dead row. */
  lemma RoundKeepsRows(c: Config, q: Queue, rd: Round)
    requires RoundOk(c, q, rd) && RowsOk(c, q.rows)
    ensures RowsOk(c, NextQueue(c, q, rd).rows)
    ensures forall id :: id in q.rows && !q.rows[id].status.Pending? ==>
              NextQueue(c, q, rd).rows[id] == q.rows[id]
  {
    var mid := Arrived(q.rows, rd.arrivals);
    var rows' := NextQueue(c, q, rd).rows;
    forall id | id in rows'
      ensures RowOk(c, rows'[id])
      ensures id in q.rows && !q.rows[id].status.Pending? ==> rows'[id] == q.rows[id]
    {
      AfterBatchRow(c, mid, rd.batch, rd.answers, id);
      assert id in q.rows ==> RowOk(c, q.rows[id]);
      if id in rd.batch[..|rd.answers|] {
        var i :| 0 <= i < |rd.answers| && rd.batch[i] == id;
        assert IsDue(mid, rd.now, rd.batch[i]);
        AttemptedOk(c, mid[id], rd.answers[i], rd.now);
      }
    }
  }

  ghost predicate IsRun(c: Config, q: Queue, rounds: seq<Round>)
    decreases |rounds|
  {
    rounds == [] || (RoundOk(c, q, rounds[0]) && IsRun(c, NextQueue(c, q, rounds[0]), rounds[1..]))
  }

  ghost function After(c: Config, q: Queue, rounds: seq<Round>): Queue
    requires IsRun(c, q, rounds)
    decreases |rounds|
  {
    if rounds == [] then q else After(c, NextQueue(c, q, rounds[0]), rounds[1..])
  }

  lemma {:induction false} RunKeepsRows(c: Config, q: Queue, rounds: seq<Round>)
    requires RowsOk(c, q.rows) && IsRun(c, q, rounds)
    ensures RowsOk(c, After(c, q, rounds).rows)
    ensures forall id :: id in q.rows && !q.rows[id].status.Pending? ==>
              id in After(c, q, rounds).rows && After(c, q, rounds).rows[id] == q.rows[id]
    decreases |rounds|
  {
    if rounds != [] {
      RoundKeepsRows(c, q, rounds[0]);
      RunKeepsRows(c, NextQueue(c, q, rounds[0]), rounds[1..]);
    }
  }

  /** In every run from an empty table, whatever the schedule of length n: a delivery whose updates all
      succeed is POSTed at most n+1 times, is dead exactly after n+1 failures, is delivered exactly when its
      last POST was answered 2xx, and try j+1 starts no earlier than schedule[j] after the end of try j. */
  lemma AttemptsAreBoundedAndSpaced(c: Config, start: int, rounds: seq<Round>, id: Id)
    requires IsRun(c, Queue(map[], start), rounds)
    requires var rows := After(c, Queue(map[], start), rounds).rows; id in rows && rows[id].lost == 0
    ensures var row := After(c, Queue(map[], start), rounds).rows[id];
            var n := |c.schedule|;
            && |row.tries| <= n + 1
            && (row.status.Dead? <==> |row.tries| == n + 1 && !row.tries[n].ok)
            && (row.status.Delivered? <==> |row.tries| > 0 && row.tries[|row.tries| - 1].ok)
            && (forall j :: 0 <= j < |row.tries| - 1 ==>
                  !row.tries[j].ok && row.tries[j + 1].start >= row.tries[j].end + c.schedule[j])
  {
    RunKeepsRows(c, Queue(map[], start), rounds);
    assert RowOk(c, After(c, Queue(map[], start), rounds).rows[id]);
  }

  /** With the schedule of the source: five POSTs, not four, before a delivery is dead, at least 5 seconds,
      30 seconds, 5 minutes and 30 minutes apart. */
  lemma DeadAfterFiveFailures(batchSize: nat, start: int, rounds: seq<Round>, id: Id)
    requires IsRun(Config(BACKOFF_SCHEDULE, batchSize), Queue(map[], start), rounds)
    requires var rows := After(Config(BACKOFF_SCHEDULE, batchSize), Queue(map[], start), rounds).rows;
             id in rows && rows[id].lost == 0
    ensures var row := After(Config(BACKOFF_SCHEDULE, batchSize), Queue(map[], start), rounds).rows[id];
            && |row.tries| <= 5 && (row.status.Dead? <==> |row.tries| == 5 && !row.tries[4].ok)
            && (|row.tries| > 1 ==> row.tries[1].start >= row.tries[0].end + 5)
            && (|row.tries| > 2 ==> row.tries[2].start >= row.tries[1].end + 30)
            && (|row.tries| > 3 ==> row.tries[3].start >= row.tries[2].end + 300)
            && (|row.tries| > 4 ==> row.tries[4].start >= row.tries[3].end + 1800)
  {
    AttemptsAreBoundedAndSpaced(Config(BACKOFF_SCHEDULE, batchSize), start, rounds, id);
  }

  /** An update that fails costs one extra POST and no more. */
  lemma LostUpdatesCostOnePostEach(c: Config, start: int, rounds: seq<Round>, id: Id)
    requires IsRun(c, Queue(map[], start), rounds)
    requires id in After(c, Queue(map[], start), rounds).rows
    ensures var row := After(c, Queue(map[], start), rounds).rows[id];
            |row.tries| == row.attempt + row.lost <= |c.schedule| + 1 + row.lost
  {
    RunKeepsRows(c, Queue(map[], start), rounds);
    assert RowOk(c, After(c, Queue(map[], start), rounds).rows[id]);
  }
}
