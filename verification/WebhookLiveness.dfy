/** Nothing waits for ever in the delivery queue. */
module WebhookLiveness {
  import opened Common
  import opened Webhook

  /** Rows the query may put before `id`: pending, and no later by `next_attempt_at`. */
  ghost function Ahead(rows: Rows, id: Id): set<Id>
    requires id in rows
  {
    set x | x in rows && x != id && rows[x].status.Pending? && rows[x].nextAt <= rows[id].nextAt
  }

  /** The worker got through its batch and every row update succeeded. */
  ghost predicate AllSaved(rd: Round) {
    |rd.answers| == |rd.batch| && forall i :: 0 <= i < |rd.answers| ==> rd.answers[i].saved
  }

  /** The rows before the tick of a round. */
  ghost function Seen(q: Queue, rd: Round): Rows {
    Arrived(q.rows, rd.arrivals)
  }

  /** A row served by a tick ends up behind every row that was due at that tick. */
  lemma ServedGoesBehind(c: Config, q: Queue, rd: Round, id: Id, x: Id)
    requires RoundOk(c, q, rd) && AllSaved(rd) && IsDue(Seen(q, rd), rd.now, id) && id !in rd.batch
    requires x in rd.batch
    ensures x !in Ahead(NextQueue(c, q, rd).rows, id)
  {
    var mid := Seen(q, rd);
    var i :| 0 <= i < |rd.batch| && rd.batch[i] == x;
    assert IsDue(mid, rd.now, rd.batch[i]);
    assert rd.batch[..|rd.answers|] == rd.batch;
    AfterBatchRow(c, mid, rd.batch, rd.answers, x);
    AfterBatchRow(c, mid, rd.batch, rd.answers, id);
  }

  /** A due row the tick passes over loses at least a whole batch of predecessors. */
  lemma PassedOverMovesUp(c: Config, q: Queue, rd: Round, id: Id)
    requires RoundOk(c, q, rd) && AllSaved(rd) && IsDue(Seen(q, rd), rd.now, id) && id !in rd.batch
    ensures var q' := NextQueue(c, q, rd);
            && id in q'.rows && q'.rows[id] == Seen(q, rd)[id]
            && |rd.batch| == c.batchSize
            && |Ahead(q'.rows, id)| + c.batchSize <= |Ahead(Seen(q, rd), id)|
  {
    var mid := Seen(q, rd);
    var rows' := NextQueue(c, q, rd).rows;
    var served := Elements(rd.batch);
    assert rd.batch[..|rd.answers|] == rd.batch;
    AfterBatchRow(c, mid, rd.batch, rd.answers, id);
    forall x | x in served ensures x in Ahead(mid, id) {
      var i :| 0 <= i < |rd.batch| && rd.batch[i] == x;
      assert IsDue(mid, rd.now, rd.batch[i]);
    }
    forall x | x in Ahead(rows', id) ensures x in Ahead(mid, id) - served {
      if x in served {
        ServedGoesBehind(c, q, rd, id, x);
      }
      AfterBatchRow(c, mid, rd.batch, rd.answers, x);
    }
    DistinctSize(rd.batch);
    SubsetSize(Ahead(rows', id), Ahead(mid, id) - served);
  }

  /** Later arrivals queue up behind a row that was due at an earlier tick. */
  lemma ArrivalsGoBehind(c: Config, q: Queue, rd: Round, id: Id)
    requires RoundOk(c, q, rd) && IsDue(q.rows, q.now, id)
    ensures IsDue(Seen(q, rd), rd.now, id) && Seen(q, rd)[id] == q.rows[id]
    ensures Ahead(Seen(q, rd), id) == Ahead(q.rows, id)
  {
  }

  /** Tick `i` of a trace of queues and rounds, with every row update succeeding. */
  ghost predicate TickAt(c: Config, qs: seq<Queue>, rds: seq<Round>, i: nat)
    requires i < |rds| < |qs|
  {
    RoundOk(c, qs[i], rds[i]) && AllSaved(rds[i]) && qs[i + 1] == NextQueue(c, qs[i], rds[i])
  }

  ghost predicate IsTrace(c: Config, qs: seq<Queue>, rds: seq<Round>) {
    |qs| == |rds| + 1 && forall i {:trigger TickAt(c, qs, rds, i)} :: 0 <= i < |rds| ==> TickAt(c, qs, rds, i)
  }

  /** With fewer than n+1 batches of predecessors a due delivery is attempted within n+1 ticks. */
  lemma {:induction false} ServedWithin(c: Config, qs: seq<Queue>, rds: seq<Round>, i: nat, id: Id, n: nat)
    returns (k: nat)
    requires IsTrace(c, qs, rds) && i + n < |rds| && IsDue(Seen(qs[i], rds[i]), rds[i].now, id)
    requires |Ahead(Seen(qs[i], rds[i]), id)| < Blocks(c.batchSize, n + 1)
    ensures i <= k <= i + n && id in rds[k].batch
    decreases n
  {
    k := i;
    assert TickAt(c, qs, rds, i);
    if id !in rds[i].batch {
      PassedOverMovesUp(c, qs[i], rds[i], id);
      assert n > 0 && TickAt(c, qs, rds, i + 1);
      ArrivalsGoBehind(c, qs[i + 1], rds[i + 1], id);
      k := ServedWithin(c, qs, rds, i + 1, id, n - 1);
    }
  }

  /** No starvation: a delivery due at tick i with r predecessors is attempted within r / batchSize + 1
      ticks, whatever arrives meanwhile and whatever the endpoints answer. */
  lemma NoStarvation(c: Config, qs: seq<Queue>, rds: seq<Round>, i: nat, id: Id, n: nat) returns (k: nat)
    requires IsTrace(c, qs, rds) && c.batchSize > 0 && i + n < |rds|
    requires IsDue(Seen(qs[i], rds[i]), rds[i].now, id)
    requires n == |Ahead(Seen(qs[i], rds[i]), id)| / c.batchSize
    ensures i <= k <= i + n && id in rds[k].batch
  {
    BlocksCover(|Ahead(Seen(qs[i], rds[i]), id)|, c.batchSize);
    k := ServedWithin(c, qs, rds, i, id, n);
  }

  /** A delivery enqueued by the time of a tick is pending, untried and due at that tick ... */
  lemma ArrivalIsDue(c: Config, q: Queue, rd: Round, id: Id)
    requires RoundOk(c, q, rd) && id in rd.arrivals && rd.arrivals[id] <= rd.now
    ensures IsDue(Seen(q, rd), rd.now, id) && Seen(q, rd)[id].tries == [] && Seen(q, rd)[id].attempt == 0
    ensures Seen(q, rd)[id].nextAt == rd.arrivals[id]
  {
  }

  /** ... and so attempted within r / batchSize + 1 ticks of its arrival, r being its predecessors. */
  lemma ArrivalIsServed(c: Config, qs: seq<Queue>, rds: seq<Round>, i: nat, id: Id, n: nat) returns (k: nat)
    requires IsTrace(c, qs, rds) && c.batchSize > 0 && i + n < |rds|
    requires id in rds[i].arrivals && rds[i].arrivals[id] <= rds[i].now && id in Seen(qs[i], rds[i])
    requires n == |Ahead(Seen(qs[i], rds[i]), id)| / c.batchSize
    ensures i <= k <= i + n && id in rds[k].batch
  {
    assert TickAt(c, qs, rds, i);
    ArrivalIsDue(c, qs[i], rds[i], id);
    k := NoStarvation(c, qs, rds, i, id, n);
  }

  // ---- Every delivery ends

  /** An endless run of a worker whose updates succeed, with time growing beyond every bound. */
  ghost predicate EndlessRun(c: Config, qs: nat -> Queue, rds: nat -> Round) {
    && c.batchSize > 0
    && (forall i: nat :: RoundOk(c, qs(i), rds(i)) && AllSaved(rds(i)) && qs(i + 1) == NextQueue(c, qs(i), rds(i)))
    && (forall time: int :: Reaches(rds, time))
    && RowsOk(c, qs(0).rows)
  }

  ghost predicate Reaches(rds: nat -> Round, time: int) {
    exists i: nat :: rds(i).now >= time
  }

  ghost predicate PendingAt(qs: nat -> Queue, i: nat, id: Id) {
    id in qs(i).rows && qs(i).rows[id].status.Pending?
  }

  lemma {:induction false} EndlessKeepsRows(c: Config, qs: nat -> Queue, rds: nat -> Round, i: nat)
    requires EndlessRun(c, qs, rds)
    ensures RowsOk(c, qs(i).rows)
  {
    if i > 0 {
      EndlessKeepsRows(c, qs, rds, i - 1);
      assert RoundOk(c, qs(i - 1), rds(i - 1)) && qs(i - 1 + 1) == NextQueue(c, qs(i - 1), rds(i - 1));
      RoundKeepsRows(c, qs(i - 1), rds(i - 1));
    }
  }

  /** A pending row that is not served keeps its row. */
  lemma NotServedNotChanged(c: Config, qs: nat -> Queue, rds: nat -> Round, i: nat, id: Id)
    requires EndlessRun(c, qs, rds) && PendingAt(qs, i, id) && id !in rds(i).batch
    ensures PendingAt(qs, i + 1, id) && qs(i + 1).rows[id] == qs(i).rows[id]
  {
    assert RoundOk(c, qs(i), rds(i)) && qs(i + 1) == NextQueue(c, qs(i), rds(i));
    AfterBatchRow(c, Seen(qs(i), rds(i)), rds(i).batch, rds(i).answers, id);
    assert rds(i).batch[..|rds(i).answers|] == rds(i).batch;
  }

  /** Time never runs backwards. */
  lemma {:induction false} LaterTicks(c: Config, qs: nat -> Queue, rds: nat -> Round, i: nat, j: nat)
    requires EndlessRun(c, qs, rds) && i <= j
    ensures rds(i).now <= rds(j).now
    decreases j - i
  {
    if i < j {
      LaterTicks(c, qs, rds, i, j - 1);
      assert RoundOk(c, qs(j - 1), rds(j - 1)) && qs(j - 1 + 1) == NextQueue(c, qs(j - 1), rds(j - 1));
      assert RoundOk(c, qs(j), rds(j));
    }
  }

  /** Waiting at most until tick `j`, the row is served or becomes due there. */
  lemma {:induction false} WaitUntilDue(c: Config, qs: nat -> Queue, rds: nat -> Round, i: nat, j: nat, id: Id)
    returns (k: nat)
    requires EndlessRun(c, qs, rds) && PendingAt(qs, i, id) && i <= j && qs(i).rows[id].nextAt <= rds(j).now
    ensures i <= k && PendingAt(qs, k, id) && qs(k).rows[id] == qs(i).rows[id]
    ensures id in rds(k).batch || IsDue(Seen(qs(k), rds(k)), rds(k).now, id)
    decreases j - i
  {
    k := i;
    assert RoundOk(c, qs(i), rds(i));
    if id !in rds(i).batch && i < j {
      NotServedNotChanged(c, qs, rds, i, id);
      k := WaitUntilDue(c, qs, rds, i + 1, j, id);
    }
  }

  /** A due row is served within as many ticks as it has predecessors. */
  lemma {:induction false} ServedInTime(c: Config, qs: nat -> Queue, rds: nat -> Round, i: nat, id: Id)
    returns (k: nat)
    requires EndlessRun(c, qs, rds) && PendingAt(qs, i, id)
    requires id in rds(i).batch || IsDue(Seen(qs(i), rds(i)), rds(i).now, id)
    ensures i <= k && PendingAt(qs, k, id) && qs(k).rows[id] == qs(i).rows[id] && id in rds(k).batch
    decreases |Ahead(Seen(qs(i), rds(i)), id)|
  {
    k := i;
    assert RoundOk(c, qs(i), rds(i)) && AllSaved(rds(i)) && qs(i + 1) == NextQueue(c, qs(i), rds(i));
    if id !in rds(i).batch {
      PassedOverMovesUp(c, qs(i), rds(i), id);
      NotServedNotChanged(c, qs, rds, i, id);
      assert RoundOk(c, qs(i + 1), rds(i + 1));
      ArrivalsGoBehind(c, qs(i + 1), rds(i + 1), id);
      k := ServedInTime(c, qs, rds, i + 1, id);
    }
  }

  /** In every endless run every delivery is eventually delivered or dead: remaining attempts and
      predecessors decrease lexicographically. */
  lemma {:induction false} EveryDeliveryEnds(c: Config, qs: nat -> Queue, rds: nat -> Round, i: nat, id: Id)
    returns (k: nat)
    requires EndlessRun(c, qs, rds) && id in qs(i).rows
    ensures i <= k && id in qs(k).rows && !qs(k).rows[id].status.Pending?
    decreases |c.schedule| + 1 - qs(i).rows[id].attempt
  {
    k := i;
    if PendingAt(qs, i, id) {
      assert Reaches(rds, qs(i).rows[id].nextAt);
      var j: nat :| rds(j).now >= qs(i).rows[id].nextAt;
      var m := if j < i then i else j;
      LaterTicks(c, qs, rds, j, m);
      var d := WaitUntilDue(c, qs, rds, i, m, id);
      var t := ServedInTime(c, qs, rds, d, id);
      EndlessKeepsRows(c, qs, rds, t);
      Served(c, qs, rds, t, id);
      k := EveryDeliveryEnds(c, qs, rds, t + 1, id);
    }
  }

  /** Being served uses up one attempt, or ends the delivery. */
  lemma Served(c: Config, qs: nat -> Queue, rds: nat -> Round, t: nat, id: Id)
    requires EndlessRun(c, qs, rds) && PendingAt(qs, t, id) && id in rds(t).batch && RowsOk(c, qs(t).rows)
    ensures id in qs(t + 1).rows && qs(t + 1).rows[id].attempt == qs(t).rows[id].attempt + 1
    ensures qs(t).rows[id].attempt <= |c.schedule|
  {
    assert RoundOk(c, qs(t), rds(t)) && AllSaved(rds(t)) && qs(t + 1) == NextQueue(c, qs(t), rds(t));
    assert RowOk(c, qs(t).rows[id]);
    ServedOnce(c, qs(t), rds(t), id);
  }

  lemma ServedOnce(c: Config, q: Queue, rd: Round, id: Id)
    requires RoundOk(c, q, rd) && AllSaved(rd) && id in q.rows && id in rd.batch
    ensures var rows' := NextQueue(c, q, rd).rows; id in rows' && rows'[id].attempt == q.rows[id].attempt + 1
  {
    var i :| 0 <= i < |rd.batch| && rd.batch[i] == id;
    AfterBatchRow(c, Seen(q, rd), rd.batch, rd.answers, id);
  }
}
