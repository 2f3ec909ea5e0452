/** Which attempts can still be settled, exactly, and the runs that do it. */
module RelaySettle {
  import opened Common
  import opened RelayState
  import opened RelaySteps
  import opened RelayInv
  import opened RelayTheorems
  import opened RelayProgress
  import opened RelayAbandon
  import opened RelayCall
  import opened RelayWatch
  import opened RelayWall
  import opened RelayBatch

  /** Some run goes from `s` to `s'`. */
  ghost predicate Leads(s: State, s': State) {
    exists steps :: IsRun(s, steps) && After(s, steps) == s'
  }

  lemma LeadsNowhere(s: State)
    ensures Leads(s, s)
  {
    assert IsRun(s, []) && After(s, []) == s;
  }

  /** A run goes on with one more step. */
  lemma LeadsOn(s: State, s': State, e: Step)
    requires Leads(s, s') && Reachable(s') && Enabled(s', e)
    ensures Leads(s, Apply(s', e)) && Reachable(Apply(s', e))
  {
    var steps :| IsRun(s, steps) && After(s, steps) == s';
    RunAppend(s, steps, e);
    ReachableStep(s', e);
  }

  /** An attempt that waits for its receipt. */
  ghost predicate IsPending(s: State, x: AttId) {
    x in s.sh.attempts && IsOpen(s.sh.attempts[x]) && IsAccepted(s.sh, s.sh.attempts[x].hash)
  }

  // ---- Settling one attempt of the batch

  /** Only attempt `y` differs, and it is settled. */
  ghost predicate SettledOnly(s: State, s': State, y: AttId) {
    && y in s.sh.attempts && y in s'.sh.attempts
    && s'.sh.attempts == s.sh.attempts[y := s'.sh.attempts[y]]
    && IsSettled(s'.sh.attempts[y]) && SameIdentity(s'.sh.attempts[y], s.sh.attempts[y])
    && s'.sh.accepted == s.sh.accepted && s'.threads == s.threads && s'.batchSize == s.batchSize
  }

  /** Nothing but the watcher's place, receipts and lost notifications differ. */
  ghost predicate SameRows(s: State, s': State) {
    && s'.sh.attempts == s.sh.attempts && s'.sh.accepted == s.sh.accepted
    && s'.threads == s.threads && s'.batchSize == s.batchSize
  }

  lemma SettleRead(s0: State, s: State, y: AttId) returns (s': State)
    requires Leads(s0, s) && Reachable(s) && s.watcher.WSettle? && s.watcher.att == y
    ensures Leads(s0, s') && Reachable(s') && SettledOnly(s, s', y)
  {
    InvReachable(s);
    assert AttemptOk(s.sh, y);
    LeadsOn(s0, s, Watching(ASettle(Ok)));
    s' := Apply(s, Watching(ASettle(Ok)));
    assert s' == DoSettle(s, Ok);
  }

  /** The watcher skips the attempts before `y`, reads the receipt of `y` and writes it. */
  lemma {:induction false} SettleInBatch(s0: State, s: State, y: AttId) returns (s': State)
    requires Leads(s0, s) && Reachable(s) && s.watcher.WBatch? && y in s.watcher.todo
    requires IsPending(s, y) && s.sh.attempts[y].hash in s.sh.receipts
    ensures Leads(s0, s') && Reachable(s') && SettledOnly(s, s', y)
    decreases |s.watcher.todo|
  {
    TodoIsKnown(s);
    var todo := s.watcher.todo;
    var e := Watching(AReadReceipt(todo[0] == y));
    LeadsOn(s0, s, e);
    var s1 := Apply(s, e);
    assert s1 == DoReadReceipt(s, todo[0] == y);
    assert todo == [todo[0]] + todo[1..];
    if todo[0] == y {
      s' := SettleRead(s0, s1, y);
    } else {
      s' := SettleInBatch(s0, s1, y);
    }
  }

  lemma TodoIsKnown(s: State)
    requires Reachable(s) && s.watcher.WBatch?
    ensures forall y :: y in s.watcher.todo ==> y in s.sh.attempts
  {
    InvReachable(s);
  }

  lemma MineIt(s0: State, s: State, y: AttId) returns (s': State)
    requires Leads(s0, s) && Reachable(s) && IsPending(s, y)
    ensures Leads(s0, s') && Reachable(s') && SameRows(s, s') && s'.watcher == s.watcher
    ensures s.sh.attempts[y].hash in s'.sh.receipts
  {
    s' := s;
    var tx := s.sh.attempts[y].hash;
    if tx !in s.sh.receipts {
      var e := Mine(tx, Receipt(true, 0, 0, None));
      LeadsOn(s0, s, e);
      s' := Apply(s, e);
    }
  }

  /** Whatever the watcher is doing, an error takes it to the rest of its batch. */
  lemma DropItem(s0: State, s: State) returns (s': State)
    requires Leads(s0, s) && Reachable(s) && !s.watcher.WIdle?
    ensures Leads(s0, s') && Reachable(s') && SameRows(s, s') && s'.sh.receipts == s.sh.receipts
    ensures s'.watcher == WBatch(s.watcher.todo)
  {
    InvReachable(s);
    s' := s;
    if !s.watcher.WBatch? {
      var e;
      match s.watcher {
        case WSettle(x, rc, todo) =>
          assert AttemptOk(s.sh, x);
          e := Watching(ASettle(Fail));
        case WSnapshot(r, todo) =>
          var latest := Latest(s.sh, r);
          e := Watching(AWatcherSnapshot(latest, false));
        case WEnqueue(r, p, todo) => e := Watching(AWatcherEnqueue(Fail));
      }
      LeadsOn(s0, s, e);
      s' := Apply(s, e);
    }
  }

  lemma Latest(sh: Shared, r: ReqId) returns (latest: Option<AttId>)
    requires UniqueRows(sh)
    ensures IsLatestAttempt(sh, r, latest)
  {
    latest := None;
    if y :| y in sh.attempts && sh.attempts[y].req == r {
      latest := Some(y);
    }
  }

  /** Any pending attempt of the current batch can be settled. */
  lemma SettlePicked(s0: State, s: State, y: AttId) returns (s': State)
    requires Leads(s0, s) && Reachable(s) && y in Todo(s.watcher) && IsPending(s, y)
    ensures Leads(s0, s') && Reachable(s') && SettledOnly(s, s', y)
  {
    var s1 := MineIt(s0, s, y);
    if s1.watcher.WSettle? && s1.watcher.att == y {
      s' := SettleRead(s0, s1, y);
    } else {
      var s2 := DropItem(s0, s1);
      s' := SettleInBatch(s0, s2, y);
    }
  }

  // ---- Calls that can still broadcast or give up do so

  predicate HasWork(pc: Pc) {
    pc.Send? || pc.MarkFailed? || (pc.Rewind? && pc.failed.Some?)
  }

  ghost function Workers(s: State): set<Tid> {
    set t | t in s.threads && HasWork(s.threads[t].pc)
  }

  ghost function Rewinders(s: State): set<Tid> {
    set t | t in s.threads && s.threads[t].pc.Rewind? && s.threads[t].pc.failed.Some?
  }

  /** The step that brings the call `t` closer to having broadcast its attempt or given it up. */
  function WorkStep(pc: Pc, t: Tid): Step {
    if pc.Send? then Sending(t, ASend(true))
    else if pc.Rewind? then Sending(t, ARewind)
    else Sending(t, AMarkFailed(Ok))
  }

  lemma CanWork(s: State, t: Tid)
    requires Reachable(s) && t in s.threads && HasWork(s.threads[t].pc)
    ensures Enabled(s, WorkStep(s.threads[t].pc, t))
  {
    var pc := s.threads[t].pc;
    if pc.Rewind? {
      HolderKnowsNonce(s, t);
    } else if pc.MarkFailed? {
      RowToFail(s, t);
    }
  }

  /** Attempt `x` still waits, at the same place, behind a wall that has not grown. */
  ghost predicate StillPending(s: State, s': State, x: AttId) {
    && IsPending(s, x) && IsPending(s', x) && s'.sh.attempts[x].at == s.sh.attempts[x].at
    && s'.batchSize == s.batchSize && Wall(s', x) <= Wall(s, x)
  }

  lemma WorkKeepsWall(s: State, t: Tid, y: AttId)
    requires Reachable(s) && t in s.threads && HasWork(s.threads[t].pc) && Enabled(s, WorkStep(s.threads[t].pc, t))
    requires IsDoomed(Apply(s, WorkStep(s.threads[t].pc, t)), y)
    ensures IsDoomed(s, y)
  {
    var pc := s.threads[t].pc;
    var e := WorkStep(pc, t);
    var s' := Apply(s, e);
    InvReachable(s);
    AcceptedStep(s, e);
    if y !in s.sh.attempts {
      NewAttempt(s, e, y);
    }
    AttemptMoves(s, e, y);
    if HasHope(s, y) {
      var u :| u in s.threads && WorksOn(s.threads[u].pc, y);
      WorkDone(s, t, u, y);
    }
  }

  /** After the work an attempt is accepted or failed, or has hope yet. */
  lemma WorkDone(s: State, t: Tid, u: Tid, y: AttId)
    requires Reachable(s) && t in s.threads && HasWork(s.threads[t].pc) && Enabled(s, WorkStep(s.threads[t].pc, t))
    requires u in s.threads && WorksOn(s.threads[u].pc, y)
    ensures !IsDoomed(Apply(s, WorkStep(s.threads[t].pc, t)), y)
  {
    InvReachable(s);
    assert RowThread(s.sh, s.threads[u]);
    var s' := Apply(s, WorkStep(s.threads[t].pc, t));
    if u == t && s.threads[t].pc.Send? {
      var tx := s.threads[t].pc.tx;
      assert s'.sh.accepted[tx.signer] == AcceptedBy(s.sh, tx.signer) + [tx];
      assert IsAccepted(s'.sh, tx);
    } else if u != t || !s.threads[t].pc.MarkFailed? {
      assert u in s'.threads && WorksOn(s'.threads[u].pc, y);
    }
  }

  /** One such step: `x` waits on, and there is less work left. */
  lemma WorkOnce(s0: State, s: State, t: Tid, x: AttId) returns (s': State)
    requires Leads(s0, s) && Reachable(s) && t in s.threads && HasWork(s.threads[t].pc) && IsPending(s, x)
    ensures Leads(s0, s') && Reachable(s') && StillPending(s, s', x) && s'.watcher == s.watcher
    ensures |Workers(s')| + |Rewinders(s')| < |Workers(s)| + |Rewinders(s)|
  {
    CanWork(s, t);
    var e := WorkStep(s.threads[t].pc, t);
    LeadsOn(s0, s, e);
    s' := Apply(s, e);
    OtherSending(s, t, e.send);
    WorkKeepsPending(s, e, x);
    forall y | y in Wall(s', x) ensures y in Wall(s, x) {
      WorkKeepsWall(s, t, y);
      AttemptMoves(s, e, y);
    }
    LessWork(s, t);
  }

  lemma WorkKeepsPending(s: State, e: Step, x: AttId)
    requires Reachable(s) && Enabled(s, e) && e.Sending? && IsPending(s, x)
    ensures var s' := Apply(s, e);
            IsPending(s', x) && s'.sh.attempts[x].at == s.sh.attempts[x].at && s'.batchSize == s.batchSize
  {
    InvReachable(s);
    AttemptMoves(s, e, x);
    MoveCauses(s, e, x);
    AcceptedStep(s, e);
    BatchSizeStays(s, e);
  }

  lemma LessWork(s: State, t: Tid)
    requires t in s.threads && HasWork(s.threads[t].pc) && Enabled(s, WorkStep(s.threads[t].pc, t))
    ensures var s' := Apply(s, WorkStep(s.threads[t].pc, t));
            |Workers(s')| + |Rewinders(s')| < |Workers(s)| + |Rewinders(s)|
  {
    var pc := s.threads[t].pc;
    var s' := Apply(s, WorkStep(pc, t));
    if pc.Rewind? {
      assert s' == DoRewind(s, t) && Workers(s') == Workers(s) && Rewinders(s') == Rewinders(s) - {t};
    } else {
      assert s' == if pc.Send? then DoSend(s, t, true) else DoMarkFailed(s, t, Ok);
      assert Workers(s') == Workers(s) - {t} && Rewinders(s') == Rewinders(s);
    }
  }

  lemma {:induction false} WorkItOff(s0: State, s: State, x: AttId) returns (s': State)
    requires Leads(s0, s) && Reachable(s) && IsPending(s, x)
    ensures Leads(s0, s') && Reachable(s') && StillPending(s, s', x) && Workers(s') == {}
    decreases |Workers(s)| + |Rewinders(s)|
  {
    s' := s;
    if Workers(s) != {} {
      var t :| t in Workers(s);
      var s1 := WorkOnce(s0, s, t, x);
      s' := WorkItOff(s0, s1, x);
    }
  }

  // ---- Clearing the way

  /** A fresh process, nothing picked, and fewer doomed attempts before `x` than a batch holds. */
  ghost predicate IsCalm(s: State, x: AttId) {
    Reachable(s) && s.threads == map[] && s.watcher == WIdle && IsPending(s, x) && |Wall(s, x)| < s.batchSize
  }

  /** After a crash nobody works and the watcher is idle; without work at the time nothing new is doomed. */
  lemma CalmDown(s0: State, s: State, x: AttId) returns (s': State)
    requires Leads(s0, s) && Reachable(s) && IsPending(s, x) && Workers(s) == {} && |Wall(s, x)| < s.batchSize
    ensures Leads(s0, s') && IsCalm(s', x) && s'.sh.attempts == s.sh.attempts && s'.sh.accepted == s.sh.accepted
  {
    LeadsOn(s0, s, Crash);
    s' := Apply(s, Crash);
    forall y | y in Wall(s', x) ensures y in Wall(s, x) {
      assert IsAccepted(s'.sh, s.sh.attempts[y].hash) == IsAccepted(s.sh, s.sh.attempts[y].hash);
      assert forall t :: t in s.threads ==> t !in Workers(s);
    }
    SubsetSize(Wall(s', x), Wall(s, x));
  }

  /** Older attempts that can still be settled. */
  ghost function PendingBefore(s: State, x: AttId): set<AttId>
    requires x in s.sh.attempts
  {
    set y | y in s.sh.attempts && IsPending(s, y) && s.sh.attempts[y].at < s.sh.attempts[x].at
  }

  lemma PickBatch(s0: State, s: State, x: AttId) returns (s': State, y: AttId)
    requires Leads(s0, s) && IsCalm(s, x)
    ensures Leads(s0, s') && Reachable(s') && SameRows(s, s') && y in Todo(s'.watcher)
    ensures y == x || y in PendingBefore(s, x)
  {
    var attempts, ids := s.sh.attempts, OpenIds(s.sh.attempts);
    var todo := FindBatch(attempts, ids, s.batchSize, x);
    OldestIsBatch(attempts, s.batchSize, todo);
    var e := Watching(ASelect(todo));
    LeadsOn(s0, s, e);
    s' := Apply(s, e);
    if x in todo {
      y := x;
    } else {
      y := PendingInBatch(s, x, todo);
    }
  }

  /** A batch of older attempts is longer than the wall, so one of them is not part of it. */
  lemma PendingInBatch(s: State, x: AttId, todo: seq<AttId>) returns (y: AttId)
    requires IsCalm(s, x) && IsOldest(s.sh.attempts, OpenIds(s.sh.attempts), s.batchSize, todo) && x !in todo
    requires |OlderIn(s.sh.attempts, OpenIds(s.sh.attempts), x)| >= s.batchSize
    ensures y in todo && y in PendingBefore(s, x)
  {
    var older := OlderIn(s.sh.attempts, OpenIds(s.sh.attempts), x);
    BatchIsOlder(s.sh.attempts, OpenIds(s.sh.attempts), s.batchSize, x, todo);
    DistinctSize(todo);
    if Elements(todo) <= Wall(s, x) {
      SubsetSize(Elements(todo), Wall(s, x));
    }
    y :| y in todo && y !in Wall(s, x);
    assert y in Elements(todo);
  }

  /** Settling one older attempt leaves the wall as it is and one attempt less before `x`. */
  lemma OneLessBefore(s: State, s': State, x: AttId, y: AttId)
    requires s.threads == map[] && IsPending(s, x) && y in PendingBefore(s, x) && SettledOnly(s, s', y)
    ensures IsPending(s', x) && Workers(s') == {}
    ensures Wall(s', x) <= Wall(s, x) && PendingBefore(s', x) <= PendingBefore(s, x) - {y}
  {
    forall z | z in s'.sh.attempts && z != y
      ensures s'.sh.attempts[z] == s.sh.attempts[z]
      ensures IsAccepted(s'.sh, s'.sh.attempts[z].hash) == IsAccepted(s.sh, s.sh.attempts[z].hash)
    {
    }
  }

  /** From a calm state `x` is settled by settling the older pending attempts first. */
  lemma {:induction false} SettleInTurn(s0: State, s: State, x: AttId) returns (s': State)
    requires Leads(s0, s) && IsCalm(s, x)
    ensures Leads(s0, s') && x in s'.sh.attempts && IsSettled(s'.sh.attempts[x])
    decreases |PendingBefore(s, x)|
  {
    var s1, y := PickBatch(s0, s, x);
    SamePending(s, s1, y);
    var s2 := SettlePicked(s0, s1, y);
    if y == x {
      s' := s2;
    } else {
      OneLessBefore(s, s2, x, y);
      SubsetSize(Wall(s2, x), Wall(s, x));
      SubsetSize(PendingBefore(s2, x), PendingBefore(s, x) - {y});
      var s3 := CalmDown(s0, s2, x);
      SamePendingBefore(s2, s3, x);
      s' := SettleInTurn(s0, s3, x);
    }
  }

  lemma SamePending(s: State, s': State, y: AttId)
    requires SameRows(s, s') && IsPending(s, y)
    ensures IsPending(s', y)
  {
  }

  lemma SamePendingBefore(s: State, s': State, x: AttId)
    requires s'.sh.attempts == s.sh.attempts && s'.sh.accepted == s.sh.accepted && x in s.sh.attempts
    ensures PendingBefore(s', x) == PendingBefore(s, x)
  {
    forall y | y in s.sh.attempts ensures IsPending(s', y) == IsPending(s, y) {
      assert IsAccepted(s'.sh, s.sh.attempts[y].hash) == IsAccepted(s.sh, s.sh.attempts[y].hash);
    }
  }

  // ---- The exact condition

  /** Some run settles `x`. */
  ghost predicate CanBeSettled(s: State, x: AttId) {
    exists s' :: Leads(s, s') && x in s'.sh.attempts && IsSettled(s'.sh.attempts[x])
  }

  /** An accepted attempt can still be settled if and only if it is in the watcher's batch or fewer doomed
      attempts are older than it than a batch holds. */
  lemma SettledIff(s: State, x: AttId)
    requires Reachable(s) && IsPending(s, x)
    ensures CanBeSettled(s, x) <==> x in Todo(s.watcher) || |Wall(s, x)| < s.batchSize
  {
    if x in Todo(s.watcher) || |Wall(s, x)| < s.batchSize {
      var s' := SettleSomehow(s, x);
    } else if CanBeSettled(s, x) {
      var s' :| Leads(s, s') && x in s'.sh.attempts && IsSettled(s'.sh.attempts[x]);
      var steps :| IsRun(s, steps) && After(s, steps) == s';
      NeverExamined(s, steps, x);
    }
  }

  lemma SettleSomehow(s: State, x: AttId) returns (s': State)
    requires Reachable(s) && IsPending(s, x)
    requires x in Todo(s.watcher) || |Wall(s, x)| < s.batchSize
    ensures Leads(s, s') && x in s'.sh.attempts && IsSettled(s'.sh.attempts[x])
  {
    LeadsNowhere(s);
    if x in Todo(s.watcher) {
      s' := SettlePicked(s, s, x);
    } else {
      var s1 := WorkItOff(s, s, x);
      SubsetSize(Wall(s1, x), Wall(s, x));
      var s2 := CalmDown(s, s1, x);
      s' := SettleInTurn(s, s2, x);
    }
  }
}
