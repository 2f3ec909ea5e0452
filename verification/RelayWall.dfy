/** Attempts that stay open for ever, and what they do to the watcher. */
module RelayWall {
  import opened Common
  import opened RelayState
  import opened RelaySteps
  import opened RelayInv
  import RelayRowProof
  import RelayNonceProof
  import opened RelayTheorems
  import opened RelayAbandon
  import opened RelayCall
  import opened RelayWatch

  // ---- Attempts that never close

  /** The call can still broadcast attempt `y` or mark it failed. */
  predicate WorksOn(pc: Pc, y: AttId) {
    (pc.Send? && pc.att == y) || pc == Rewind(Some(y)) || pc == MarkFailed(y)
  }

  ghost predicate HasHope(s: State, y: AttId) {
    exists t :: t in s.threads && WorksOn(s.threads[t].pc, y)
  }

  /** Open, not accepted, and no call left to change that: the call has crashed, or its writes failed. */
  ghost predicate IsDoomed(s: State, y: AttId) {
    y in s.sh.attempts && IsOpen(s.sh.attempts[y]) && !IsAccepted(s.sh, s.sh.attempts[y].hash) && !HasHope(s, y)
  }

  /** A call works on a recorded attempt only if it did before. */
  lemma HopeComesFrom(s: State, e: Step, y: AttId, t: Tid)
    requires Enabled(s, e) && y in s.sh.attempts
    requires t in Apply(s, e).threads && WorksOn(Apply(s, e).threads[t].pc, y)
    ensures t in s.threads && WorksOn(s.threads[t].pc, y)
  {
    match e
    case Begin(u, r, app, call, notify, o) =>
    case Setup(u, a) =>
      if !a.AInstall? && !a.AReceive? {
        SetupFrame(s, u, a);
      }
    case Sending(u, a) => HopeInSending(s, u, a, y, t);
    case Closing(u, a) =>
      if !a.AFinish? {
        CloseFrame(s, u, a);
      }
    case Watching(a) => WatchFrame(s, a);
    case Mine(tx, rc) =>
    case CreateApp(app, addrs) =>
    case Crash =>
  }

  lemma HopeInSending(s: State, u: Tid, a: SendAct, y: AttId, t: Tid)
    requires CanSending(s, u, a) && y in s.sh.attempts
    requires t in DoSending(s, u, a).threads && WorksOn(DoSending(s, u, a).threads[t].pc, y)
    ensures t in s.threads && WorksOn(s.threads[t].pc, y)
  {
    match a
    case ATakeNonce =>
    case ASign(ok) =>
    case AInsertAttempt(x, at, o) =>
    case ASend(ok) =>
    case ARewind =>
    case AMarkFailed(o) =>
  }

  /** An attempt is accepted only by its own call's broadcast. */
  lemma AcceptedByOwnSend(s: State, e: Step, y: AttId)
    requires RowsOk(s) && Enabled(s, e) && y in s.sh.attempts && !HasHope(s, y)
    requires !IsAccepted(s.sh, s.sh.attempts[y].hash)
    ensures !IsAccepted(Apply(s, e).sh, s.sh.attempts[y].hash)
  {
    if e.Sending? && e.send.ASend? && e.send.ok {
      assert RowThread(s.sh, s.threads[e.t]);
      assert !WorksOn(s.threads[e.t].pc, y);
      RelayRowProof.AcceptedGrows(s.sh, DoSend(s, e.t, true).sh, s.threads[e.t].pc.tx);
    } else {
      RelayNonceProof.ChainFrame(s, e);
    }
  }

  lemma DoomedStays(s: State, e: Step, y: AttId)
    requires RowsOk(s) && Enabled(s, e) && IsDoomed(s, y)
    ensures IsDoomed(Apply(s, e), y)
  {
    AttemptMoves(s, e, y);
    MoveCauses(s, e, y);
    assert GivesUp(s, e, y) ==> WorksOn(s.threads[e.t].pc, y);
    AcceptedByOwnSend(s, e, y);
    if HasHope(Apply(s, e), y) {
      var t :| t in Apply(s, e).threads && WorksOn(Apply(s, e).threads[t].pc, y);
      HopeComesFrom(s, e, y, t);
    }
  }

  /** A doomed attempt is open for ever and never gets a receipt. */
  lemma {:induction false} DoomedForever(s: State, steps: seq<Step>, y: AttId)
    requires Reachable(s) && IsRun(s, steps) && IsDoomed(s, y)
    ensures IsDoomed(After(s, steps), y) && After(s, steps).sh.attempts[y].hash !in After(s, steps).sh.receipts
    decreases |steps|
  {
    InvReachable(s);
    if steps != [] {
      DoomedStays(s, steps[0], y);
      ReachableStep(s, steps[0]);
      DoomedForever(Apply(s, steps[0]), steps[1..], y);
    }
  }

  /** A crash dooms every attempt on record that is not yet broadcast. */
  lemma CrashDooms(s: State, y: AttId)
    requires y in s.sh.attempts && IsOpen(s.sh.attempts[y])
    ensures IsDoomed(Apply(s, Crash), y) <==> !IsAccepted(s.sh, s.sh.attempts[y].hash)
  {
    assert IsAccepted(Apply(s, Crash).sh, s.sh.attempts[y].hash) == IsAccepted(s.sh, s.sh.attempts[y].hash);
  }

  // ---- Head-of-line blocking

  /** The doomed attempts older than `x`. */
  ghost function Wall(s: State, x: AttId): set<AttId>
    requires x in s.sh.attempts
  {
    set y | y in s.sh.attempts && IsDoomed(s, y) && s.sh.attempts[y].at < s.sh.attempts[x].at
  }

  /** A batch with an attempt younger than `limit` open ones would have to hold those, too. */
  lemma BehindTheWall(attempts: map<AttId, Attempt>, limit: nat, todo: seq<AttId>, x: AttId, wall: set<AttId>)
    requires IsOpenBatch(attempts, limit, todo) && x in attempts && |wall| >= limit
    requires forall y :: y in wall ==> y in attempts && IsOpen(attempts[y]) && attempts[y].at < attempts[x].at
    ensures x !in todo
  {
    if x in todo {
      var i :| 0 <= i < |todo| && todo[i] == x;
      assert wall <= Elements(todo) - {x};
      DistinctSize(todo);
      SubsetSize(wall, Elements(todo) - {x});
    }
  }

  /** `x` is not settled, not in the batch, and behind a wall. */
  ghost predicate IsBlocked(s: State, x: AttId) {
    && x in s.sh.attempts && !IsSettled(s.sh.attempts[x]) && x !in Todo(s.watcher)
    && |Wall(s, x)| >= s.batchSize
  }

  lemma WallStands(s: State, e: Step, x: AttId)
    requires RowsOk(s) && Enabled(s, e) && x in s.sh.attempts
    ensures x in Apply(s, e).sh.attempts && Wall(s, x) <= Wall(Apply(s, e), x)
  {
    AttemptMoves(s, e, x);
    forall y | y in Wall(s, x) ensures y in Wall(Apply(s, e), x) {
      AttemptMoves(s, e, y);
      DoomedStays(s, e, y);
    }
  }

  lemma BlockedStays(s: State, e: Step, x: AttId)
    requires Reachable(s) && Enabled(s, e) && IsBlocked(s, x)
    ensures IsBlocked(Apply(s, e), x) && !IsPick(e, x)
  {
    InvReachable(s);
    AttemptMoves(s, e, x);
    MoveCauses(s, e, x);
    BatchSizeStays(s, e);
    WallStands(s, e, x);
    SubsetSize(Wall(s, x), Wall(Apply(s, e), x));
    if IsTick(e) {
      BehindTheWall(s.sh.attempts, s.batchSize, e.watch.todo, x, Wall(s, x));
    }
    TodoShrinks(s, e);
  }

  /** With `batchSize` or more doomed attempts before it, an attempt is never examined and never settled. */
  lemma {:induction false} NeverExamined(s: State, steps: seq<Step>, x: AttId)
    requires Reachable(s) && IsRun(s, steps) && IsBlocked(s, x)
    ensures IsBlocked(After(s, steps), x) && !IsPicked(steps, x)
    decreases |steps|
  {
    if steps != [] {
      BlockedStays(s, steps[0], x);
      ReachableStep(s, steps[0]);
      NeverExamined(Apply(s, steps[0]), steps[1..], x);
      assert forall i :: 0 < i < |steps| ==> steps[i] == steps[1..][i - 1];
    }
  }

  /** `batchSize` doomed attempts stop the watcher for everything younger, whenever it is recorded. */
  lemma DoomedStopTheWatcher(s: State, steps: seq<Step>, wall: set<AttId>, todo: seq<AttId>)
    requires Reachable(s) && IsRun(s, steps) && |wall| >= s.batchSize
    requires forall y :: y in wall ==> IsDoomed(s, y)
    requires CanSelect(After(s, steps), todo)
    ensures forall x :: x in todo ==>
              && x in After(s, steps).sh.attempts
              && exists y :: y in wall && y in s.sh.attempts
                             && After(s, steps).sh.attempts[x].at <= s.sh.attempts[y].at
  {
    var s' := After(s, steps);
    SameBatchSize(s, steps);
    forall y | y in wall ensures IsDoomed(s', y) && s'.sh.attempts[y].at == s.sh.attempts[y].at {
      DoomedForever(s, steps, y);
      KeepsRow(s, steps, y);
    }
    forall x | x in todo
      ensures exists y :: y in wall && y in s.sh.attempts && s'.sh.attempts[x].at <= s.sh.attempts[y].at
    {
      if forall y :: y in wall ==> s.sh.attempts[y].at < s'.sh.attempts[x].at {
        BehindTheWall(s'.sh.attempts, s'.batchSize, todo, x, wall);
      }
    }
  }

  lemma {:induction false} SameBatchSize(s: State, steps: seq<Step>)
    requires IsRun(s, steps)
    ensures After(s, steps).batchSize == s.batchSize
    decreases |steps|
  {
    if steps != [] {
      BatchSizeStays(s, steps[0]);
      SameBatchSize(Apply(s, steps[0]), steps[1..]);
    }
  }
}
