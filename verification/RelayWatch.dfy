/** How long an attempt waits for the watcher, in any run of the relayer: calls, watcher and chain interleaved. */
module RelayWatch {
  import opened Common
  import opened RelayState
  import opened RelaySteps
  import opened RelayInv
  import opened RelayTheorems
  import opened RelayProgress
  import opened RelayAbandon
  import opened RelayCall
  import opened RelayNotify

  // ---- What a step does to one attempt

  /** The call of attempt `y` is about to mark it failed, or submitted. */
  ghost predicate GivesUp(s: State, e: Step, y: AttId) {
    e.Sending? && e.send.AMarkFailed? && e.t in s.threads && s.threads[e.t].pc == MarkFailed(y)
  }

  ghost predicate Marks(s: State, e: Step, y: AttId) {
    e.Closing? && e.close.AMarkSubmitted? && e.t in s.threads && s.threads[e.t].pc == MarkSubmitted(y)
  }

  ghost predicate Settles(s: State, e: Step, y: AttId) {
    e.Watching? && e.watch.ASettle? && s.watcher.WSettle? && s.watcher.att == y
  }

  ghost predicate SameIdentity(a: Attempt, b: Attempt) {
    a.req == b.req && a.hash == b.hash && a.at == b.at
  }

  /** An attempt changes its status in three ways only, and never its identity. */
  ghost predicate MovesRow(s: State, s': State, e: Step, y: AttId) {
    && y in s.sh.attempts && y in s'.sh.attempts && SameIdentity(s.sh.attempts[y], s'.sh.attempts[y])
    && var from, to := s.sh.attempts[y].status, s'.sh.attempts[y].status;
       || from == to
       || (GivesUp(s, e, y) && to == AFailed)
       || (Marks(s, e, y) && to == ASubmitted)
       || (Settles(s, e, y) && IsSettled(s'.sh.attempts[y]))
  }

  lemma AttemptMoves(s: State, e: Step, y: AttId)
    requires Enabled(s, e) && y in s.sh.attempts
    ensures MovesRow(s, Apply(s, e), e, y)
  {
    match e
    case Begin(t, r, app, call, notify, o) =>
    case Setup(t, a) => SetupKeepsRows(s, t, a);
    case Sending(t, a) => SendingMoves(s, t, a, y);
    case Closing(t, a) => ClosingMoves(s, t, a, y);
    case Watching(a) =>
      if a.ASettle? {
        SettleMoves(s, a.o, y);
      } else {
        WatchFrame(s, a);
      }
    case Mine(tx, rc) =>
    case CreateApp(app, addrs) =>
    case Crash =>
  }

  lemma SendingMoves(s: State, t: Tid, a: SendAct, y: AttId)
    requires CanSending(s, t, a) && y in s.sh.attempts
    ensures MovesRow(s, DoSending(s, t, a), Sending(t, a), y)
  {
    if a.AInsertAttempt? {
      InsertMoves(s, t, a, y);
    } else if a.AMarkFailed? {
      MarkFailedMoves(s, t, a, y);
    } else {
      SendingKeepsAttempts(s, t, a);
    }
  }

  lemma InsertMoves(s: State, t: Tid, a: SendAct, y: AttId)
    requires CanSending(s, t, a) && a.AInsertAttempt? && y in s.sh.attempts
    ensures MovesRow(s, DoInsertAttempt(s, t, a.x, a.at, a.o), Sending(t, a), y)
  {
  }

  lemma MarkFailedMoves(s: State, t: Tid, a: SendAct, y: AttId)
    requires CanSending(s, t, a) && a.AMarkFailed? && y in s.sh.attempts
    ensures MovesRow(s, DoMarkFailed(s, t, a.o), Sending(t, a), y)
  {
    var s', x := DoMarkFailed(s, t, a.o), s.threads[t].pc.att;
    assert s.threads[t].pc == MarkFailed(x);
    if a.o.Fail? || y != x {
      assert y in s'.sh.attempts && s'.sh.attempts[y] == s.sh.attempts[y];
    } else {
      assert s'.sh.attempts[y] == s.sh.attempts[y].(status := AFailed);
    }
  }

  lemma SendingKeepsAttempts(s: State, t: Tid, a: SendAct)
    requires CanSending(s, t, a) && !a.AInsertAttempt? && !a.AMarkFailed?
    ensures DoSending(s, t, a).sh.attempts == s.sh.attempts
  {
    match a
    case ATakeNonce =>
    case ASign(ok) =>
    case ASend(ok) =>
    case ARewind =>
  }

  lemma ClosingMoves(s: State, t: Tid, a: CloseAct, y: AttId)
    requires CanClosing(s, t, a) && y in s.sh.attempts
    ensures MovesRow(s, DoClosing(s, t, a), Closing(t, a), y)
  {
    if !a.AFinish? && !a.AMarkSubmitted? {
      CloseFrame(s, t, a);
    }
  }

  lemma SettleMoves(s: State, o: Write, y: AttId)
    requires CanSettle(s) && y in s.sh.attempts
    ensures MovesRow(s, DoSettle(s, o), Watching(ASettle(o)), y)
  {
  }

  /** New rows come from `insertAttempt` only. */
  lemma NewAttempt(s: State, e: Step, y: AttId)
    requires Enabled(s, e) && y in Apply(s, e).sh.attempts && y !in s.sh.attempts
    ensures e.Sending? && e.send.AInsertAttempt? && e.send.x == y && Apply(s, e).sh.attempts[y].at == e.send.at
  {
    if e.Sending? {
      NewBySending(s, e.t, e.send, y);
    } else if e.Closing? {
      ClosingKeepsIds(s, e.t, e.close);
    } else if e.Watching? {
      WatchKeepsIds(s, e.watch);
    } else {
      QuietForAttempts(s, e);
    }
  }

  lemma ClosingKeepsIds(s: State, t: Tid, a: CloseAct)
    requires CanClosing(s, t, a)
    ensures DoClosing(s, t, a).sh.attempts.Keys == s.sh.attempts.Keys
  {
    if !a.AFinish? && !a.AMarkSubmitted? {
      CloseFrame(s, t, a);
    }
  }

  lemma WatchKeepsIds(s: State, a: WatchAct)
    requires CanWatch(s, a)
    ensures DoWatch(s, a).sh.attempts.Keys == s.sh.attempts.Keys
  {
    WatchFrame(s, a);
  }

  lemma NewBySending(s: State, t: Tid, a: SendAct, y: AttId)
    requires CanSending(s, t, a) && y in DoSending(s, t, a).sh.attempts && y !in s.sh.attempts
    ensures a.AInsertAttempt? && a.x == y && DoSending(s, t, a).sh.attempts[y].at == a.at
  {
    match a
    case ATakeNonce =>
    case ASign(ok) =>
    case AInsertAttempt(x, at, o) =>
    case ASend(ok) =>
    case ARewind =>
    case AMarkFailed(o) =>
  }

  /** A failed attempt stays failed. */
  lemma FailedStays(s: State, e: Step, y: AttId)
    requires RowsOk(s) && Enabled(s, e) && y in s.sh.attempts && s.sh.attempts[y].status == AFailed
    ensures y in Apply(s, e).sh.attempts && Apply(s, e).sh.attempts[y].status == AFailed
  {
    AttemptMoves(s, e, y);
    MoveCauses(s, e, y);
  }

  /** Who changes an attempt knows whether the chain accepted it. */
  lemma MoveCauses(s: State, e: Step, y: AttId)
    requires RowsOk(s) && Enabled(s, e) && y in s.sh.attempts
    ensures GivesUp(s, e, y) ==> s.sh.attempts[y].status == ASubmitting && !IsAccepted(s.sh, s.sh.attempts[y].hash)
    ensures Marks(s, e, y) ==> s.sh.attempts[y].status != AFailed && IsAccepted(s.sh, s.sh.attempts[y].hash)
    ensures Settles(s, e, y) ==>
              y in Todo(s.watcher) && IsOpen(s.sh.attempts[y]) && s.sh.attempts[y].hash in s.sh.receipts
  {
    if GivesUp(s, e, y) || Marks(s, e, y) {
      assert RowThread(s.sh, s.threads[e.t]);
    }
  }

  // ---- The rest of the watcher's batch

  ghost function Todo(w: Watcher): set<AttId> {
    match w
    case WIdle => {}
    case WBatch(todo) => Elements(todo)
    case WSettle(x, _, todo) => {x} + Elements(todo)
    case WSnapshot(_, todo) => Elements(todo)
    case WEnqueue(_, _, todo) => Elements(todo)
  }

  predicate IsTick(e: Step) {
    e.Watching? && e.watch.ASelect?
  }

  /** A tick whose batch has `x`. */
  predicate IsPick(e: Step, x: AttId) {
    IsTick(e) && x in e.watch.todo
  }

  /** No crash, and no error of the RPC or the database in the watcher. */
  predicate IsClean(e: Step) {
    match e
    case Crash => false
    case Watching(a) => (a.AReadReceipt? ==> a.ok) && (a.ASettle? ==> !a.o.Fail?)
    case _ => true
  }

  lemma HeadOfTodo(todo: seq<AttId>)
    requires todo != []
    ensures Elements(todo) == {todo[0]} + Elements(todo[1..])
  {
    assert todo == [todo[0]] + todo[1..];
  }

  /** Between two ticks the batch shrinks; without errors an attempt with a receipt leaves it settled. */
  lemma TodoShrinks(s: State, e: Step)
    requires Enabled(s, e)
    ensures IsTick(e) ==> Todo(s.watcher) == {} && Todo(Apply(s, e).watcher) == Elements(e.watch.todo)
    ensures !IsTick(e) ==> Todo(Apply(s, e).watcher) <= Todo(s.watcher)
    ensures IsClean(e) ==> forall y :: y in Todo(s.watcher) && y !in Todo(Apply(s, e).watcher) ==>
              || (y in s.sh.attempts && s.sh.attempts[y].hash !in s.sh.receipts)
              || (Settles(s, e, y) && y in Apply(s, e).sh.attempts && IsSettled(Apply(s, e).sh.attempts[y]))
  {
    match e
    case Begin(t, r, app, call, notify, o) =>
    case Setup(t, a) =>
      if !a.AInstall? && !a.AReceive? {
        SetupFrame(s, t, a);
      }
    case Sending(t, a) => OtherSending(s, t, a);
    case Closing(t, a) =>
      if !a.AFinish? {
        CloseFrame(s, t, a);
      }
    case Watching(a) => WatchShrinks(s, a);
    case Mine(tx, rc) =>
    case CreateApp(app, addrs) =>
    case Crash =>
  }

  lemma WatchShrinks(s: State, a: WatchAct)
    requires CanWatch(s, a)
    ensures a.ASelect? ==> Todo(s.watcher) == {} && Todo(DoWatch(s, a).watcher) == Elements(a.todo)
    ensures !a.ASelect? ==> Todo(DoWatch(s, a).watcher) <= Todo(s.watcher)
    ensures (a.AReadReceipt? ==> a.ok) && (a.ASettle? ==> !a.o.Fail?) ==>
              forall y :: y in Todo(s.watcher) && y !in Todo(DoWatch(s, a).watcher) ==>
                || (y in s.sh.attempts && s.sh.attempts[y].hash !in s.sh.receipts)
                || (Settles(s, Watching(a), y) && y in DoWatch(s, a).sh.attempts
                    && IsSettled(DoWatch(s, a).sh.attempts[y]))
  {
    match a
    case ASelect(todo) =>
    case AReadReceipt(ok) => HeadOfTodo(s.watcher.todo);
    case ASettle(o) =>
    case AWatcherSnapshot(x, ok) =>
    case AWatcherEnqueue(o) =>
    case AEndTick =>
  }

  lemma BatchSizeStays(s: State, e: Step)
    requires Enabled(s, e)
    ensures Apply(s, e).batchSize == s.batchSize
  {
    match e
    case Begin(t, r, app, call, notify, o) =>
    case Setup(t, a) =>
      if !a.AInstall? && !a.AReceive? {
        SetupFrame(s, t, a);
      }
    case Sending(t, a) => OtherSending(s, t, a);
    case Closing(t, a) =>
      if !a.AFinish? {
        CloseFrame(s, t, a);
      }
    case Watching(a) => WatchFrame(s, a);
    case Mine(tx, rc) =>
    case CreateApp(app, addrs) =>
    case Crash =>
  }

  // ---- Waiting behind older attempts

  /** Attempts the watcher's query may put before `x`. */
  ghost predicate IsBefore(sh: Shared, x: AttId, y: AttId)
    requires x in sh.attempts
  {
    y in sh.attempts && y != x && sh.attempts[y].at <= sh.attempts[x].at
  }

  /** Open ones among them without a receipt. */
  ghost function UnminedAhead(s: State, x: AttId): set<AttId>
    requires x in s.sh.attempts
  {
    set y | y in s.sh.attempts && IsBefore(s.sh, x, y) && IsOpen(s.sh.attempts[y])
            && s.sh.attempts[y].hash !in s.sh.receipts
  }

  /** Those with one, whatever their status. */
  ghost function MinedBefore(s: State, x: AttId): set<AttId>
    requires x in s.sh.attempts
  {
    set y | y in s.sh.attempts && IsBefore(s.sh, x, y) && s.sh.attempts[y].hash in s.sh.receipts
  }

  ghost predicate IsMarking(s: State, y: AttId) {
    exists t :: t in s.threads && s.threads[t].pc == MarkSubmitted(y)
  }

  /** Attempts of `mined` that the watcher still has to pick up. */
  ghost function Unpicked(s: State, mined: set<AttId>): set<AttId> {
    set y | y in mined && y in s.sh.attempts && IsOpen(s.sh.attempts[y]) && y !in Todo(s.watcher)
  }

  /** Attempts of `mined` whose call will set them back to `submitted`. */
  ghost function Reopening(s: State, mined: set<AttId>): set<AttId> {
    set y | y in mined && IsMarking(s, y)
  }

  /** How often attempts of `mined` can still be picked. */
  ghost function Picks(s: State, mined: set<AttId>): nat {
    |Unpicked(s, mined)| + |Reopening(s, mined)|
  }

  /** `x` waits behind `mined` and `unmined`. */
  ghost predicate Waits(s: State, x: AttId, mined: set<AttId>, unmined: set<AttId>) {
    && x in s.sh.attempts && !IsSettled(s.sh.attempts[x]) && x !in Todo(s.watcher)
    && (forall y :: y in mined ==> y in s.sh.attempts && s.sh.attempts[y].hash in s.sh.receipts)
    && (forall y :: y in s.sh.attempts && IsBefore(s.sh, x, y) && s.sh.attempts[y].status != AFailed ==>
          y in mined || y in unmined)
  }

  /** Attempts recorded from now on are younger than `at`. */
  predicate IsYounger(e: Step, at: int) {
    e.Sending? && e.send.AInsertAttempt? ==> e.send.at > at
  }

  lemma WaitsOn(s: State, e: Step, x: AttId, mined: set<AttId>, unmined: set<AttId>)
    requires Inv(s) && Enabled(s, e) && Waits(s, x, mined, unmined) && !IsPick(e, x)
    requires IsYounger(e, s.sh.attempts[x].at)
    ensures Waits(Apply(s, e), x, mined, unmined)
  {
    var s' := Apply(s, e);
    AttemptMoves(s, e, x);
    MoveCauses(s, e, x);
    TodoShrinks(s, e);
    GrowsStep(s, e);
    forall y | y in s'.sh.attempts && IsBefore(s'.sh, x, y) && s'.sh.attempts[y].status != AFailed
      ensures y in mined || y in unmined
    {
      WasBefore(s, e, x, y);
    }
  }

  /** Nothing gets in front of `x`. */
  lemma WasBefore(s: State, e: Step, x: AttId, y: AttId)
    requires RowsOk(s) && Enabled(s, e) && x in s.sh.attempts && IsYounger(e, s.sh.attempts[x].at)
    requires var sh' := Apply(s, e).sh; x in sh'.attempts && IsBefore(sh', x, y) && sh'.attempts[y].status != AFailed
    ensures IsBefore(s.sh, x, y) && s.sh.attempts[y].status != AFailed
  {
    AttemptMoves(s, e, x);
    if y in s.sh.attempts {
      AttemptMoves(s, e, y);
      MoveCauses(s, e, y);
    } else {
      NewAttempt(s, e, y);
    }
  }

  // ---- What a step costs

  /** A call comes to marking `y` only by having its broadcast accepted. */
  lemma MarkingComesFrom(s: State, e: Step, t: Tid, y: AttId)
    requires Enabled(s, e) && t in Apply(s, e).threads && Apply(s, e).threads[t].pc == MarkSubmitted(y)
    ensures t in s.threads
    ensures || (s.threads[t].pc == MarkSubmitted(y) && !(e.Closing? && e.t == t))
            || (s.threads[t].pc.Send? && s.threads[t].pc.att == y)
  {
    match e
    case Begin(u, r, app, call, notify, o) =>
    case Setup(u, a) =>
      if !a.AInstall? && !a.AReceive? {
        SetupFrame(s, u, a);
      }
    case Sending(u, a) => SendingComesFrom(s, u, a, t, y);
    case Closing(u, a) =>
      if !a.AFinish? {
        CloseFrame(s, u, a);
      }
    case Watching(a) => WatchFrame(s, a);
    case Mine(tx, rc) =>
    case CreateApp(app, addrs) =>
    case Crash =>
  }

  lemma SendingComesFrom(s: State, u: Tid, a: SendAct, t: Tid, y: AttId)
    requires CanSending(s, u, a)
    requires t in DoSending(s, u, a).threads && DoSending(s, u, a).threads[t].pc == MarkSubmitted(y)
    ensures t in s.threads
    ensures s.threads[t].pc == MarkSubmitted(y) || (s.threads[t].pc.Send? && s.threads[t].pc.att == y)
  {
    match a
    case ATakeNonce =>
    case ASign(ok) =>
    case AInsertAttempt(x, at, o) =>
    case ASend(ok) =>
    case ARewind =>
    case AMarkFailed(o) =>
  }

  /** An attempt is marked by one call. */
  lemma OneMarker(s: State, t: Tid, u: Tid, y: AttId)
    requires OwnersOk(s) && t in s.threads && u in s.threads
    requires s.threads[t].pc == MarkSubmitted(y) && s.threads[u].pc == MarkSubmitted(y)
    ensures t == u
  {
    assert RowThread(s.sh, s.threads[t]) && RowThread(s.sh, s.threads[u]);
  }

  /** What is mined was accepted, so no call is still sending it. */
  lemma MinedIsNotSending(s: State, t: Tid, y: AttId)
    requires RowsOk(s) && t in s.threads && y in s.sh.attempts && s.sh.attempts[y].hash in s.sh.receipts
    ensures !(s.threads[t].pc.Send? && s.threads[t].pc.att == y)
  {
    assert RowThread(s.sh, s.threads[t]);
  }

  lemma MarkingWasThere(s: State, e: Step, y: AttId)
    requires RowsOk(s) && Enabled(s, e) && IsMarking(Apply(s, e), y)
    requires y in s.sh.attempts && s.sh.attempts[y].hash in s.sh.receipts
    ensures IsMarking(s, y) && !Marks(s, e, y)
  {
    var t :| t in Apply(s, e).threads && Apply(s, e).threads[t].pc == MarkSubmitted(y);
    MarkingComesFrom(s, e, t, y);
    MinedIsNotSending(s, t, y);
    if Marks(s, e, y) {
      OneMarker(s, t, e.t, y);
    }
  }

  /** Which attempts of `mined` a step, other than a tick, leaves to be picked. */
  lemma UnpickedAfter(s: State, e: Step, mined: set<AttId>, y: AttId)
    requires RowsOk(s) && Enabled(s, e) && IsClean(e) && !IsTick(e)
    requires y in s.sh.attempts && s.sh.attempts[y].hash in s.sh.receipts
    requires y in Unpicked(Apply(s, e), mined)
    ensures y in Unpicked(s, mined) || Marks(s, e, y)
  {
    AttemptMoves(s, e, y);
    TodoShrinks(s, e);
  }

  lemma StepCosts(s: State, e: Step, mined: set<AttId>)
    requires RowsOk(s) && Enabled(s, e) && IsClean(e) && !IsTick(e)
    requires forall y :: y in mined ==> y in s.sh.attempts && s.sh.attempts[y].hash in s.sh.receipts
    ensures Picks(Apply(s, e), mined) <= Picks(s, mined)
  {
    var s' := Apply(s, e);
    forall y | y in mined
      ensures y in Unpicked(s', mined) ==> y in Unpicked(s, mined) || Marks(s, e, y)
      ensures y in Reopening(s', mined) ==> y in Reopening(s, mined) && !Marks(s, e, y)
    {
      if y in Unpicked(s', mined) {
        UnpickedAfter(s, e, mined, y);
      }
      if IsMarking(s', y) {
        MarkingWasThere(s, e, y);
      }
    }
    CountPicks(s, s', e, mined);
  }

  lemma CountPicks(s: State, s': State, e: Step, mined: set<AttId>)
    requires forall y :: y in Unpicked(s', mined) ==> y in Unpicked(s, mined) || Marks(s, e, y)
    requires forall y :: y in Reopening(s', mined) ==> y in Reopening(s, mined) && !Marks(s, e, y)
    ensures Picks(s', mined) <= Picks(s, mined)
  {
    if y :| y in mined && Marks(s, e, y) {
      assert IsMarking(s, y);
      SubsetSize(Unpicked(s', mined), Unpicked(s, mined) + {y});
      SubsetSize(Reopening(s', mined), Reopening(s, mined) - {y});
    } else {
      SubsetSize(Unpicked(s', mined), Unpicked(s, mined));
      SubsetSize(Reopening(s', mined), Reopening(s, mined));
    }
  }

  /** A batch without `x` is full and made of older open attempts. */
  lemma BatchIsBefore(sh: Shared, limit: nat, todo: seq<AttId>, x: AttId)
    requires IsOpenBatch(sh.attempts, limit, todo) && x in sh.attempts && IsOpen(sh.attempts[x]) && x !in todo
    ensures |todo| == limit && forall y :: y in todo ==> IsBefore(sh, x, y) && IsOpen(sh.attempts[y])
  {
    forall y | y in todo ensures IsBefore(sh, x, y) && IsOpen(sh.attempts[y]) {
      var j :| 0 <= j < |todo| && todo[j] == y;
    }
  }

  /** A tick that passes over `x` picks at least `batchSize - |unmined|` attempts of `mined`. */
  lemma TickCosts(s: State, e: Step, x: AttId, mined: set<AttId>, unmined: set<AttId>)
    requires Enabled(s, e) && IsTick(e) && Waits(s, x, mined, unmined) && IsOpen(s.sh.attempts[x]) && !IsPick(e, x)
    ensures Picks(Apply(s, e), mined) + s.batchSize <= Picks(s, mined) + |unmined|
  {
    var s', batch := Apply(s, e), Elements(e.watch.todo);
    BatchIsBefore(s.sh, s.batchSize, e.watch.todo, x);
    DistinctSize(e.watch.todo);
    assert Unpicked(s', mined) == Unpicked(s, mined) - batch;
    assert Reopening(s', mined) == Reopening(s, mined);
    Share(batch, unmined, Unpicked(s, mined));
  }

  lemma Share(batch: set<AttId>, unmined: set<AttId>, rest: set<AttId>)
    requires batch <= unmined + rest
    ensures |rest - batch| + |batch| <= |rest| + |unmined|
  {
    assert rest == (rest - batch) + (rest * batch);
    assert batch == rest * batch + (batch - rest);
    SubsetSize(batch - rest, unmined);
  }

  // ---- Whole runs

  ghost predicate IsPicked(steps: seq<Step>, x: AttId) {
    exists i :: 0 <= i < |steps| && IsPick(steps[i], x)
  }

  ghost function Ticks(steps: seq<Step>): nat {
    if steps == [] then 0 else (if IsTick(steps[0]) then 1 else 0) + Ticks(steps[1..])
  }

  /** No crash, no error in the watcher, and a clock that does not run backwards past `at`. */
  ghost predicate IsOrderly(steps: seq<Step>, at: int) {
    forall i :: 0 <= i < |steps| ==> IsClean(steps[i]) && IsYounger(steps[i], at)
  }

  /** One step of the wait: nothing gets ahead of `x`, and a tick that passes over it is paid for. */
  lemma WaitStep(s: State, e: Step, x: AttId, mined: set<AttId>, unmined: set<AttId>)
    requires Reachable(s) && Enabled(s, e) && Waits(s, x, mined, unmined) && !IsPick(e, x) && |unmined| <= s.batchSize
    requires IsClean(e) && IsYounger(e, s.sh.attempts[x].at) && IsOpen(s.sh.attempts[x])
    ensures var s' := Apply(s, e);
            && Reachable(s') && s'.batchSize == s.batchSize && Waits(s', x, mined, unmined)
            && SameIdentity(s'.sh.attempts[x], s.sh.attempts[x])
            && Picks(s', mined) + (if IsTick(e) then s.batchSize - |unmined| else 0) <= Picks(s, mined)
  {
    InvReachable(s);
    ReachableStep(s, e);
    BatchSizeStays(s, e);
    AttemptMoves(s, e, x);
    WaitsOn(s, e, x, mined, unmined);
    if IsTick(e) {
      TickCosts(s, e, x, mined, unmined);
    } else {
      StepCosts(s, e, mined);
    }
  }

  lemma OrderlyTail(steps: seq<Step>, at: int, x: AttId)
    requires steps != [] && IsOrderly(steps, at) && !IsPicked(steps, x)
    ensures IsClean(steps[0]) && IsYounger(steps[0], at) && !IsPick(steps[0], x)
    ensures IsOrderly(steps[1..], at) && !IsPicked(steps[1..], x)
  {
    assert forall i :: 0 <= i < |steps| - 1 ==> steps[1..][i] == steps[i + 1];
  }

  /** `share` for every tick. */
  ghost function Bill(steps: seq<Step>, share: nat): nat {
    if steps == [] then 0 else (if IsTick(steps[0]) then share else 0) + Bill(steps[1..], share)
  }

  lemma {:induction false} BillIsBlocks(steps: seq<Step>, share: nat)
    ensures Bill(steps, share) == Blocks(share, Ticks(steps))
  {
    if steps != [] {
      BillIsBlocks(steps[1..], share);
    }
  }

  /** As long as `x` is neither picked nor failed, every tick is paid for. */
  lemma {:induction false} WaitCosts(s: State, steps: seq<Step>, x: AttId, mined: set<AttId>, unmined: set<AttId>)
    requires Reachable(s) && IsRun(s, steps) && Waits(s, x, mined, unmined) && |unmined| <= s.batchSize
    requires IsOrderly(steps, s.sh.attempts[x].at) && !IsPicked(steps, x)
    requires x in After(s, steps).sh.attempts && After(s, steps).sh.attempts[x].status != AFailed
    ensures Bill(steps, s.batchSize - |unmined|) <= Picks(s, mined)
    decreases |steps|
  {
    NotFailedYet(s, steps, x);
    if steps != [] {
      OrderlyTail(steps, s.sh.attempts[x].at, x);
      WaitStep(s, steps[0], x, mined, unmined);
      WaitCosts(Apply(s, steps[0]), steps[1..], x, mined, unmined);
    }
  }

  lemma NotFailedYet(s: State, steps: seq<Step>, x: AttId)
    requires Reachable(s) && IsRun(s, steps) && x in s.sh.attempts && x in After(s, steps).sh.attempts
    requires After(s, steps).sh.attempts[x].status != AFailed
    ensures s.sh.attempts[x].status != AFailed
  {
    if s.sh.attempts[x].status == AFailed {
      FailedForever(s, steps, x);
    }
  }

  lemma {:induction false} FailedForever(s: State, steps: seq<Step>, x: AttId)
    requires Reachable(s) && IsRun(s, steps) && x in s.sh.attempts && s.sh.attempts[x].status == AFailed
    ensures x in After(s, steps).sh.attempts && After(s, steps).sh.attempts[x].status == AFailed
    decreases |steps|
  {
    if steps != [] {
      InvReachable(s);
      FailedStays(s, steps[0], x);
      ReachableStep(s, steps[0]);
      FailedForever(Apply(s, steps[0]), steps[1..], x);
    }
  }

  /** What the chain accepted does not end up failed. */
  lemma {:induction false} AcceptedNeverFails(s: State, steps: seq<Step>, x: AttId)
    requires Reachable(s) && IsRun(s, steps) && x in s.sh.attempts && IsAccepted(s.sh, s.sh.attempts[x].hash)
    ensures x in After(s, steps).sh.attempts && After(s, steps).sh.attempts[x].status != AFailed
    decreases |steps|
  {
    if steps == [] {
      InvReachable(s);
      assert AttemptOk(s.sh, x);
    } else {
      AttemptMoves(s, steps[0], x);
      AcceptedStep(s, steps[0]);
      ReachableStep(s, steps[0]);
      AcceptedNeverFails(Apply(s, steps[0]), steps[1..], x);
    }
  }

  /** Bounded wait, over every run of the relayer without crash and without errors in the watcher. At the start
      k open attempts no younger than `x` have no receipt, and m times can one with a receipt be picked: once if
      it is open, once more if its call has yet to mark it. If k is below the batch size, `x` is in one of the
      first m / (batchSize - k) + 1 batches, unless its own call fails to broadcast it. */
  lemma BoundedWait(s: State, steps: seq<Step>, x: AttId, k: nat, m: nat)
    requires Reachable(s) && IsRun(s, steps) && x in s.sh.attempts && IsOpen(s.sh.attempts[x])
    requires x !in Todo(s.watcher) && IsOrderly(steps, s.sh.attempts[x].at)
    requires k == |UnminedAhead(s, x)| && m == Picks(s, MinedBefore(s, x))
    requires k < s.batchSize && Ticks(steps) > m / (s.batchSize - k)
    ensures x in After(s, steps).sh.attempts
    ensures IsPicked(steps, x) || After(s, steps).sh.attempts[x].status == AFailed
    ensures IsAccepted(s.sh, s.sh.attempts[x].hash) ==> IsPicked(steps, x)
  {
    KeepsRow(s, steps, x);
    if !IsPicked(steps, x) {
      MoreTicksCostMore(s.batchSize - k, m, Ticks(steps));
      PassedOverHasFailed(s, steps, x, k, m);
    }
    if IsAccepted(s.sh, s.sh.attempts[x].hash) {
      AcceptedNeverFails(s, steps, x);
    }
  }

  lemma PassedOverHasFailed(s: State, steps: seq<Step>, x: AttId, k: nat, m: nat)
    requires Reachable(s) && IsRun(s, steps) && x in s.sh.attempts && IsOpen(s.sh.attempts[x])
    requires x !in Todo(s.watcher) && IsOrderly(steps, s.sh.attempts[x].at) && !IsPicked(steps, x)
    requires k == |UnminedAhead(s, x)| && m == Picks(s, MinedBefore(s, x))
    requires k < s.batchSize && m < Blocks(s.batchSize - k, Ticks(steps))
    ensures x in After(s, steps).sh.attempts && After(s, steps).sh.attempts[x].status == AFailed
  {
    StartsWaiting(s, x);
    KeepsRow(s, steps, x);
    BillIsBlocks(steps, s.batchSize - k);
    if After(s, steps).sh.attempts[x].status != AFailed {
      WaitCosts(s, steps, x, MinedBefore(s, x), UnminedAhead(s, x));
    }
  }

  lemma StartsWaiting(s: State, x: AttId)
    requires Reachable(s) && x in s.sh.attempts && IsOpen(s.sh.attempts[x]) && x !in Todo(s.watcher)
    ensures Waits(s, x, MinedBefore(s, x), UnminedAhead(s, x))
  {
    InvReachable(s);
    forall y | y in s.sh.attempts && IsBefore(s.sh, x, y) && s.sh.attempts[y].status != AFailed
      ensures y in MinedBefore(s, x) || y in UnminedAhead(s, x)
    {
      assert AttemptOk(s.sh, y);
    }
  }

  lemma {:induction false} KeepsRow(s: State, steps: seq<Step>, x: AttId)
    requires IsRun(s, steps) && x in s.sh.attempts
    ensures x in After(s, steps).sh.attempts && SameIdentity(s.sh.attempts[x], After(s, steps).sh.attempts[x])
    decreases |steps|
  {
    if steps != [] {
      AttemptMoves(s, steps[0], x);
      KeepsRow(Apply(s, steps[0]), steps[1..], x);
    }
  }

  lemma MoreTicksCostMore(share: nat, m: nat, n: nat)
    requires share > 0 && n > m / share
    ensures m < Blocks(share, n)
  {
    BlocksCover(m, share);
    BlocksMonotone(share, m / share + 1, n);
  }
}
