/** Requests nobody works for any more: which of them stay as they are for ever, exactly. */
module RelayFate {
  import opened Common
  import opened RelayState
  import opened RelaySteps
  import opened RelayInv
  import opened RelayNotify
  import opened RelayTheorems
  import opened RelayAbandon
  import opened RelayWatch
  import opened RelayWall
  import opened RelaySettle

  /** A request changes by a write of its own call or by the watcher settling its attempt. */
  lemma RequestMoves(s: State, e: Step, r: ReqId)
    requires Enabled(s, e) && r in s.sh.requests
    ensures r in Apply(s, e).sh.requests
    ensures || Apply(s, e).sh.requests[r] == s.sh.requests[r]
            || (e.Closing? && e.t in s.threads && s.threads[e.t].req == r)
            || exists y :: Settles(s, e, y) && y in s.sh.attempts && s.sh.attempts[y].req == r
  {
    if e.Closing? {
      RequestInClosing(s, e.t, e.close, r);
    } else if e.Watching? {
      if e.watch.ASettle? {
        RequestInSettle(s, e.watch.o, r);
        assert Settles(s, e, s.watcher.att);
      } else {
        WatchFrame(s, e.watch);
      }
    } else {
      QuietForWebhooks(s, e);
    }
  }

  lemma RequestInClosing(s: State, t: Tid, a: CloseAct, r: ReqId)
    requires CanClosing(s, t, a) && r in s.sh.requests
    ensures r in DoClosing(s, t, a).sh.requests
    ensures DoClosing(s, t, a).sh.requests[r] == s.sh.requests[r] || s.threads[t].req == r
  {
    if a.ASnapshot? || a.AEnqueue? {
      CloseFrame(s, t, a);
    }
  }

  lemma RequestInSettle(s: State, o: Write, r: ReqId)
    requires CanSettle(s) && r in s.sh.requests
    ensures r in DoSettle(s, o).sh.requests
    ensures DoSettle(s, o).sh.requests[r] == s.sh.requests[r] || s.sh.attempts[s.watcher.att].req == r
  {
  }

  /** Nothing accepted, nobody working: no step changes the request. */
  lemma SilentStays(s: State, e: Step, r: ReqId)
    requires Reachable(s) && Enabled(s, e) && Abandoned(s, r) && NothingAccepted(s.sh, r)
    ensures r in Apply(s, e).sh.requests && Apply(s, e).sh.requests[r] == s.sh.requests[r]
    ensures Abandoned(Apply(s, e), r) && NothingAccepted(Apply(s, e).sh, r)
  {
    InvReachable(s);
    AbandonedStep(s, e, r);
    RequestMoves(s, e, r);
    if y :| Settles(s, e, y) && y in s.sh.attempts && s.sh.attempts[y].req == r {
      MoveCauses(s, e, y);
    }
  }

  /** A request whose call is gone with nothing accepted keeps its status, `pending` or `rejected`, for ever. */
  lemma {:induction false} UnsentForever(s: State, steps: seq<Step>, r: ReqId)
    requires Reachable(s) && IsRun(s, steps) && Abandoned(s, r) && NothingAccepted(s.sh, r)
    ensures r in After(s, steps).sh.requests && After(s, steps).sh.requests[r] == s.sh.requests[r]
    decreases |steps|
  {
    if steps != [] {
      SilentStays(s, steps[0], r);
      ReachableStep(s, steps[0]);
      UnsentForever(Apply(s, steps[0]), steps[1..], r);
    }
  }

  /** Whatever happens from `s` on, the request keeps its row. */
  ghost predicate NeverChanges(s: State, r: ReqId) {
    && r in s.sh.requests
    && forall steps :: IsRun(s, steps) ==>
         r in After(s, steps).sh.requests && After(s, steps).sh.requests[r] == s.sh.requests[r]
  }

  lemma UnsentNeverChanges(s: State, r: ReqId)
    requires Reachable(s) && Abandoned(s, r) && NeverAccepted(s, r)
    ensures NeverChanges(s, r)
  {
    assert IsRun(s, []) && NothingAccepted(After(s, []).sh, r);
    forall steps | IsRun(s, steps)
      ensures r in After(s, steps).sh.requests && After(s, steps).sh.requests[r] == s.sh.requests[r]
    {
      UnsentForever(s, steps, r);
    }
  }

  /** Behind the wall nothing happens to a request either. */
  lemma {:induction false} BlockedForever(s: State, steps: seq<Step>, r: ReqId, x: AttId)
    requires Reachable(s) && IsRun(s, steps) && Abandoned(s, r)
    requires IsBlocked(s, x) && s.sh.attempts[x].req == r
    ensures r in After(s, steps).sh.requests && After(s, steps).sh.requests[r] == s.sh.requests[r]
    decreases |steps|
  {
    if steps != [] {
      BlockedRequestStays(s, steps[0], r, x);
      BlockedStays(s, steps[0], x);
      AttemptMoves(s, steps[0], x);
      StaysAbandoned(s, steps[0], r);
      ReachableStep(s, steps[0]);
      BlockedForever(Apply(s, steps[0]), steps[1..], r, x);
    }
  }

  lemma BlockedRequestStays(s: State, e: Step, r: ReqId, x: AttId)
    requires Reachable(s) && Enabled(s, e) && Abandoned(s, r) && IsBlocked(s, x) && s.sh.attempts[x].req == r
    ensures r in Apply(s, e).sh.requests && Apply(s, e).sh.requests[r] == s.sh.requests[r]
  {
    InvReachable(s);
    RequestMoves(s, e, r);
    MoveCauses(s, e, x);
  }

  /** The request has an accepted attempt that the watcher can still come to. */
  ghost predicate AwaitsReceipt(s: State, r: ReqId) {
    exists x :: IsPending(s, x) && s.sh.attempts[x].req == r && (x in Todo(s.watcher) || |Wall(s, x)| < s.batchSize)
  }

  /** The status of a request without a call can still change if and only if it has an open attempt with an
      accepted transaction that is in the watcher's batch or not behind a full batch of doomed ones. */
  lemma AbandonedChangesIff(s: State, r: ReqId)
    requires Reachable(s) && Abandoned(s, r)
    ensures CanStillChange(s, r) <==> AwaitsReceipt(s, r)
  {
    if AwaitsReceipt(s, r) {
      var x :| IsPending(s, x) && s.sh.attempts[x].req == r && (x in Todo(s.watcher) || |Wall(s, x)| < s.batchSize);
      SettlingChanges(s, r, x);
    } else {
      forall steps | IsRun(s, steps)
        ensures r in After(s, steps).sh.requests && After(s, steps).sh.requests[r] == s.sh.requests[r]
      {
        StuckForever(s, steps, r);
      }
    }
  }

  lemma SettlingChanges(s: State, r: ReqId, x: AttId)
    requires Reachable(s) && IsPending(s, x) && s.sh.attempts[x].req == r && r in s.sh.requests
    requires x in Todo(s.watcher) || |Wall(s, x)| < s.batchSize
    ensures CanStillChange(s, r)
  {
    var s' := SettleSomehow(s, x);
    var steps :| IsRun(s, steps) && After(s, steps) == s';
    KeepsRow(s, steps, x);
    ReachableRun(s, steps);
    JointStatus(s, x);
    JointStatus(s', x);
  }

  lemma {:induction false} ReachableRun(s: State, steps: seq<Step>)
    requires Reachable(s) && IsRun(s, steps)
    ensures Reachable(After(s, steps))
    decreases |steps|
  {
    if steps != [] {
      ReachableStep(s, steps[0]);
      ReachableRun(Apply(s, steps[0]), steps[1..]);
    }
  }

  lemma StuckForever(s: State, steps: seq<Step>, r: ReqId)
    requires Reachable(s) && IsRun(s, steps) && Abandoned(s, r) && !AwaitsReceipt(s, r)
    ensures r in After(s, steps).sh.requests && After(s, steps).sh.requests[r] == s.sh.requests[r]
  {
    if NothingAccepted(s.sh, r) {
      UnsentForever(s, steps, r);
    } else {
      var x :| x in s.sh.attempts && s.sh.attempts[x].req == r && IsAccepted(s.sh, s.sh.attempts[x].hash);
      AcceptedNeverFails(s, [], x);
      if IsOpen(s.sh.attempts[x]) {
        assert IsPending(s, x);
        BlockedForever(s, steps, r, x);
      } else {
        JointStatus(s, x);
        InvReachable(s);
        FinalForever(s, steps, r);
      }
    }
  }
}
