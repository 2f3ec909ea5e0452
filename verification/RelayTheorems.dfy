/** What holds of every run of the relayer, crashes included. */
module RelayTheorems {
  import opened Common
  import opened RelayState
  import opened RelaySteps
  import opened RelayInv
  import RelayPoolProof
  import RelayNonceProof
  import RelayRowProof
  import opened RelayNotify

  ghost predicate Inv(s: State) {
    PoolsOk(s) && NoncesOk(s) && ChainOk(s.sh) && RowsOk(s) && PayloadsOk(s) && NotifyOk(s)
  }

  lemma InvInit(s: State)
    requires Init(s)
    ensures Inv(s)
  {
  }

  /** Every step, by whomever and with whatever outcome, keeps the invariant. */
  lemma InvStep(s: State, e: Step)
    requires Inv(s) && Enabled(s, e)
    ensures Inv(Apply(s, e))
  {
    RelayPoolProof.PoolsKept(s, e);
    RelayNonceProof.NoncesKept(s, e);
    RelayNonceProof.ChainKept(s, e);
    RelayRowProof.RowsKept(s, e);
    PayloadsKept(s, e);
    NotifyKept(s, e);
  }

  lemma {:induction false} InvRun(s: State, steps: seq<Step>)
    requires Inv(s) && IsRun(s, steps)
    ensures Inv(After(s, steps))
    decreases |steps|
  {
    if steps != [] {
      InvStep(s, steps[0]);
      InvRun(Apply(s, steps[0]), steps[1..]);
    }
  }

  lemma InvReachable(s: State)
    requires Reachable(s)
    ensures Inv(s)
  {
    var s0, steps :| Init(s0) && IsRun(s0, steps) && After(s0, steps) == s;
    InvInit(s0);
    InvRun(s0, steps);
  }

  lemma OneStepRun(s: State, e: Step)
    requires Enabled(s, e)
    ensures IsRun(s, [e]) && After(s, [e]) == Apply(s, e)
  {
    assert [e][1..] == [];
    assert IsRun(Apply(s, e), []);
  }

  lemma {:induction false} RunAppend(s: State, steps: seq<Step>, e: Step)
    requires IsRun(s, steps) && Enabled(After(s, steps), e)
    ensures IsRun(s, steps + [e]) && After(s, steps + [e]) == Apply(After(s, steps), e)
    decreases |steps|
  {
    if steps == [] {
      OneStepRun(s, e);
      assert steps + [e] == [e];
    } else {
      RunAppend(Apply(s, steps[0]), steps[1..], e);
      assert (steps + [e])[1..] == steps[1..] + [e];
    }
  }

  lemma ReachableStep(s: State, e: Step)
    requires Reachable(s) && Enabled(s, e)
    ensures Reachable(Apply(s, e))
  {
    var s0, steps :| Init(s0) && IsRun(s0, steps) && After(s0, steps) == s;
    RunAppend(s0, steps, e);
  }

  // ---- Nonces

  /** Whatever is interleaved, failed or crashed before, a broadcast carries the pending nonce of its signer. */
  lemma BroadcastCarriesPendingNonce(s: State, t: Tid)
    requires Reachable(s) && CanSend(s, t)
    ensures var tx := s.threads[t].pc.tx;
            && s.threads[t].held == Some(tx.signer)
            && tx.nonce == PendingNonce(s.sh, tx.signer)
            && !IsAccepted(s.sh, tx)
  {
    InvReachable(s);
    assert PoolThread(s.sh, s.threads[t]) && NonceThread(s.sh, s.threads[t]) && RowThread(s.sh, s.threads[t]);
  }

  /** The nonces accepted from one account are an interval: no gap, no repetition before wrap-around. */
  lemma AcceptedNoncesAreAnInterval(s: State, a: Addr, i: nat, j: nat)
    requires Reachable(s) && i <= j < |AcceptedBy(s.sh, a)|
    ensures AcceptedBy(s.sh, a)[i].signer == a
    ensures AcceptedBy(s.sh, a)[j].nonce == (AcceptedBy(s.sh, a)[i].nonce + (j - i)) % U64
    ensures 0 < j - i < U64 ==> AcceptedBy(s.sh, a)[i].nonce != AcceptedBy(s.sh, a)[j].nonce
  {
    InvReachable(s);
    IntervalOf(a, StartNonce(s.sh, a), AcceptedBy(s.sh, a), i, j);
  }

  lemma IntervalOf(a: Addr, first: nat, txs: seq<Tx>, i: nat, j: nat)
    requires Consecutive(a, first, txs) && i <= j < |txs|
    ensures txs[i].signer == a && txs[j].nonce == (txs[i].nonce + (j - i)) % U64
    ensures 0 < j - i < U64 ==> txs[i].nonce != txs[j].nonce
  {
    WrapShift(first, i, j);
  }

  /** The `Load` that installs a pool installs current nonces; one that loses changes nothing anybody sees. */
  lemma RacingLoadsAreSafe(s: State, t: Tid)
    requires Reachable(s) && CanInstall(s, t)
    ensures var app := s.threads[t].app; var sh' := DoInstall(s, t).sh;
            if app in s.sh.pools then sh' == s.sh
            else && app in sh'.pools && sh'.pools[app].idle == SignersOf(s.sh, app)
                 && forall a :: a in SignersOf(s.sh, app) ==>
                      a in sh'.nonces && sh'.nonces[a] == PendingNonce(s.sh, a)
  {
    InvReachable(s);
    var th := s.threads[t];
    assert PoolThread(s.sh, th) && NonceThread(s.sh, th);
    assert th.pc.addrs[..th.pc.done] == th.pc.addrs;
  }

  // ---- Status histories

  /** The histories of a request whose transaction, if any, ends with outcome `T`. */
  predicate InLanguage(log: seq<ReqStatus>, T: ReqStatus) {
    || log == [RPending] || log == [RPending, RRejected]
    || log == [RPending, RSubmitted] || log == [RPending, RSubmitted, T]
    || log == [RPending, T] || log == [RPending, T, RSubmitted] || log == [RPending, T, RSubmitted, T]
  }

  /** The transaction of the request was mined: successfully if `T` is confirmed, and not if it is reverted. */
  ghost predicate HasOutcome(sh: Shared, r: ReqId, T: ReqStatus) {
    exists x :: && x in sh.attempts && sh.attempts[x].req == r && sh.attempts[x].hash in sh.receipts
                && (T == RConfirmed <==> sh.receipts[sh.attempts[x].hash].success)
                && (T == RReverted <==> !sh.receipts[sh.attempts[x].hash].success)
  }

  /** Every request's status history is in the language, and a final status is the receipt's. */
  lemma StatusHistory(s: State, r: ReqId) returns (T: ReqStatus)
    requires Reachable(s) && r in s.sh.requests
    ensures IsTerminal(T) && InLanguage(s.sh.requests[r].log, T)
    ensures s.sh.requests[r].status == s.sh.requests[r].log[|s.sh.requests[r].log| - 1]
    ensures T in s.sh.requests[r].log ==> HasOutcome(s.sh, r, T)
  {
    InvReachable(s);
    T := RConfirmed;
    assert RequestOk(s.sh, r);
    if !NoAttempt(s.sh, r) {
      var x :| x in s.sh.attempts && s.sh.attempts[x].req == r;
      assert AttemptOk(s.sh, x);
      if s.sh.attempts[x].hash in s.sh.receipts {
        T := Outcome(s.sh.receipts[s.sh.attempts[x].hash]);
      }
    }
  }

  /** A step changes a final status only by being the request's own `Submit` marking its broadcast. */
  lemma OnlyOwnSubmitOverwrites(s: State, e: Step, r: ReqId)
    requires Reachable(s) && Enabled(s, e) && r in s.sh.requests && IsTerminal(s.sh.requests[r].status)
    ensures r in Apply(s, e).sh.requests
    ensures Apply(s, e).sh.requests[r] != s.sh.requests[r] ==>
              && e.Closing? && e.close.AMarkSubmitted? && s.threads[e.t].req == r
              && Apply(s, e).sh.requests[r].status == RSubmitted
  {
    InvReachable(s);
    FinalStep(s, e, r);
  }

  /** The call of request `r` has broadcast and not yet marked it. */
  ghost predicate AboutToMark(s: State, t: Tid, r: ReqId) {
    t in s.threads && s.threads[t].req == r && s.threads[t].pc.MarkSubmitted?
  }

  lemma FinalStep(s: State, e: Step, r: ReqId)
    requires Inv(s) && Enabled(s, e) && r in s.sh.requests && IsTerminal(s.sh.requests[r].status)
    ensures r in Apply(s, e).sh.requests
    ensures Apply(s, e).sh.requests[r] != s.sh.requests[r] ==>
              && e.Closing? && e.close.AMarkSubmitted? && AboutToMark(s, e.t, r)
              && Apply(s, e).sh.requests[r].status == RSubmitted
  {
    if e.Closing? {
      FinalClosing(s, e.t, e.close, r);
    } else if e.Watching? {
      FinalWatch(s, e.watch, r);
    } else {
      QuietForWebhooks(s, e);
    }
  }

  lemma FinalClosing(s: State, t: Tid, a: CloseAct, r: ReqId)
    requires RowsOk(s) && CanClosing(s, t, a) && r in s.sh.requests && IsTerminal(s.sh.requests[r].status)
    ensures r in DoClosing(s, t, a).sh.requests
    ensures DoClosing(s, t, a).sh.requests[r] != s.sh.requests[r] ==>
              && a.AMarkSubmitted? && AboutToMark(s, t, r)
              && DoClosing(s, t, a).sh.requests[r].status == RSubmitted
  {
    if a.AMarkSubmitted? {
    } else if a.AReject? {
      assert RowThread(s.sh, s.threads[t]) && RequestOk(s.sh, r);
    } else if !a.AFinish? {
      CloseFrame(s, t, a);
    }
  }

  lemma FinalWatch(s: State, a: WatchAct, r: ReqId)
    requires RowsOk(s) && CanWatch(s, a) && r in s.sh.requests && IsTerminal(s.sh.requests[r].status)
    ensures r in DoWatch(s, a).sh.requests && DoWatch(s, a).sh.requests[r] == s.sh.requests[r]
  {
    if a.ASettle? {
      FinalSettle(s, a.o, r);
    } else {
      WatchFrame(s, a);
    }
  }

  /** The watcher settles an open attempt, and the request of an open attempt is not final. */
  lemma FinalSettle(s: State, o: Write, r: ReqId)
    requires RowsOk(s) && CanSettle(s) && r in s.sh.requests && IsTerminal(s.sh.requests[r].status)
    ensures r in DoSettle(s, o).sh.requests && DoSettle(s, o).sh.requests[r] == s.sh.requests[r]
  {
    assert AttemptOk(s.sh, s.watcher.att) && RequestOk(s.sh, s.sh.attempts[s.watcher.att].req);
  }

  /** A call starts marking only by having its broadcast accepted. */
  lemma MarkingStarts(s: State, e: Step, t: Tid, r: ReqId)
    requires Enabled(s, e) && AboutToMark(Apply(s, e), t, r)
    ensures AboutToMark(s, t, r) || (t in s.threads && s.threads[t].pc.Send? && s.threads[t].req == r)
  {
    match e
    case Begin(u, q, app, call, notify, o) =>
    case Setup(u, a) =>
      if !a.AInstall? && !a.AReceive? {
        SetupFrame(s, u, a);
      }
    case Sending(u, a) => MarkingSending(s, u, a, t, r);
    case Closing(u, a) =>
      if !a.AFinish? {
        CloseFrame(s, u, a);
      }
    case Watching(a) => WatchFrame(s, a);
    case Mine(tx, rc) =>
    case CreateApp(app, addrs) =>
    case Crash =>
  }

  lemma MarkingSending(s: State, u: Tid, a: SendAct, t: Tid, r: ReqId)
    requires CanSending(s, u, a) && AboutToMark(DoSending(s, u, a), t, r)
    ensures AboutToMark(s, t, r) || (t in s.threads && s.threads[t].pc.Send? && s.threads[t].req == r)
  {
    match a
    case ATakeNonce =>
    case ASign(ok) =>
    case AInsertAttempt(x, at, o) =>
    case ASend(ok) =>
    case ARewind =>
    case AMarkFailed(o) =>
  }

  ghost predicate Final(s: State, r: ReqId) {
    r in s.sh.requests && IsTerminal(s.sh.requests[r].status) && forall t :: !AboutToMark(s, t, r)
  }

  lemma FinalStays(s: State, e: Step, r: ReqId)
    requires Inv(s) && Enabled(s, e) && Final(s, r)
    ensures Final(Apply(s, e), r) && Apply(s, e).sh.requests[r] == s.sh.requests[r]
  {
    FinalStep(s, e, r);
    FinalIsNotSending(s, r);
    forall t ensures !AboutToMark(Apply(s, e), t, r) {
      if AboutToMark(Apply(s, e), t, r) {
        MarkingStarts(s, e, t, r);
      }
    }
  }

  lemma FinalIsNotSending(s: State, r: ReqId)
    requires RowsOk(s) && r in s.sh.requests && IsTerminal(s.sh.requests[r].status)
    ensures forall t :: t in s.threads && s.threads[t].req == r ==> !s.threads[t].pc.Send?
  {
    assert RequestOk(s.sh, r);
    forall t | t in s.threads && s.threads[t].req == r ensures !s.threads[t].pc.Send? {
      assert RowThread(s.sh, s.threads[t]);
    }
  }

  lemma {:induction false} FinalForever(s: State, steps: seq<Step>, r: ReqId)
    requires Inv(s) && IsRun(s, steps) && Final(s, r)
    ensures r in After(s, steps).sh.requests && After(s, steps).sh.requests[r] == s.sh.requests[r]
    decreases |steps|
  {
    if steps != [] {
      FinalStays(s, steps[0], r);
      InvStep(s, steps[0]);
      FinalForever(Apply(s, steps[0]), steps[1..], r);
    }
  }

  /** Some run from `s` ends with another status for `r`. */
  ghost predicate CanStillChange(s: State, r: ReqId)
    requires r in s.sh.requests
  {
    exists steps :: IsRun(s, steps) && r in After(s, steps).sh.requests
                    && After(s, steps).sh.requests[r].status != s.sh.requests[r].status
  }

  lemma MarkingOverwrites(s: State, t: Tid, r: ReqId)
    requires RowsOk(s) && AboutToMark(s, t, r) && r in s.sh.requests && IsTerminal(s.sh.requests[r].status)
    ensures CanStillChange(s, r)
  {
    assert RowThread(s.sh, s.threads[t]);
    var e := Closing(t, AMarkSubmitted(Ok));
    OneStepRun(s, e);
    assert Apply(s, e) == DoMarkSubmitted(s, t, Ok);
  }

  /** A final status is final exactly when the request's `Submit` is not between broadcast and marking. */
  lemma TerminalIsAbsorbingIffSubmitIsPastMarking(s: State, r: ReqId)
    requires Reachable(s) && r in s.sh.requests && IsTerminal(s.sh.requests[r].status)
    ensures CanStillChange(s, r) <==> exists t :: AboutToMark(s, t, r)
  {
    InvReachable(s);
    if t :| AboutToMark(s, t, r) {
      MarkingOverwrites(s, t, r);
    }
    if CanStillChange(s, r) && !exists t :: AboutToMark(s, t, r) {
      var steps :| IsRun(s, steps) && r in After(s, steps).sh.requests
                   && After(s, steps).sh.requests[r].status != s.sh.requests[r].status;
      FinalForever(s, steps, r);
    }
  }

  // ---- Pairs of rows

  /** An attempt and its request always form one of five pairs; settled ones are confirmed or reverted as the
      receipt says and hold its fields. */
  lemma JointStatus(s: State, x: AttId)
    requires Reachable(s) && x in s.sh.attempts
    ensures s.sh.attempts[x].req in s.sh.requests
    ensures var a, q := s.sh.attempts[x], s.sh.requests[s.sh.attempts[x].req];
            || (a.status, q.status) == (ASubmitting, RPending)
            || (a.status, q.status) == (ASubmitted, RSubmitted)
            || (a.status, q.status) == (AFailed, RPending)
            || (a.status, q.status) == (AConfirmed, RConfirmed)
            || (a.status, q.status) == (AReverted, RReverted)
    ensures forall y :: y in s.sh.attempts && s.sh.attempts[y].req == s.sh.attempts[x].req ==> y == x
    ensures var a, q := s.sh.attempts[x], s.sh.requests[s.sh.attempts[x].req];
            IsSettled(a) ==>
              && a.hash in s.sh.receipts && a.recorded.Some? && Shows(a.recorded.value, s.sh.receipts[a.hash])
              && (a.status == AConfirmed <==> s.sh.receipts[a.hash].success)
              && (a.status == AReverted <==> !s.sh.receipts[a.hash].success)
              && (q.status == RConfirmed <==> s.sh.receipts[a.hash].success)
              && (q.status == RReverted <==> !s.sh.receipts[a.hash].success)
  {
    InvReachable(s);
    assert AttemptOk(s.sh, x) && RequestOk(s.sh, s.sh.attempts[x].req);
  }

  /** Receipt columns are filled exactly when the history has met the receipt's outcome. */
  lemma RecordedIffOutcomeSeen(s: State, x: AttId)
    requires Reachable(s) && x in s.sh.attempts
    ensures s.sh.attempts[x].req in s.sh.requests
    ensures var log := s.sh.requests[s.sh.attempts[x].req].log;
            s.sh.attempts[x].recorded.Some? <==> RConfirmed in log || RReverted in log
    ensures var a := s.sh.attempts[x];
            a.recorded.Some? ==> a.hash in s.sh.receipts && Shows(a.recorded.value, s.sh.receipts[a.hash])
  {
    InvReachable(s);
    assert AttemptOk(s.sh, x);
    forall T: ReqStatus ensures [RPending, T][1] == T && [RPending, T, RSubmitted][1] == T
                                && [RPending, T, RSubmitted, T][1] == T && [RPending, RSubmitted, T][2] == T {}
  }

  /** Two requests never share a receipt. */
  lemma ReceiptSettlesOneRequest(s: State, x: AttId, y: AttId)
    requires Reachable(s) && x in s.sh.attempts && y in s.sh.attempts
    requires s.sh.attempts[x].hash == s.sh.attempts[y].hash
    ensures x == y && s.sh.attempts[x].req == s.sh.attempts[y].req
  {
    InvReachable(s);
  }

  // ---- Write-ahead

  /** Every accepted transaction has exactly one row, open or settled, never failed, of its own application. */
  lemma AcceptedIsOnRecord(s: State, tx: Tx) returns (x: AttId)
    requires Reachable(s) && IsAccepted(s.sh, tx)
    ensures x in s.sh.attempts && s.sh.attempts[x].hash == tx
    ensures IsOpen(s.sh.attempts[x]) || IsSettled(s.sh.attempts[x])
    ensures s.sh.attempts[x].signer == tx.signer && s.sh.attempts[x].nonce == ToInt64(tx.nonce)
    ensures s.sh.attempts[x].req in s.sh.requests
    ensures tx.signer in SignersOf(s.sh, s.sh.requests[s.sh.attempts[x].req].app)
    ensures tx.call == s.sh.requests[s.sh.attempts[x].req].call
    ensures forall y :: y in s.sh.attempts && s.sh.attempts[y].hash == tx ==> y == x
  {
    InvReachable(s);
    assert Backed(s.sh, tx);
    x :| x in s.sh.attempts && s.sh.attempts[x].hash == tx && s.sh.attempts[x].status != AFailed;
    assert AttemptOk(s.sh, x);
  }

  /** No request ever yields two accepted transactions. */
  lemma OneTransactionPerRequest(s: State, tx1: Tx, tx2: Tx, x1: AttId, x2: AttId)
    requires Reachable(s) && IsAccepted(s.sh, tx1) && IsAccepted(s.sh, tx2)
    requires x1 in s.sh.attempts && s.sh.attempts[x1].hash == tx1
    requires x2 in s.sh.attempts && s.sh.attempts[x2].hash == tx2
    requires s.sh.attempts[x1].req == s.sh.attempts[x2].req
    ensures tx1 == tx2
  {
    InvReachable(s);
  }
}
