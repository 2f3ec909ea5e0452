/** Requests nobody works for any more, and what a restart finds. */
module RelayAbandon {
  import opened Common
  import opened RelayState
  import opened RelaySteps
  import opened RelayInv
  import RelayNonceProof
  import RelayRowProof
  import RelayNotify
  import opened RelayTheorems
  import opened RelayProgress

  /** The request exists and no call in flight is working for it. */
  ghost predicate Abandoned(s: State, r: ReqId) {
    r in s.sh.requests && forall t :: t in s.threads ==> s.threads[t].req != r
  }

  /** No row of the request has a transaction the chain accepted. */
  ghost predicate NothingAccepted(sh: Shared, r: ReqId) {
    forall x :: x in sh.attempts && sh.attempts[x].req == r ==> !IsAccepted(sh, sh.attempts[x].hash)
  }

  /** The attempts of the request are exactly as before. */
  ghost predicate Frozen(sh: Shared, sh': Shared, r: ReqId) {
    && (forall x :: x in sh.attempts && sh.attempts[x].req == r ==>
          x in sh'.attempts && sh'.attempts[x] == sh.attempts[x])
    && (forall x :: x in sh'.attempts && sh'.attempts[x].req == r ==> x in sh.attempts && sh.attempts[x].req == r)
  }

  /** Request ids are fresh, so an abandoned request gets no new call. */
  lemma StaysAbandoned(s: State, e: Step, r: ReqId)
    requires Enabled(s, e) && Abandoned(s, r)
    ensures Abandoned(Apply(s, e), r)
  {
    RelayNotify.GrowsStep(s, e);
    match e
    case Begin(u, q, app, call, notify, o) =>
    case Setup(u, a) =>
      if !a.AInstall? && !a.AReceive? {
        SetupFrame(s, u, a);
      }
    case Sending(u, a) => OtherSending(s, u, a);
    case Closing(u, a) =>
      if !a.AFinish? {
        CloseFrame(s, u, a);
      }
    case Watching(a) => WatchFrame(s, a);
    case Mine(tx, rc) =>
    case CreateApp(app, addrs) =>
    case Crash =>
  }

  lemma AbandonedSending(s: State, t: Tid, a: SendAct, r: ReqId)
    requires RowsOk(s) && CanSending(s, t, a) && s.threads[t].req != r && NothingAccepted(s.sh, r)
    ensures NothingAccepted(DoSending(s, t, a).sh, r) && Frozen(s.sh, DoSending(s, t, a).sh, r)
  {
    assert RowThread(s.sh, s.threads[t]);
    if a.ASend? && a.ok {
      RelayRowProof.AcceptedGrows(s.sh, DoSend(s, t, true).sh, s.threads[t].pc.tx);
    } else {
      RelayNonceProof.SendFrame(s, t, a);
      KeepsForeignAttempts(s, t, a, r);
    }
  }

  /** A call leaves the attempts of other requests alone. */
  lemma KeepsForeignAttempts(s: State, t: Tid, a: SendAct, r: ReqId)
    requires CanSending(s, t, a) && s.threads[t].req != r
    requires a.AMarkFailed? ==> RowThread(s.sh, s.threads[t])
    ensures Frozen(s.sh, DoSending(s, t, a).sh, r)
  {
    match a
    case ATakeNonce =>
    case ASign(ok) =>
    case AInsertAttempt(x, at, o) =>
    case ASend(ok) =>
    case ARewind =>
    case AMarkFailed(o) =>
  }

  lemma AbandonedClosing(s: State, t: Tid, a: CloseAct, r: ReqId)
    requires RowsOk(s) && CanClosing(s, t, a) && s.threads[t].req != r && NothingAccepted(s.sh, r)
    ensures NothingAccepted(DoClosing(s, t, a).sh, r) && Frozen(s.sh, DoClosing(s, t, a).sh, r)
  {
    if a.AMarkSubmitted? {
      assert RowThread(s.sh, s.threads[t]);
    } else if !a.AFinish? {
      CloseFrame(s, t, a);
    }
  }

  lemma AbandonedWatch(s: State, a: WatchAct, r: ReqId)
    requires RowsOk(s) && CanWatch(s, a) && NothingAccepted(s.sh, r)
    ensures NothingAccepted(DoWatch(s, a).sh, r) && Frozen(s.sh, DoWatch(s, a).sh, r)
  {
    WatchFrame(s, a);
    if a.ASettle? {
      AbandonedSettle(s, a.o, r);
    }
  }

  /** What the watcher settles was accepted, so it is not an attempt of this request. */
  lemma AbandonedSettle(s: State, o: Write, r: ReqId)
    requires RowsOk(s) && CanSettle(s) && NothingAccepted(s.sh, r)
    ensures NothingAccepted(DoSettle(s, o).sh, r) && Frozen(s.sh, DoSettle(s, o).sh, r)
  {
    assert IsAccepted(s.sh, s.sh.attempts[s.watcher.att].hash);
    assert s.sh.attempts[s.watcher.att].req != r;
  }

  /** Only broadcasts, final writes and the watcher touch attempts or the chain's accepted transactions. */
  lemma QuietForAttempts(s: State, e: Step)
    requires Enabled(s, e) && !e.Sending? && !e.Closing? && !e.Watching?
    ensures Apply(s, e).sh.attempts == s.sh.attempts && Apply(s, e).sh.accepted == s.sh.accepted
  {
    match e
    case Begin(t, r, app, call, notify, o) =>
    case Setup(t, a) => SetupKeepsRows(s, t, a);
    case Mine(tx, rc) =>
    case CreateApp(app, addrs) =>
    case Crash =>
  }

  /** Nobody but the call of a request gets it accepted or writes its attempt before that. */
  lemma OthersLeaveSilent(s: State, e: Step, r: ReqId)
    requires RowsOk(s) && Enabled(s, e) && NothingAccepted(s.sh, r)
    requires (e.Sending? || e.Closing?) && e.t in s.threads ==> s.threads[e.t].req != r
    ensures NothingAccepted(Apply(s, e).sh, r) && Frozen(s.sh, Apply(s, e).sh, r)
  {
    if e.Sending? {
      AbandonedSending(s, e.t, e.send, r);
    } else if e.Closing? {
      AbandonedClosing(s, e.t, e.close, r);
    } else if e.Watching? {
      AbandonedWatch(s, e.watch, r);
    } else {
      QuietForAttempts(s, e);
    }
  }

  lemma AbandonedStep(s: State, e: Step, r: ReqId)
    requires Inv(s) && Enabled(s, e) && Abandoned(s, r) && NothingAccepted(s.sh, r)
    ensures Abandoned(Apply(s, e), r) && NothingAccepted(Apply(s, e).sh, r) && Frozen(s.sh, Apply(s, e).sh, r)
  {
    StaysAbandoned(s, e, r);
    OthersLeaveSilent(s, e, r);
  }

  /** Once its call is gone with nothing accepted, a request never changes again on chain or in its
      attempts. */
  lemma {:induction false} AbandonedForever(s: State, steps: seq<Step>, r: ReqId)
    requires Inv(s) && IsRun(s, steps) && Abandoned(s, r) && NothingAccepted(s.sh, r)
    ensures Abandoned(After(s, steps), r) && NothingAccepted(After(s, steps).sh, r)
    ensures Frozen(s.sh, After(s, steps).sh, r)
    decreases |steps|
  {
    if steps != [] {
      AbandonedStep(s, steps[0], r);
      InvStep(s, steps[0]);
      AbandonedForever(Apply(s, steps[0]), steps[1..], r);
    }
  }

  // ---- What a restart finds (internal/relay/recovery.go)

  predicate IsStuck(sh: Shared, r: ReqId)
    requires r in sh.requests
  {
    sh.requests[r].status.RPending? && forall x :: x in sh.attempts ==> sh.attempts[x].req != r
  }

  ghost predicate IsInFlight(sh: Shared, r: ReqId) {
    exists x :: x in sh.attempts && sh.attempts[x].req == r && IsOpen(sh.attempts[x])
  }

  ghost predicate HasFailedAttempt(sh: Shared, r: ReqId) {
    exists x :: x in sh.attempts && sh.attempts[x].req == r && sh.attempts[x].status == AFailed
  }

  /** Whatever happens from `s` on, the chain never accepts a transaction for `r`. */
  ghost predicate NeverAccepted(s: State, r: ReqId) {
    forall steps :: IsRun(s, steps) ==> NothingAccepted(After(s, steps).sh, r)
  }

  /** A request nobody works for, without an accepted transaction, never gets one. */
  lemma SilentForever(s: State, r: ReqId)
    requires Reachable(s) && Abandoned(s, r) && NothingAccepted(s.sh, r)
    ensures NeverAccepted(s, r)
  {
    InvReachable(s);
    forall steps | IsRun(s, steps) ensures NothingAccepted(After(s, steps).sh, r) {
      AbandonedForever(s, steps, r);
    }
  }

  /** Right after a restart every unfinished request is listed as stuck, or in flight, or has failed to
      broadcast; exactly one of the three, and in the first and the last nothing is ever accepted. */
  lemma RecoveryTrichotomy(s: State, r: ReqId)
    requires Reachable(s) && r in s.sh.requests
    requires s.sh.requests[r].status == RPending || s.sh.requests[r].status == RSubmitted
    ensures IsStuck(s.sh, r) || IsInFlight(s.sh, r) || HasFailedAttempt(s.sh, r)
    ensures !(IsStuck(s.sh, r) && IsInFlight(s.sh, r)) && !(IsStuck(s.sh, r) && HasFailedAttempt(s.sh, r))
    ensures !(IsInFlight(s.sh, r) && HasFailedAttempt(s.sh, r))
    ensures s.threads == map[] && !IsInFlight(s.sh, r) ==> NeverAccepted(s, r)
  {
    InvReachable(s);
    UnfinishedRows(s.sh, r);
    if s.threads == map[] && !IsInFlight(s.sh, r) {
      SilentForever(s, r);
    }
  }

  lemma UnfinishedRows(sh: Shared, r: ReqId)
    requires DbOk(sh) && r in sh.requests
    requires sh.requests[r].status == RPending || sh.requests[r].status == RSubmitted
    ensures IsStuck(sh, r) || IsInFlight(sh, r) || HasFailedAttempt(sh, r)
    ensures !(IsInFlight(sh, r) && HasFailedAttempt(sh, r))
    ensures !IsInFlight(sh, r) ==> NothingAccepted(sh, r)
  {
    assert RequestOk(sh, r);
    if !NoAttempt(sh, r) {
      var x :| x in sh.attempts && sh.attempts[x].req == r;
      assert AttemptOk(sh, x);
    }
  }
}
