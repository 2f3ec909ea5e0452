/** One `Submit` call among others: what its own statements and the steps of everybody else do to it. */
module RelayCall {
  import opened Common
  import opened RelayState
  import opened RelaySteps
  import opened RelayInv
  import opened RelayTheorems
  import opened RelayProgress
  import opened RelayAbandon
  import opened RelayNotify
  import RelayRowProof
  import RelayNonceProof

  // ---- What others do to a call

  /** A step that leaves the call `t` alone. */
  predicate IsForeign(e: Step, t: Tid) {
    !e.Crash? && !((e.Begin? || e.Setup? || e.Sending? || e.Closing?) && e.t == t)
  }

  /** The state after those of the given steps that can be taken and are not the call's own. */
  ghost function AfterOthers(s: State, env: seq<Step>, t: Tid): State
    decreases |env|
  {
    if env == [] then s
    else
      var n := |env| - 1;
      AfterOther(AfterOthers(s, env[..n], t), env[n], t)
  }

  ghost function AfterOther(s: State, e: Step, t: Tid): State {
    if IsForeign(e, t) && Enabled(s, e) then Apply(s, e) else s
  }

  lemma OneMoreOther(s: State, env: seq<Step>, i: nat, t: Tid)
    requires i < |env|
    ensures AfterOthers(s, env[..i + 1], t) == AfterOther(AfterOthers(s, env[..i], t), env[i], t)
  {
    assert env[..i + 1][..i] == env[..i];
  }

  /** Between two statements of a call any step can happen but a crash and the call's own. */
  lemma AnythingCanIntervene(s: State, e: Step, t: Tid)
    requires Enabled(s, e) && !e.Crash? && !IsStepOf(e, t) && !(e.Begin? && e.t == t)
    ensures AfterOthers(s, [e], t) == Apply(s, e)
  {
    assert [e][..0] == [];
  }

  /** Others neither move the call `t` nor send or reject its request. */
  lemma ForeignStep(s: State, e: Step, t: Tid)
    requires Inv(s) && Enabled(s, e) && IsForeign(e, t) && t in s.threads
    ensures t in Apply(s, e).threads && Apply(s, e).threads[t] == s.threads[t]
    ensures Quiet(s.sh, Apply(s, e).sh, s.threads[t].req) && Still(s.sh, Apply(s, e).sh, s.threads[t].req)
  {
    OtherStepsLeaveRank(s, e, t);
    ForeignRejection(s, e, t);
    if NothingAccepted(s.sh, s.threads[t].req) {
      OthersLeaveSilent(s, e, s.threads[t].req);
      FrozenIsSame(s.sh, Apply(s, e).sh, s.threads[t].req);
    }
  }

  lemma ForeignRejection(s: State, e: Step, t: Tid)
    requires OwnersOk(s) && Enabled(s, e) && IsForeign(e, t) && t in s.threads
    ensures IsRejected(Apply(s, e).sh, s.threads[t].req) ==> IsRejected(s.sh, s.threads[t].req)
  {
    assert RowThread(s.sh, s.threads[t]);
    match e
    case Begin(u, q, app, call, notify, o) =>
    case Setup(u, a) => SetupKeepsRows(s, u, a);
    case Sending(u, a) => SendingKeepsRequests(s, u, a);
    case Closing(u, a) => ForeignClosing(s, u, a, s.threads[t].req);
    case Watching(a) => WatchFrame(s, a);
    case Mine(tx, rc) =>
    case CreateApp(app, addrs) =>
  }

  lemma SendingKeepsRequests(s: State, t: Tid, a: SendAct)
    requires CanSending(s, t, a)
    ensures DoSending(s, t, a).sh.requests == s.sh.requests
  {
    match a
    case ATakeNonce =>
    case ASign(ok) =>
    case AInsertAttempt(x, at, o) =>
    case ASend(ok) =>
    case ARewind =>
    case AMarkFailed(o) =>
  }

  lemma ForeignClosing(s: State, t: Tid, a: CloseAct, r: ReqId)
    requires CanClosing(s, t, a) && (a.AReject? ==> s.threads[t].req != r)
    ensures IsRejected(DoClosing(s, t, a).sh, r) ==> IsRejected(s.sh, r)
  {
    if !a.AFinish? {
      CloseFrame(s, t, a);
    }
  }

  // ---- What one step of the call changes

  /** Accepted transactions stay accepted. */
  ghost predicate AcceptedStays(sh: Shared, sh': Shared) {
    forall tx {:trigger IsAccepted(sh', tx)} :: IsAccepted(sh, tx) ==> IsAccepted(sh', tx)
  }

  /** The same call for the same request, with nothing on record lost. */
  ghost predicate Onward(s: State, s': State, t: Tid) {
    && t in s.threads && t in s'.threads
    && s'.threads[t].app == s.threads[t].app && s'.threads[t].req == s.threads[t].req
    && s'.threads[t].call == s.threads[t].call
    && Grows(s.sh, s'.sh) && AcceptedStays(s.sh, s'.sh)
  }

  ghost predicate IsRejected(sh: Shared, r: ReqId) {
    r in sh.requests && RRejected in sh.requests[r].log
  }

  /** The request `r` was neither sent nor rejected. */
  ghost predicate Quiet(sh: Shared, sh': Shared, r: ReqId) {
    && (NothingAccepted(sh, r) ==> NothingAccepted(sh', r))
    && (IsRejected(sh', r) ==> IsRejected(sh, r))
  }

  /** The attempts of a request. */
  ghost function OwnAttempts(sh: Shared, r: ReqId): map<AttId, Attempt> {
    map x | x in sh.attempts && sh.attempts[x].req == r :: sh.attempts[x]
  }

  lemma FrozenIsSame(sh: Shared, sh': Shared, r: ReqId)
    requires Frozen(sh, sh', r)
    ensures OwnAttempts(sh', r) == OwnAttempts(sh, r)
  {
  }

  /** If nothing is accepted for `r`, its attempts are as they were. */
  ghost predicate Still(sh: Shared, sh': Shared, r: ReqId) {
    NothingAccepted(sh, r) ==> NothingAccepted(sh', r) && OwnAttempts(sh', r) == OwnAttempts(sh, r)
  }

  lemma StillIfSame(sh: Shared, sh': Shared, r: ReqId)
    requires sh'.attempts == sh.attempts && sh'.accepted == sh.accepted
    ensures Still(sh, sh', r)
  {
  }

  /** No attempt, or one with the given status and no other. */
  ghost predicate IsLeft(own: map<AttId, Attempt>, left: Option<AttStatus>) {
    match left
    case None => own == map[]
    case Some(st) => exists x :: own.Keys == {x} && own[x].status == st
  }

  ghost predicate AttemptsAre(sh: Shared, r: ReqId, left: Option<AttStatus>) {
    IsLeft(OwnAttempts(sh, r), left)
  }

  /** Before `insertAttempt`, and when it gives up without, a call has no attempt. */
  lemma NoAttemptYet(s: State, t: Tid)
    requires Reachable(s) && t in s.threads && BeforeAttempt(s.threads[t].pc)
    ensures NoAttempt(s.sh, s.threads[t].req) && AttemptsAre(s.sh, s.threads[t].req, None)
  {
    InvReachable(s);
    assert RowThread(s.sh, s.threads[t]);
  }

  /** `markAttemptStatus(failed)` closes the one attempt of the call unless the write fails. */
  lemma MarkFailedLeaves(s: State, t: Tid, o: Write)
    requires Reachable(s) && t in s.threads && s.threads[t].pc.MarkFailed?
    ensures CanMarkFailed(s, t)
    ensures AttemptsAre(DoMarkFailed(s, t, o).sh, s.threads[t].req, Some(if o.Fail? then ASubmitting else AFailed))
  {
    InvReachable(s);
    assert RowThread(s.sh, s.threads[t]);
    var sh', x := DoMarkFailed(s, t, o).sh, s.threads[t].pc.att;
    assert x in OwnAttempts(s.sh, s.threads[t].req);
    assert OwnAttempts(sh', s.threads[t].req).Keys == {x};
  }

  lemma GrowsTransitive(a: Shared, b: Shared, c: Shared)
    requires Grows(a, b) && Grows(b, c)
    ensures Grows(a, c)
  {
  }

  lemma OnwardTransitive(a: State, b: State, c: State, t: Tid)
    requires Onward(a, b, t) && Onward(b, c, t)
    ensures Onward(a, c, t)
  {
    GrowsTransitive(a.sh, b.sh, c.sh);
    forall tx | IsAccepted(a.sh, tx) ensures IsAccepted(c.sh, tx) {
      assert IsAccepted(b.sh, tx);
    }
  }

  lemma AcceptedStep(s: State, e: Step)
    requires Enabled(s, e)
    ensures AcceptedStays(s.sh, Apply(s, e).sh)
  {
    match e
    case Begin(u, q, app, call, notify, o) =>
    case Setup(u, a) => SetupKeepsRows(s, u, a);
    case Sending(u, a) =>
      if a.ASend? && a.ok {
        RelayRowProof.AcceptedGrows(s.sh, DoSend(s, u, true).sh, s.threads[u].pc.tx);
      } else {
        RelayNonceProof.SendFrame(s, u, a);
      }
    case Closing(u, a) => CloseKeepsChain(s, u, a);
    case Watching(a) => WatchFrame(s, a);
    case Mine(tx, rc) =>
    case CreateApp(app, addrs) =>
    case Crash =>
  }

  /** The statements that decide a call: an accepted broadcast, a rejection, the return. */
  predicate IsDecisive(e: Step) {
    (e.Sending? && e.send.ASend? && e.send.ok) || (e.Closing? && (e.close.AReject? || e.close.AFinish?))
  }

  lemma OwnQuiet(s: State, e: Step, t: Tid)
    requires RowsOk(s) && Enabled(s, e) && IsStepOf(e, t) && !IsDecisive(e)
    ensures Quiet(s.sh, Apply(s, e).sh, s.threads[t].req)
  {
    match e
    case Setup(u, a) => SetupKeepsRows(s, u, a);
    case Sending(u, a) =>
      RelayNonceProof.SendFrame(s, u, a);
      SendingKeepsRequests(s, u, a);
      SendingQuiet(s, u, a);
    case Closing(u, a) =>
      ForeignClosing(s, u, a, s.threads[t].req);
      if a.AMarkSubmitted? {
        assert RowThread(s.sh, s.threads[t]);
      } else {
        CloseFrame(s, u, a);
      }
  }

  lemma SendingQuiet(s: State, t: Tid, a: SendAct)
    requires DbOk(s.sh) && CanSending(s, t, a)
    requires DoSending(s, t, a).sh.accepted == s.sh.accepted && DoSending(s, t, a).sh.requests == s.sh.requests
    ensures Quiet(s.sh, DoSending(s, t, a).sh, s.threads[t].req)
  {
    match a
    case ATakeNonce =>
    case ASign(ok) =>
    case AInsertAttempt(x, at, o) =>
      if !o.Fail? {
        assert !Backed(s.sh, s.threads[t].pc.tx);
      }
    case ASend(ok) =>
    case ARewind =>
    case AMarkFailed(o) =>
  }

  lemma OwnStays(s: State, e: Step, t: Tid)
    requires Enabled(s, e) && IsStepOf(e, t) && !(e.Closing? && e.close.AFinish?)
    ensures Onward(s, Apply(s, e), t)
  {
    GrowsStep(s, e);
    AcceptedStep(s, e);
    match e
    case Setup(u, a) =>
      if !a.AInstall? && !a.AReceive? {
        SetupFrame(s, u, a);
      }
    case Sending(u, a) => OtherSending(s, u, a);
    case Closing(u, a) => CloseFrame(s, u, a);
  }

  /** A request id not yet in use has neither an attempt nor a call. */
  lemma NewRequestIsSilent(s: State, r: ReqId)
    requires Reachable(s) && r !in s.sh.requests
    ensures NothingAccepted(s.sh, r) && NoAttempt(s.sh, r) && forall t :: t in s.threads ==> s.threads[t].req != r
  {
    InvReachable(s);
    forall t | t in s.threads ensures s.threads[t].req != r {
      assert RowThread(s.sh, s.threads[t]);
    }
    forall x | x in s.sh.attempts ensures s.sh.attempts[x].req != r {
      assert AttemptOk(s.sh, x);
    }
  }

  /** A request row whose insert was not acknowledged is nobody's and never sent. */
  lemma BeginStep(s: State, e: Step)
    requires Reachable(s) && Enabled(s, e) && e.Begin?
    ensures Reachable(Apply(s, e)) && Grows(s.sh, Apply(s, e).sh)
    ensures e.o.Lost? ==> Abandoned(Apply(s, e), e.r) && NeverAccepted(Apply(s, e), e.r)
    ensures AttemptsAre(Apply(s, e).sh, e.r, None)
  {
    ReachableStep(s, e);
    GrowsStep(s, e);
    NewRequestIsSilent(s, e.r);
    assert OwnAttempts(Apply(s, e).sh, e.r) == map[];
    if e.o.Lost? {
      SilentForever(Apply(s, e), e.r);
    }
  }

  /** Attempt `x` of request `r` carries `tx`, and the chain accepted it. */
  ghost predicate IsSent(sh: Shared, r: ReqId, x: AttId, tx: Tx) {
    && r in sh.requests && x in sh.attempts && sh.attempts[x].req == r && sh.attempts[x].hash == tx
    && IsAccepted(sh, tx)
  }

  lemma SentStays(sh: Shared, sh': Shared, r: ReqId, x: AttId, tx: Tx)
    requires IsSent(sh, r, x, tx) && Grows(sh, sh') && AcceptedStays(sh, sh')
    ensures IsSent(sh', r, x, tx)
  {
  }

  lemma SentBySigner(s: State, r: ReqId, x: AttId, tx: Tx)
    requires Reachable(s) && IsSent(s.sh, r, x, tx)
    ensures tx.signer in SignersOf(s.sh, s.sh.requests[r].app) && tx.call == s.sh.requests[r].call
  {
    InvReachable(s);
    assert AttemptOk(s.sh, x);
  }

  lemma SentIsAccepted(s: State, r: ReqId, x: AttId, tx: Tx)
    requires IsSent(s.sh, r, x, tx)
    ensures !NeverAccepted(s, r)
  {
    assert IsRun(s, []) && !NothingAccepted(After(s, []).sh, r);
  }

  /** The call `th`, in flight in `s0`, has returned; nobody works for its request any more. */
  ghost predicate Over(s0: State, s: State, th: Thread) {
    && Grows(s0.sh, s.sh) && AcceptedStays(s0.sh, s.sh) && Quiet(s0.sh, s.sh, th.req) && Abandoned(s, th.req)
    && s.sh.requests[th.req].app == th.app && s.sh.requests[th.req].call == th.call
  }

  lemma OverTransitive(s0: State, s1: State, s2: State, t: Tid)
    requires Onward(s0, s1, t) && Over(s1, s2, s1.threads[t])
    ensures Grows(s0.sh, s2.sh) && AcceptedStays(s0.sh, s2.sh)
  {
    GrowsTransitive(s0.sh, s1.sh, s2.sh);
    forall tx | IsAccepted(s0.sh, tx) ensures IsAccepted(s2.sh, tx) {
      assert IsAccepted(s1.sh, tx);
    }
  }

  lemma LogStays(sh: Shared, sh': Shared, r: ReqId, st: ReqStatus)
    requires Grows(sh, sh') && r in sh.requests && st in sh.requests[r].log
    ensures st in sh'.requests[r].log
  {
    var log := sh.requests[r].log;
    var i :| 0 <= i < |log| && log[i] == st;
    assert sh'.requests[r].log[i] == st;
  }

  /** The history of a request that was never sent. */
  function RefusedLog(rejected: bool): seq<ReqStatus> {
    if rejected then [RPending, RRejected] else [RPending]
  }

  lemma SilentLog(s: State, r: ReqId)
    requires Reachable(s) && r in s.sh.requests && NothingAccepted(s.sh, r)
    ensures s.sh.requests[r].log == RefusedLog(IsRejected(s.sh, r))
  {
    InvReachable(s);
    assert RequestOk(s.sh, r);
    if !NoAttempt(s.sh, r) {
      var x :| x in s.sh.attempts && s.sh.attempts[x].req == r;
      assert AttemptOk(s.sh, x);
    }
  }

  lemma RejectStep(s: State, t: Tid, o: Write)
    requires Reachable(s) && t in s.threads && s.threads[t].pc.Reject?
    ensures CanReject(s, t)
    ensures var s', r := Apply(s, Closing(t, AReject(o))), s.threads[t].req;
            && Reachable(s') && Onward(s, s', t) && s'.threads[t].pc == (if o.Ok? then Snapshot(true) else Finish)
            && (NothingAccepted(s.sh, r) ==> NothingAccepted(s'.sh, r))
            && (if o.Fail? then s'.sh == s.sh else IsRejected(s'.sh, r))
  {
    OwnRequestExists(s, t);
    ReachableStep(s, Closing(t, AReject(o)));
    OwnStays(s, Closing(t, AReject(o)), t);
    var log := s.sh.requests[s.threads[t].req].log;
    assert !o.Fail? ==> Apply(s, Closing(t, AReject(o))).sh.requests[s.threads[t].req].log == log + [RRejected];
  }

  lemma StartsSilent(s: State, t: Tid)
    requires Reachable(s) && t in s.threads && s.threads[t].pc.LoadCheck?
    ensures NothingAccepted(s.sh, s.threads[t].req) && !IsRejected(s.sh, s.threads[t].req)
  {
    InvReachable(s);
    assert RowThread(s.sh, s.threads[t]);
  }

  /** The signer is the last in the idle queue of its pool. */
  ghost predicate IsBack(sh: Shared, app: AppId, a: Addr) {
    app in sh.pools && sh.pools[app].idle != [] && sh.pools[app].idle[|sh.pools[app].idle| - 1] == a
  }

  lemma SignerIsBack(s: State, t: Tid)
    requires Reachable(s) && CanFinish(s, t)
    ensures s.threads[t].held.Some? ==>
              IsBack(Apply(s, Closing(t, AFinish)).sh, s.threads[t].app, s.threads[t].held.value)
  {
    InvReachable(s);
    assert PoolThread(s.sh, s.threads[t]);
  }

  lemma FinishStep(s: State, t: Tid)
    requires Reachable(s) && CanFinish(s, t)
    ensures var s' := Apply(s, Closing(t, AFinish)); Reachable(s') && t !in s'.threads && Over(s, s', s.threads[t])
  {
    InvReachable(s);
    ReachableStep(s, Closing(t, AFinish));
    assert RowThread(s.sh, s.threads[t]);
  }

  lemma OwnRequestExists(s: State, t: Tid)
    requires Reachable(s) && t in s.threads
    ensures s.threads[t].req in s.sh.requests
  {
    InvReachable(s);
    assert RowThread(s.sh, s.threads[t]);
  }

  lemma RowsToMark(s: State, t: Tid)
    requires Reachable(s) && t in s.threads && s.threads[t].pc.MarkSubmitted?
    ensures CanMarkSubmitted(s, t) && RSubmitted !in s.sh.requests[s.threads[t].req].log
  {
    InvReachable(s);
    assert RowThread(s.sh, s.threads[t]);
  }

  lemma LatestIsUnique(s: State, t: Tid, x: Option<AttId>)
    requires Reachable(s) && t in s.threads && s.threads[t].pc.Snapshot?
    requires if x.Some? then x.value in s.sh.attempts && s.sh.attempts[x.value].req == s.threads[t].req
             else NoAttempt(s.sh, s.threads[t].req)
    ensures CanSnapshot(s, t, x)
  {
    InvReachable(s);
    assert RowThread(s.sh, s.threads[t]);
  }

  /** The call is where it was in `s0` or further on, and nothing was accepted for its request since. */
  ghost predicate Running(s0: State, w: State, t: Tid) {
    Reachable(w) && Onward(s0, w, t) && Quiet(s0.sh, w.sh, w.threads[t].req)
  }

  function AfterCheckout(call: Call): Pc {
    if call.gasLimit == 0 then Estimate else Price(call.gasLimit)
  }

  /** After a successful `Load` the pool is there: `ErrAppNotLoaded` cannot happen in `Submit`. */
  lemma LoadedAtLookup(s: State, t: Tid)
    requires Reachable(s) && CanLookup(s, t)
    ensures s.threads[t].app in s.sh.pools
  {
    InvReachable(s);
    assert PoolThread(s.sh, s.threads[t]);
  }

  lemma LoadedAtWait(s: State, t: Tid)
    requires Reachable(s) && t in s.threads && s.threads[t].pc.Wait?
    ensures s.threads[t].app in s.sh.pools
  {
    InvReachable(s);
    assert PoolThread(s.sh, s.threads[t]);
  }

  lemma HolderKnowsNonce(s: State, t: Tid)
    requires Reachable(s) && t in s.threads && NeedsSigner(s.threads[t].pc)
    ensures HoldsKnown(s, t)
  {
    InvReachable(s);
    assert PoolThread(s.sh, s.threads[t]) && NonceThread(s.sh, s.threads[t]);
  }

  lemma RowToFail(s: State, t: Tid)
    requires Reachable(s) && t in s.threads && s.threads[t].pc.MarkFailed?
    ensures CanMarkFailed(s, t)
  {
    InvReachable(s);
    assert RowThread(s.sh, s.threads[t]);
  }

  /** `tx` is accepted, is the call's own, and stands in the attempt row the call is about to mark. */
  ghost predicate IsOnRecord(sh: Shared, th: Thread, tx: Tx) {
    && th.pc.MarkSubmitted? && th.pc.att in sh.attempts
    && sh.attempts[th.pc.att].req == th.req && sh.attempts[th.pc.att].hash == tx
    && IsAccepted(sh, tx) && tx.call == th.call && th.held == Some(tx.signer)
  }

  lemma SendStep(s: State, t: Tid)
    requires Reachable(s) && CanSend(s, t)
    ensures var s' := Apply(s, Sending(t, ASend(true)));
            && Reachable(s') && Onward(s, s', t) && IsOnRecord(s'.sh, s'.threads[t], s.threads[t].pc.tx)
  {
    var e := Sending(t, ASend(true));
    InvReachable(s);
    assert PoolThread(s.sh, s.threads[t]) && NonceThread(s.sh, s.threads[t]) && RowThread(s.sh, s.threads[t]);
    ReachableStep(s, e);
    OwnStays(s, e, t);
    RelayRowProof.AcceptedGrows(s.sh, Apply(s, e).sh, s.threads[t].pc.tx);
  }

  lemma OwnOnward(s: State, e: Step, t: Tid)
    requires Reachable(s) && Enabled(s, e) && IsStepOf(e, t) && !IsDecisive(e)
    ensures var s' := Apply(s, e);
            Reachable(s') && Onward(s, s', t) && Quiet(s.sh, s'.sh, s.threads[t].req)
  {
    InvReachable(s);
    ReachableStep(s, e);
    OwnStays(s, e, t);
    OwnQuiet(s, e, t);
  }

  lemma ForeignOnward(s: State, e: Step, t: Tid)
    requires Reachable(s) && Enabled(s, e) && IsForeign(e, t) && t in s.threads
    ensures var s' := Apply(s, e);
            && Reachable(s') && Onward(s, s', t) && s'.threads[t] == s.threads[t]
            && Quiet(s.sh, s'.sh, s.threads[t].req) && Still(s.sh, s'.sh, s.threads[t].req)
  {
    InvReachable(s);
    ReachableStep(s, e);
    ForeignStep(s, e, t);
    GrowsStep(s, e);
    AcceptedStep(s, e);
  }
}
