/** Signers are conserved, `Release` never blocks, no call gets stuck and every call ends. */
module RelayProgress {
  import opened Common
  import opened RelayState
  import opened RelaySteps
  import opened RelayInv
  import opened RelayTheorems

  // ---- Conservation of signers

  /** The calls that hold a signer of application `p`. */
  ghost function Holders(s: State, p: AppId): set<Tid> {
    set t | t in s.threads && s.threads[t].app == p && s.threads[t].held.Some?
  }

  ghost function HeldBy(s: State): Tid -> Addr {
    t => if t in s.threads && s.threads[t].held.Some? then s.threads[t].held.value else 0
  }

  ghost function HeldSigners(s: State, p: AppId): set<Addr> {
    set t | t in Holders(s, p) :: HeldBy(s)(t)
  }

  /** The signers of a pool, split into idle ones and held ones. */
  lemma IdleOrHeld(s: State, p: AppId)
    requires PoolsOk(s) && p in s.sh.pools
    ensures Elements(s.sh.pools[p].signers) == Elements(s.sh.pools[p].idle) + HeldSigners(s, p)
    ensures Elements(s.sh.pools[p].idle) !! HeldSigners(s, p)
  {
    var pool := s.sh.pools[p];
    assert PoolShape(s.sh, p);
    forall a | a in pool.signers && a !in pool.idle ensures a in HeldSigners(s, p) {
      var t :| Holds(s, t, a);
      HolderIsOfTheApp(s, p, t, a);
      assert HeldBy(s)(t) == a;
    }
    forall a | a in HeldSigners(s, p) ensures a in pool.signers && a !in pool.idle {
      var t :| t in Holders(s, p) && HeldBy(s)(t) == a;
      assert PoolThread(s.sh, s.threads[t]);
    }
  }

  /** Different calls hold different signers. */
  lemma HoldersDiffer(s: State, p: AppId)
    requires PoolsOk(s)
    ensures |HeldSigners(s, p)| == |Holders(s, p)|
  {
    forall t, u | t in Holders(s, p) && u in Holders(s, p) && HeldBy(s)(t) == HeldBy(s)(u) ensures t == u {
      assert Holds(s, t, HeldBy(s)(t)) && Holds(s, u, HeldBy(s)(u));
    }
    ImageSize(Holders(s, p), HeldBy(s), HeldSigners(s, p));
  }

  /** Idle signers and busy calls always add up to the pool. */
  lemma SignersAreConserved(s: State, p: AppId)
    requires Reachable(s) && p in s.sh.pools
    ensures |s.sh.pools[p].idle| + |Holders(s, p)| == |s.sh.pools[p].signers|
  {
    InvReachable(s);
    PoolSizes(s, p);
  }

  lemma PoolSizes(s: State, p: AppId)
    requires PoolsOk(s) && p in s.sh.pools
    ensures |s.sh.pools[p].idle| + |Holders(s, p)| == |s.sh.pools[p].signers|
  {
    var pool := s.sh.pools[p];
    assert PoolShape(s.sh, p) && Distinct(pool.signers);
    IdleOrHeld(s, p);
    HoldersDiffer(s, p);
    DistinctSize(pool.idle);
    DistinctSize(pool.signers);
  }

  lemma HolderIsOfTheApp(s: State, p: AppId, t: Tid, a: Addr)
    requires PoolsOk(s) && p in s.sh.pools && a in s.sh.pools[p].signers && Holds(s, t, a)
    ensures t in Holders(s, p)
  {
    assert PoolThread(s.sh, s.threads[t]) && PoolShape(s.sh, p) && PoolShape(s.sh, s.threads[t].app);
  }

  /** A returning call finds room in the channel it gives its signer back to. */
  lemma ReleaseNeverBlocks(s: State, t: Tid)
    requires Reachable(s) && CanFinish(s, t) && s.threads[t].held.Some?
    ensures s.threads[t].app in s.sh.pools
    ensures |s.sh.pools[s.threads[t].app].idle| < |s.sh.pools[s.threads[t].app].signers|
  {
    InvReachable(s);
    var p := s.threads[t].app;
    assert PoolThread(s.sh, s.threads[t]);
    SignersAreConserved(s, p);
    assert t in Holders(s, p);
  }

  // ---- Progress

  ghost predicate IsStepOf(e: Step, t: Tid) {
    (e.Setup? || e.Sending? || e.Closing?) && e.t == t
  }

  ghost predicate CanMove(s: State, t: Tid) {
    exists e :: IsStepOf(e, t) && Enabled(s, e) && !(e.Setup? && e.setup.ACancel?)
  }

  /** A call can move by itself unless it waits for a signer and none is idle. */
  lemma StuckOnlyOnEmptyPool(s: State, t: Tid)
    requires Reachable(s) && t in s.threads
    ensures CanMove(s, t) || (s.threads[t].pc.Wait? && s.threads[t].app in s.sh.pools
                              && s.sh.pools[s.threads[t].app].idle == [])
  {
    InvReachable(s);
    var th := s.threads[t];
    assert PoolThread(s.sh, th) && NonceThread(s.sh, th) && RowThread(s.sh, th);
    if th.pc.Snapshot? {
      SnapshotCanMove(s, t);
    } else if th.pc.InsertAttempt? {
      var x := FreshKey(s.sh.attempts);
      assert Enabled(s, Sending(t, AInsertAttempt(x, 0, Fail)));
    } else if th.pc.Wait? {
      if s.sh.pools[th.app].idle != [] {
        assert Enabled(s, Setup(t, AReceive));
      }
    } else {
      MovesOtherwise(s, t);
    }
  }

  lemma MovesOtherwise(s: State, t: Tid)
    requires t in s.threads
    requires PoolThread(s.sh, s.threads[t]) && NonceThread(s.sh, s.threads[t]) && RowThread(s.sh, s.threads[t])
    requires var pc := s.threads[t].pc; !pc.Snapshot? && !pc.InsertAttempt? && !pc.Wait?
    ensures CanMove(s, t)
  {
    var pc := s.threads[t].pc;
    var e :=
      match pc
      case LoadCheck => Setup(t, ALoadCheck)
      case LoadList => Setup(t, ALoadList(true))
      case Hydrate(addrs, done, _) => if done < |addrs| then Setup(t, AHydrate(true)) else Setup(t, AInstall)
      case Lookup => Setup(t, ALookup)
      case Estimate => Setup(t, AEstimate(None))
      case Price(_) => Setup(t, APrice(None))
      case TakeNonce(_, _) => Sending(t, ATakeNonce)
      case SignTx(_) => Sending(t, ASign(true))
      case Send(_, _) => Sending(t, ASend(true))
      case Rewind(_) => Sending(t, ARewind)
      case MarkFailed(_) => Sending(t, AMarkFailed(Ok))
      case MarkSubmitted(_) => Closing(t, AMarkSubmitted(Ok))
      case Reject => Closing(t, AReject(Ok))
      case Enqueue(_, _) => Closing(t, AEnqueue(Ok))
      case _ => Closing(t, AFinish);
    assert Enabled(s, e);
  }

  lemma SnapshotCanMove(s: State, t: Tid)
    requires Inv(s) && t in s.threads && s.threads[t].pc.Snapshot?
    ensures CanMove(s, t)
  {
    var r := s.threads[t].req;
    assert RowThread(s.sh, s.threads[t]);
    var x: Option<AttId> := None;
    if !NoAttempt(s.sh, r) {
      var y :| y in s.sh.attempts && s.sh.attempts[y].req == r;
      x := Some(y);
    }
    assert IsLatestAttempt(s.sh, r, x);
    assert Enabled(s, Closing(t, ASnapshot(x, true)));
  }

  /** There is always an unused row id. */
  lemma FreshKey<T>(m: map<nat, T>) returns (x: nat)
    ensures x !in m
  {
    x := Above(m.Keys);
  }

  lemma {:induction false} Above(ks: set<nat>) returns (x: nat)
    ensures forall k :: k in ks ==> k < x
    decreases |ks|
  {
    if ks == {} {
      x := 0;
    } else {
      var k :| k in ks;
      var rest := ks - {k};
      var y := Above(rest);
      x := y + k + 1;
      assert forall j :: j in ks ==> j == k || j in rest;
    }
  }

  /** No deadlock: whoever waits on an empty pool waits for calls that can move. */
  lemma SomebodyCanMove(s: State, t: Tid) returns (u: Tid)
    requires Reachable(s) && t in s.threads
    ensures u in s.threads && s.threads[u].app == s.threads[t].app && CanMove(s, u)
  {
    StuckOnlyOnEmptyPool(s, t);
    u := t;
    if !CanMove(s, t) {
      var p := s.threads[t].app;
      SignersAreConserved(s, p);
      InvReachable(s);
      assert PoolShape(s.sh, p);
      u :| u in Holders(s, p);
      StuckOnlyOnEmptyPool(s, u);
      assert PoolThread(s.sh, s.threads[u]);
    }
  }

  // ---- Termination

  /** A bound on the statements a call still executes. */
  ghost function Rank(sh: Shared, th: Thread): nat {
    match th.pc
    case LoadCheck => 15 + |SignersOf(sh, th.app)|
    case LoadList => 14 + |SignersOf(sh, th.app)|
    case Hydrate(addrs, done, _) => if done <= |addrs| then 13 + |addrs| - done else 13
    case Lookup => 12
    case Wait => 11
    case Estimate => 10
    case Price(_) => 9
    case TakeNonce(_, _) => 8
    case SignTx(_) => 7
    case InsertAttempt(_) => 6
    case Send(_, _) => 5
    case Rewind(_) => 3
    case MarkFailed(_) => 2
    case MarkSubmitted(_) => 4
    case Reject => 4
    case Snapshot(_) => 3
    case Enqueue(_, _) => 2
    case Finish => 1
  }

  ghost predicate Descends(s: State, s': State, t: Tid) {
    t in s.threads && (t in s'.threads ==> Rank(s'.sh, s'.threads[t]) < Rank(s.sh, s.threads[t]))
  }

  lemma SetupDescends(s: State, t: Tid, a: SetupAct)
    requires CanSetup(s, t, a) && PoolThread(s.sh, s.threads[t])
    ensures Descends(s, DoSetup(s, t, a), t)
  {
    match a
    case ALoadCheck =>
    case ALoadList(ok) =>
    case AHydrate(ok) =>
    case AInstall =>
    case ALookup =>
    case AReceive =>
    case ACancel =>
    case AEstimate(est) =>
    case APrice(price) =>
  }

  lemma SendingDescends(s: State, t: Tid, a: SendAct)
    requires CanSending(s, t, a)
    ensures Descends(s, DoSending(s, t, a), t)
  {
    match a
    case ATakeNonce =>
    case ASign(ok) =>
    case AInsertAttempt(x, at, o) =>
    case ASend(ok) =>
    case ARewind =>
    case AMarkFailed(o) =>
  }

  lemma ClosingDescends(s: State, t: Tid, a: CloseAct)
    requires CanClosing(s, t, a)
    ensures Descends(s, DoClosing(s, t, a), t)
  {
    match a
    case AMarkSubmitted(o) =>
    case AReject(o) =>
    case ASnapshot(x, ok) =>
    case AEnqueue(o) =>
    case AFinish =>
  }

  /** Each statement a call executes brings it nearer to its return. */
  lemma OwnStepDescends(s: State, e: Step, t: Tid)
    requires PoolsOk(s) && Enabled(s, e) && IsStepOf(e, t)
    ensures Descends(s, Apply(s, e), t)
  {
    match e
    case Setup(u, a) =>
      assert PoolThread(s.sh, s.threads[t]);
      SetupDescends(s, t, a);
    case Sending(u, a) => SendingDescends(s, t, a);
    case Closing(u, a) => ClosingDescends(s, t, a);
  }

  /** Nobody else's step takes a call back. */
  lemma OtherStepsLeaveRank(s: State, e: Step, t: Tid)
    requires PoolsOk(s) && Enabled(s, e) && !IsStepOf(e, t) && !e.Crash? && t in s.threads
    ensures t in Apply(s, e).threads && Apply(s, e).threads[t] == s.threads[t]
    ensures Rank(Apply(s, e).sh, s.threads[t]) == Rank(s.sh, s.threads[t])
  {
    assert PoolThread(s.sh, s.threads[t]);
    match e
    case Begin(u, r, app, call, notify, o) =>
    case Setup(u, a) =>
      if !a.AInstall? && !a.AReceive? {
        SetupFrame(s, u, a);
      }
    case Sending(u, a) => OtherSending(s, u, a);
    case Closing(u, a) =>
      if !a.AFinish? {
        CloseFrame(s, u, a);
      }
    case Watching(a) => WatchFrame(s, a);
    case Mine(tx, rc) =>
    case CreateApp(app, addrs) =>
  }

  lemma OtherSending(s: State, u: Tid, a: SendAct)
    requires CanSending(s, u, a)
    ensures Moved(s, DoSending(s, u, a), u) && DoSending(s, u, a).sh.signers == s.sh.signers
  {
    match a
    case ATakeNonce =>
    case ASign(ok) =>
    case AInsertAttempt(x, at, o) =>
    case ASend(ok) =>
    case ARewind =>
    case AMarkFailed(o) =>
  }

  ghost function OwnSteps(steps: seq<Step>, t: Tid): nat {
    if steps == [] then 0 else (if IsStepOf(steps[0], t) then 1 else 0) + OwnSteps(steps[1..], t)
  }

  /** The call `t` is neither killed by a crash nor its id given to a new call. */
  ghost predicate Undisturbed(steps: seq<Step>, t: Tid) {
    forall i :: 0 <= i < |steps| ==> !steps[i].Crash? && !(steps[i].Begin? && steps[i].t == t)
  }

  lemma {:induction false} OwnStepsBounded(s: State, steps: seq<Step>, t: Tid)
    requires Inv(s) && IsRun(s, steps) && Undisturbed(steps, t)
    ensures OwnSteps(steps, t) <= if t in s.threads then Rank(s.sh, s.threads[t]) else 0
    decreases |steps|
  {
    if steps != [] {
      var e := steps[0];
      InvStep(s, e);
      OwnStepsBounded(Apply(s, e), steps[1..], t);
      if IsStepOf(e, t) {
        OwnStepDescends(s, e, t);
      } else if t in s.threads {
        OtherStepsLeaveRank(s, e, t);
      } else {
        StaysAway(s, e, t);
      }
    }
  }

  lemma StaysAway(s: State, e: Step, t: Tid)
    requires Enabled(s, e) && !IsStepOf(e, t) && !(e.Begin? && e.t == t) && t !in s.threads
    ensures t !in Apply(s, e).threads
  {
    match e
    case Begin(u, r, app, call, notify, o) =>
    case Setup(u, a) =>
      if !a.AInstall? && !a.AReceive? {
        SetupFrame(s, u, a);
      }
    case Sending(u, a) => OtherSending(s, u, a);
    case Closing(u, a) =>
      if !a.AFinish? {
        CloseFrame(s, u, a);
      }
    case Watching(a) => WatchFrame(s, a);
    case Mine(tx, rc) =>
    case CreateApp(app, addrs) =>
    case Crash =>
  }

  /** From its request row on, a call executes at most 15 statements plus one per signer of its
      application, whatever the others do: it returns, or it waits for a signer. */
  lemma EverySubmitEnds(s: State, steps: seq<Step>, t: Tid)
    requires Reachable(s) && t in s.threads && IsRun(s, steps) && Undisturbed(steps, t)
    ensures OwnSteps(steps, t) <= 15 + |SignersOf(s.sh, s.threads[t].app)|
  {
    InvReachable(s);
    RankBound(s, t);
    OwnStepsBounded(s, steps, t);
  }

  lemma RankBound(s: State, t: Tid)
    requires PoolsOk(s) && t in s.threads
    ensures Rank(s.sh, s.threads[t]) <= 15 + |SignersOf(s.sh, s.threads[t].app)|
  {
    assert PoolThread(s.sh, s.threads[t]);
  }
}
