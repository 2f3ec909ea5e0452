/** Every step keeps the in-memory nonces in step with the chain. */
module RelayNonceProof {
  import opened Common
  import opened RelayState
  import opened RelaySteps
  import opened RelayInv
  import opened RelayPoolProof
  import opened Signer

  /** Pools, nonces and chain are as before; threads that changed still agree with them. */
  lemma NoncesSame(s: State, s': State)
    requires NoncesOk(s)
    requires SameNonceView(s.sh, s'.sh) && s'.sh.pools == s.sh.pools
    requires s'.threads.Keys == s.threads.Keys
    requires forall u :: u in s.threads ==> s'.threads[u] == s.threads[u] || NonceThread(s'.sh, s'.threads[u])
    ensures NoncesOk(s')
  {
    forall p | p in s'.sh.pools ensures IdleNonces(s'.sh, p) {
      assert IdleNonces(s.sh, p);
    }
    forall u | u in s'.threads ensures NonceThread(s'.sh, s'.threads[u]) {
      assert NonceThread(s.sh, s.threads[u]);
    }
  }

  ghost predicate SameNonceView(sh: Shared, sh': Shared) {
    sh'.nonces == sh.nonces && sh'.start == sh.start && sh'.accepted == sh.accepted
  }

  /** What holds of a held signer's counter depends on three phases only. */
  ghost predicate SamePhase(pc: Pc, pc': Pc) {
    && (pc'.Rewind? <==> pc.Rewind?)
    && !pc.SignTx? && !pc.InsertAttempt? && !pc.Send? && !pc'.SignTx? && !pc'.InsertAttempt? && !pc'.Send?
    && !pc'.Hydrate?
  }

  lemma NoncesQuiet(s: State, s': State, t: Tid)
    requires NoncesOk(s)
    requires SameNonceView(s.sh, s'.sh) && s'.sh.pools == s.sh.pools && Moved(s, s', t)
    requires SamePhase(s.threads[t].pc, s'.threads[t].pc)
    ensures NoncesOk(s')
  {
    assert NonceThread(s.sh, s.threads[t]);
    NoncesSame(s, s');
  }

  lemma NoncesBegin(s: State, t: Tid, r: ReqId, app: AppId, call: Call, notify: bool, o: Write)
    requires NoncesOk(s) && CanBegin(s, t, r, app, o)
    ensures NoncesOk(DoBegin(s, t, r, app, call, notify, o))
  {
    var s' := DoBegin(s, t, r, app, call, notify, o);
    var keep := s'.(threads := s.threads);
    NoncesSame(s, keep);
    forall p | p in s'.sh.pools ensures IdleNonces(s'.sh, p) {
      assert IdleNonces(keep.sh, p);
    }
    forall u | u in s'.threads ensures NonceThread(s'.sh, s'.threads[u]) {
      assert u in keep.threads ==> NonceThread(keep.sh, keep.threads[u]);
    }
  }

  lemma NoncesHydrate(s: State, t: Tid, ok: bool)
    requires NoncesOk(s) && PoolsOk(s) && CanHydrate(s, t)
    ensures NoncesOk(DoHydrate(s, t, ok))
  {
    assert NonceThread(s.sh, s.threads[t]) && PoolThread(s.sh, s.threads[t]);
    NoncesSame(s, DoHydrate(s, t, ok));
  }

  ghost predicate Agree(sh: Shared, sh': Shared, a: Addr) {
    && (a in sh.nonces ==> a in sh'.nonces && sh'.nonces[a] == sh.nonces[a])
    && PendingNonce(sh', a) == PendingNonce(sh, a)
  }

  /** A thread keeps its nonce facts when its signer, or what it has hydrated, is left alone. */
  lemma NonceThreadStable(sh: Shared, sh': Shared, th: Thread)
    requires NonceThread(sh, th)
    requires th.held.Some? ==> Agree(sh, sh', th.held.value)
    requires th.pc.Hydrate? && th.app !in sh'.pools ==>
               th.app !in sh.pools && forall a :: a in th.pc.got ==> PendingNonce(sh', a) == PendingNonce(sh, a)
    ensures NonceThread(sh', th)
  {
  }

  /** The winning `Load` installs counters that are not stale, and spoils nobody else's. */
  lemma NoncesInstall(s: State, t: Tid)
    requires NoncesOk(s) && CanInstall(s, t)
    requires PoolThread(s.sh, s.threads[t])
    requires s.threads[t].app !in s.sh.pools && Unseen(s, s.threads[t].pc.got)
    ensures NoncesOk(DoInstall(s, t))
  {
    var s' := DoInstall(s, t);
    var th := s.threads[t];
    assert NonceThread(s.sh, th);
    forall a ensures PendingNonce(s'.sh, a) == PendingNonce(s.sh, a) {}
    forall p | p in s'.sh.pools ensures IdleNonces(s'.sh, p) {
      if p == th.app {
        assert th.pc.addrs[..th.pc.done] == th.pc.addrs;
      } else {
        assert IdleNonces(s.sh, p);
      }
    }
    forall u | u in s'.threads ensures NonceThread(s'.sh, s'.threads[u]) {
      assert NonceThread(s.sh, s.threads[u]);
      if u != t {
        NonceThreadStable(s.sh, s'.sh, s.threads[u]);
      }
    }
  }

  lemma NoncesReceive(s: State, t: Tid)
    requires NoncesOk(s) && CanReceive(s, t)
    ensures NoncesOk(DoReceive(s, t))
  {
    var s' := DoReceive(s, t);
    assert IdleNonces(s.sh, s.threads[t].app);
    forall p | p in s'.sh.pools ensures IdleNonces(s'.sh, p) {
      assert IdleNonces(s.sh, p);
    }
    forall u | u in s'.threads ensures NonceThread(s'.sh, s'.threads[u]) {
      assert NonceThread(s.sh, s.threads[u]);
    }
  }

  lemma NoncesSetup(s: State, t: Tid, a: SetupAct)
    requires NoncesOk(s) && PoolsOk(s) && CanSetup(s, t, a)
    ensures NoncesOk(DoSetup(s, t, a))
  {
    if a.AHydrate? {
      NoncesHydrate(s, t, a.ok);
    } else if a.AInstall? {
      assert PoolThread(s.sh, s.threads[t]);
      if s.threads[t].app in s.sh.pools {
        NoncesSame(s, DoInstall(s, t));
      } else {
        LoaderIsUnseen(s, t);
        NoncesInstall(s, t);
      }
    } else if a.AReceive? {
      NoncesReceive(s, t);
    } else {
      SetupFrame(s, t, a);
      assert NonceThread(s.sh, s.threads[t]) && PoolThread(s.sh, s.threads[t]);
      NoncesSame(s, DoSetup(s, t, a));
    }
  }

  /** The holder of `a` may change the counter of `a` and the transactions accepted from `a`. */
  lemma NoncesOwn(s: State, s': State, t: Tid, a: Addr)
    requires NoncesOk(s) && Alone(s, t, a) && Moved(s, s', t) && s'.sh.pools == s.sh.pools
    requires forall b :: b != a ==> Agree(s.sh, s'.sh, b)
    requires NonceThread(s'.sh, s'.threads[t])
    ensures NoncesOk(s')
  {
    forall p | p in s'.sh.pools ensures IdleNonces(s'.sh, p) {
      assert IdleNonces(s.sh, p);
      assert forall b :: b in s.sh.pools[p].idle ==> Agree(s.sh, s'.sh, b);
    }
    forall u | u in s'.threads ensures NonceThread(s'.sh, s'.threads[u]) {
      if u != t {
        forall b | b != a ensures PendingNonce(s'.sh, b) == PendingNonce(s.sh, b) {
          assert Agree(s.sh, s'.sh, b);
        }
        NonceThreadStable(s.sh, s'.sh, s.threads[u]);
      }
    }
  }

  /** One more accepted transaction raises the pending nonce by one, wrapping like a `uint64`. */
  lemma NextPending(sh: Shared, sh': Shared, a: Addr, tx: Tx)
    requires sh'.start == sh.start && AcceptedBy(sh', a) == AcceptedBy(sh, a) + [tx]
    ensures PendingNonce(sh', a) == Inc(PendingNonce(sh, a))
  {
  }

  lemma NoncesSend(s: State, t: Tid)
    requires NoncesOk(s) && PoolsOk(s) && CanSend(s, t)
    ensures NoncesOk(DoSend(s, t, true))
  {
    var s' := DoSend(s, t, true);
    assert NonceThread(s.sh, s.threads[t]) && PoolThread(s.sh, s.threads[t]);
    var a := s.threads[t].held.value;
    assert Holds(s, t, a);
    HolderIsAlone(s, t, a);
    NextPending(s.sh, s'.sh, a, s.threads[t].pc.tx);
    NoncesOwn(s, s', t, a);
  }

  lemma NoncesTake(s: State, t: Tid)
    requires NoncesOk(s) && CanTakeNonce(s, t) && Alone(s, t, s.threads[t].held.value)
    ensures NoncesOk(DoTakeNonce(s, t))
  {
    assert NonceThread(s.sh, s.threads[t]);
    NoncesOwn(s, DoTakeNonce(s, t), t, s.threads[t].held.value);
  }

  lemma NoncesRewind(s: State, t: Tid)
    requires NoncesOk(s) && CanRewind(s, t) && Alone(s, t, s.threads[t].held.value)
    ensures NoncesOk(DoRewind(s, t))
  {
    assert NonceThread(s.sh, s.threads[t]);
    AddThenUndo(PendingNonce(s.sh, s.threads[t].held.value));
    NoncesOwn(s, DoRewind(s, t), t, s.threads[t].held.value);
  }

  lemma NoncesSending(s: State, t: Tid, a: SendAct)
    requires NoncesOk(s) && PoolsOk(s) && CanSending(s, t, a)
    ensures NoncesOk(DoSending(s, t, a))
  {
    if a.ATakeNonce? || a.ARewind? {
      HolderIsAlone(s, t, s.threads[t].held.value);
    }
    match a
    case ATakeNonce => NoncesTake(s, t);
    case ARewind => NoncesRewind(s, t);
    case ASign(ok) => NoncesStay(s, DoSign(s, t, ok), t);
    case AInsertAttempt(x, at, o) => NoncesStay(s, DoInsertAttempt(s, t, x, at, o), t);
    case AMarkFailed(o) => NoncesStay(s, DoMarkFailed(s, t, o), t);
    case ASend(ok) =>
      if ok {
        NoncesSend(s, t);
      } else {
        NoncesStay(s, DoSend(s, t, ok), t);
      }
  }

  /** Signing, recording and a refused broadcast: the reservation stays outstanding. */
  lemma NoncesStay(s: State, s': State, t: Tid)
    requires NoncesOk(s) && Moved(s, s', t) && SameNonceView(s.sh, s'.sh) && s'.sh.pools == s.sh.pools
    requires var pc, pc' := s.threads[t].pc, s'.threads[t].pc;
             || (pc.SignTx? && (pc'.Rewind? || (pc'.InsertAttempt? && pc'.tx == pc.tx)))
             || (pc.InsertAttempt? && (pc'.Rewind? || (pc'.Send? && pc'.tx == pc.tx)))
             || (pc.Send? && pc'.Rewind?) || (pc.MarkFailed? && pc'.Finish?)
    ensures NoncesOk(s')
  {
    assert NonceThread(s.sh, s.threads[t]);
    NoncesSame(s, s');
  }

  lemma NoncesFinish(s: State, t: Tid)
    requires NoncesOk(s) && CanFinish(s, t)
    ensures NoncesOk(DoFinish(s, t))
  {
    var s' := DoFinish(s, t);
    assert NonceThread(s.sh, s.threads[t]);
    forall a ensures PendingNonce(s'.sh, a) == PendingNonce(s.sh, a) {}
    forall p | p in s'.sh.pools ensures IdleNonces(s'.sh, p) {
      assert IdleNonces(s.sh, p);
    }
    forall u | u in s'.threads ensures NonceThread(s'.sh, s'.threads[u]) {
      NonceThreadStable(s.sh, s'.sh, s.threads[u]);
    }
  }

  lemma NoncesClosing(s: State, t: Tid, a: CloseAct)
    requires NoncesOk(s) && PoolsOk(s) && CanClosing(s, t, a)
    ensures NoncesOk(DoClosing(s, t, a))
  {
    if a.AFinish? {
      NoncesFinish(s, t);
    } else {
      CloseFrame(s, t, a);
      NoncesQuiet(s, DoClosing(s, t, a), t);
    }
  }

  lemma NoncesWatch(s: State, a: WatchAct)
    requires NoncesOk(s) && CanWatch(s, a)
    ensures NoncesOk(DoWatch(s, a))
  {
    WatchFrame(s, a);
    NoncesSame(s, DoWatch(s, a));
  }

  lemma NoncesCrash(s: State)
    requires NoncesOk(s)
    ensures NoncesOk(DoCrash(s))
  {
  }

  /** Every step of the relayer keeps every counter equal to the chain's pending nonce,
      up to the one reservation a holder may have outstanding. */
  lemma NoncesKept(s: State, e: Step)
    requires NoncesOk(s) && PoolsOk(s) && Enabled(s, e)
    ensures NoncesOk(Apply(s, e))
  {
    match e
    case Begin(t, r, app, call, notify, o) => NoncesBegin(s, t, r, app, call, notify, o);
    case Setup(t, a) => NoncesSetup(s, t, a);
    case Sending(t, a) => NoncesSending(s, t, a);
    case Closing(t, a) => NoncesClosing(s, t, a);
    case Watching(a) => NoncesWatch(s, a);
    case Mine(tx, rc) => NoncesSame(s, DoMine(s, tx, rc));
    case CreateApp(app, addrs) => NoncesSame(s, DoCreateApp(s, app, addrs));
    case Crash => NoncesCrash(s);
  }

  /** Accepted transactions stay consecutive: the only step that adds one adds the pending nonce. */
  lemma ChainKept(s: State, e: Step)
    requires NoncesOk(s) && PoolsOk(s) && ChainOk(s.sh) && Enabled(s, e)
    ensures ChainOk(Apply(s, e).sh)
  {
    if e.Sending? && e.send.ASend? && e.send.ok {
      ChainSend(s, e.t);
    } else {
      ChainFrame(s, e);
      var sh' := Apply(s, e).sh;
      forall b ensures Consecutive(b, StartNonce(sh', b), AcceptedBy(sh', b)) {
        assert Consecutive(b, StartNonce(s.sh, b), AcceptedBy(s.sh, b));
      }
    }
  }

  lemma ChainSend(s: State, t: Tid)
    requires NoncesOk(s) && PoolsOk(s) && ChainOk(s.sh) && CanSend(s, t)
    ensures ChainOk(DoSend(s, t, true).sh)
  {
    var s' := DoSend(s, t, true);
    assert NonceThread(s.sh, s.threads[t]) && PoolThread(s.sh, s.threads[t]);
    var a := s.threads[t].held.value;
    forall b ensures Consecutive(b, StartNonce(s'.sh, b), AcceptedBy(s'.sh, b)) {
      assert Consecutive(b, StartNonce(s.sh, b), AcceptedBy(s.sh, b));
    }
  }

  lemma ChainFrame(s: State, e: Step)
    requires Enabled(s, e) && !(e.Sending? && e.send.ASend? && e.send.ok)
    ensures Apply(s, e).sh.accepted == s.sh.accepted && Apply(s, e).sh.start == s.sh.start
  {
    match e
    case Begin(t, r, app, call, notify, o) =>
    case Setup(t, a) => SetupKeepsRows(s, t, a);
    case Sending(t, a) => SendFrame(s, t, a);
    case Closing(t, a) => CloseKeepsChain(s, t, a);
    case Watching(a) => WatchFrame(s, a);
    case Mine(tx, rc) =>
    case CreateApp(app, addrs) =>
    case Crash =>
  }

  lemma SendFrame(s: State, t: Tid, a: SendAct)
    requires CanSending(s, t, a) && !(a.ASend? && a.ok)
    ensures DoSending(s, t, a).sh.accepted == s.sh.accepted && DoSending(s, t, a).sh.start == s.sh.start
  {
    match a
    case ATakeNonce =>
    case ASign(ok) =>
    case AInsertAttempt(x, at, o) =>
    case ASend(ok) =>
    case ARewind =>
    case AMarkFailed(o) =>
  }
}
