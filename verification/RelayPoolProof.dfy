/** Every step keeps the signer pools linear: a signer is idle once or held once. */
module RelayPoolProof {
  import opened Common
  import opened RelayState
  import opened RelaySteps
  import opened RelayInv

  /** Busy signers stay accounted for when holders stay and no pool loses an idle signer. */
  lemma StillHeld(s: State, s': State)
    requires PoolsOk(s)
    requires forall u, a :: Holds(s, u, a) ==> Holds(s', u, a)
    requires forall p, a :: p in s'.sh.pools && a in s'.sh.pools[p].signers && a !in s'.sh.pools[p].idle ==>
               p in s.sh.pools && a in s.sh.pools[p].signers && a !in s.sh.pools[p].idle
    ensures forall p, a :: p in s'.sh.pools && a in s'.sh.pools[p].signers ==>
              a in s'.sh.pools[p].idle || exists t :: Holds(s', t, a)
  {
    forall p, a | p in s'.sh.pools && a in s'.sh.pools[p].signers && a !in s'.sh.pools[p].idle
      ensures exists u :: Holds(s', u, a)
    {
      var u :| Holds(s, u, a);
      assert Holds(s', u, a);
    }
  }

  /** Pools, table and holders are as before. */
  lemma PoolsSame(s: State, s': State)
    requires PoolsOk(s)
    requires s'.sh.pools == s.sh.pools && s'.sh.signers == s.sh.signers
    requires s'.threads.Keys == s.threads.Keys
    requires forall u :: u in s.threads ==> s'.threads[u].held == s.threads[u].held
    requires forall u :: u in s.threads ==> s'.threads[u] == s.threads[u] || PoolThread(s'.sh, s'.threads[u])
    ensures PoolsOk(s')
  {
    forall u, a ensures Holds(s', u, a) == Holds(s, u, a) {}
    forall p | p in s'.sh.pools ensures PoolShape(s'.sh, p) {
      assert PoolShape(s.sh, p);
    }
    forall u | u in s'.threads ensures PoolThread(s'.sh, s'.threads[u]) {
      assert PoolThread(s.sh, s.threads[u]);
    }
    StillHeld(s, s');
  }

  /** One thread moved on, keeping the signer it had. */
  lemma PoolsQuiet(s: State, s': State, t: Tid)
    requires PoolsOk(s)
    requires s'.sh.pools == s.sh.pools && s'.sh.signers == s.sh.signers && Moved(s, s', t)
    requires var pc, pc' := s.threads[t].pc, s'.threads[t].pc;
             && (BeforeCheckout(pc') ==> BeforeCheckout(pc)) && (NeedsSigner(pc') ==> NeedsSigner(pc))
             && (pc'.Lookup? || pc'.Wait? ==> s.threads[t].app in s.sh.pools)
             && (pc'.Hydrate? ==> HydratePool(s'.sh, s'.threads[t]))
    ensures PoolsOk(s')
  {
    assert PoolThread(s.sh, s.threads[t]);
    PoolsSame(s, s');
  }

  lemma PoolsBegin(s: State, t: Tid, r: ReqId, app: AppId, call: Call, notify: bool, o: Write)
    requires PoolsOk(s) && CanBegin(s, t, r, app, o)
    ensures PoolsOk(DoBegin(s, t, r, app, call, notify, o))
  {
    var s' := DoBegin(s, t, r, app, call, notify, o);
    forall u, a ensures Holds(s', u, a) == Holds(s, u, a) {}
    forall p | p in s'.sh.pools ensures PoolShape(s'.sh, p) {
      assert PoolShape(s.sh, p);
    }
    forall u | u in s'.threads ensures PoolThread(s'.sh, s'.threads[u]) {
      assert u in s.threads ==> PoolThread(s.sh, s.threads[u]);
    }
    StillHeld(s, s');
  }

  lemma PoolsHydrate(s: State, t: Tid, ok: bool)
    requires PoolsOk(s) && CanHydrate(s, t)
    ensures PoolsOk(DoHydrate(s, t, ok))
  {
    var pc := s.threads[t].pc;
    assert PoolThread(s.sh, s.threads[t]);
    assert pc.addrs[..pc.done + 1] == pc.addrs[..pc.done] + [pc.addrs[pc.done]];
    PoolsQuiet(s, DoHydrate(s, t, ok), t);
  }

  lemma PoolsInstall(s: State, t: Tid)
    requires PoolsOk(s) && CanInstall(s, t)
    ensures PoolsOk(DoInstall(s, t))
  {
    var s' := DoInstall(s, t);
    var app := s.threads[t].app;
    assert PoolThread(s.sh, s.threads[t]);
    if app in s.sh.pools {
      PoolsQuiet(s, s', t);
    } else {
      forall u, a ensures Holds(s', u, a) == Holds(s, u, a) {}
      forall p | p in s'.sh.pools ensures PoolShape(s'.sh, p) {
        assert p != app ==> PoolShape(s.sh, p);
      }
      forall u | u in s'.threads ensures PoolThread(s'.sh, s'.threads[u]) {
        assert PoolThread(s.sh, s.threads[u]);
      }
      StillHeld(s, s');
    }
  }

  /** Addresses of different loaded applications are different. */
  lemma PoolsDisjoint(sh: Shared, p: AppId, q: AppId, a: Addr)
    requires TableOk(sh) && p in sh.pools && q in sh.pools && PoolShape(sh, p) && PoolShape(sh, q)
    requires a in sh.pools[p].signers && a in sh.pools[q].signers
    ensures p == q
  {
  }

  lemma PoolsReceive(s: State, t: Tid)
    requires PoolsOk(s) && CanReceive(s, t)
    ensures PoolsOk(DoReceive(s, t))
  {
    var s' := DoReceive(s, t);
    var app := s.threads[t].app;
    var a0 := s.sh.pools[app].idle[0];
    assert PoolShape(s.sh, app) && PoolThread(s.sh, s.threads[t]);
    assert Holds(s', t, a0);
    forall u, a ensures Holds(s', u, a) <==> Holds(s, u, a) || (u == t && a == a0) {}
    forall u ensures !Holds(s, u, a0) {
      if Holds(s, u, a0) {
        assert PoolThread(s.sh, s.threads[u]) && PoolShape(s.sh, s.threads[u].app);
        PoolsDisjoint(s.sh, app, s.threads[u].app, a0);
      }
    }
    forall p | p in s'.sh.pools ensures PoolShape(s'.sh, p) {
      assert PoolShape(s.sh, p);
    }
    forall u | u in s'.threads ensures PoolThread(s'.sh, s'.threads[u]) {
      assert PoolThread(s.sh, s.threads[u]);
    }
    forall p, a | p in s'.sh.pools && a in s'.sh.pools[p].signers && a !in s'.sh.pools[p].idle
      ensures exists u :: Holds(s', u, a)
    {
      if a != a0 {
        assert a !in s.sh.pools[p].idle;
        var u :| Holds(s, u, a);
        assert Holds(s', u, a);
      }
    }
  }

  lemma PoolsFinish(s: State, t: Tid)
    requires PoolsOk(s) && CanFinish(s, t)
    ensures PoolsOk(DoFinish(s, t))
  {
    var s' := DoFinish(s, t);
    var th := s.threads[t];
    assert PoolThread(s.sh, th);
    forall u, a ensures Holds(s', u, a) <==> Holds(s, u, a) && u != t {}
    forall p | p in s'.sh.pools ensures PoolShape(s'.sh, p) {
      assert PoolShape(s.sh, p);
    }
    forall u | u in s'.threads ensures PoolThread(s'.sh, s'.threads[u]) {
      assert PoolThread(s.sh, s.threads[u]);
      assert th.held.Some? ==> Holds(s, t, th.held.value) && !Holds(s, u, th.held.value);
    }
    forall p, a | p in s'.sh.pools && a in s'.sh.pools[p].signers && a !in s'.sh.pools[p].idle
      ensures exists u :: Holds(s', u, a)
    {
      assert a !in s.sh.pools[p].idle && PoolShape(s.sh, p);
      var u :| Holds(s, u, a);
      assert PoolShape(s.sh, s.threads[u].app) && PoolThread(s.sh, s.threads[u]);
      assert Holds(s', u, a);
    }
  }

  lemma PoolsCreateApp(s: State, app: AppId, addrs: seq<Addr>)
    requires PoolsOk(s) && CanCreateApp(s, app, addrs)
    ensures PoolsOk(DoCreateApp(s, app, addrs))
  {
    var s' := DoCreateApp(s, app, addrs);
    forall u, a ensures Holds(s', u, a) == Holds(s, u, a) {}
    forall p | p in s'.sh.pools ensures PoolShape(s'.sh, p) {
      assert PoolShape(s.sh, p);
    }
    forall u | u in s'.threads ensures PoolThread(s'.sh, s'.threads[u]) {
      assert PoolThread(s.sh, s.threads[u]);
    }
    StillHeld(s, s');
  }

  lemma PoolsCrash(s: State)
    requires PoolsOk(s)
    ensures PoolsOk(DoCrash(s))
  {
  }

  lemma PoolsSetup(s: State, t: Tid, a: SetupAct)
    requires PoolsOk(s) && CanSetup(s, t, a)
    ensures PoolsOk(DoSetup(s, t, a))
  {
    if a.AHydrate? {
      PoolsHydrate(s, t, a.ok);
    } else if a.AInstall? {
      PoolsInstall(s, t);
    } else if a.AReceive? {
      PoolsReceive(s, t);
    } else {
      SetupFrame(s, t, a);
      PoolsQuiet(s, DoSetup(s, t, a), t);
    }
  }

  lemma PoolsSending(s: State, t: Tid, a: SendAct)
    requires PoolsOk(s) && CanSending(s, t, a)
    ensures PoolsOk(DoSending(s, t, a))
  {
    PoolsQuiet(s, DoSending(s, t, a), t);
  }

  lemma PoolsClosing(s: State, t: Tid, a: CloseAct)
    requires PoolsOk(s) && CanClosing(s, t, a)
    ensures PoolsOk(DoClosing(s, t, a))
  {
    if a.AFinish? {
      PoolsFinish(s, t);
    } else {
      CloseFrame(s, t, a);
      PoolsQuiet(s, DoClosing(s, t, a), t);
    }
  }

  lemma PoolsWatch(s: State, a: WatchAct)
    requires PoolsOk(s) && CanWatch(s, a)
    ensures PoolsOk(DoWatch(s, a))
  {
    WatchFrame(s, a);
    PoolsSame(s, DoWatch(s, a));
  }

  /** Every step of the relayer keeps the pools linear. */
  lemma PoolsKept(s: State, e: Step)
    requires PoolsOk(s) && Enabled(s, e)
    ensures PoolsOk(Apply(s, e))
  {
    match e
    case Begin(t, r, app, call, notify, o) => PoolsBegin(s, t, r, app, call, notify, o);
    case Setup(t, a) => PoolsSetup(s, t, a);
    case Sending(t, a) => PoolsSending(s, t, a);
    case Closing(t, a) => PoolsClosing(s, t, a);
    case Watching(a) => PoolsWatch(s, a);
    case Mine(tx, rc) => PoolsSame(s, DoMine(s, tx, rc));
    case CreateApp(app, addrs) => PoolsCreateApp(s, app, addrs);
    case Crash => PoolsCrash(s);
  }

  /** Nobody but `t` has anything to do with the signer `a`. */
  ghost predicate Alone(s: State, t: Tid, a: Addr) {
    && (forall u :: u in s.threads && u != t ==> s.threads[u].held != Some(a))
    && (forall p :: p in s.sh.pools ==> a !in s.sh.pools[p].idle)
    && (forall u :: u in s.threads && s.threads[u].pc.Hydrate? && s.threads[u].app !in s.sh.pools ==>
          a !in s.threads[u].pc.got)
  }

  lemma HolderIsAlone(s: State, t: Tid, a: Addr)
    requires PoolsOk(s) && Holds(s, t, a)
    ensures Alone(s, t, a)
  {
    var app := s.threads[t].app;
    assert PoolThread(s.sh, s.threads[t]) && PoolShape(s.sh, app);
    forall u | u in s.threads && u != t ensures s.threads[u].held != Some(a) {
      assert Holds(s, u, a) ==> u == t;
    }
    forall p | p in s.sh.pools ensures a !in s.sh.pools[p].idle {
      assert PoolShape(s.sh, p);
    }
    forall u | u in s.threads && s.threads[u].pc.Hydrate? && s.threads[u].app !in s.sh.pools
      ensures a !in s.threads[u].pc.got
    {
      assert PoolThread(s.sh, s.threads[u]);
    }
  }

  /** What a `Load` that found no pool has read concerns no signer of a loaded pool. */
  ghost predicate Unseen(s: State, got: map<Addr, nat>) {
    && (forall p, a :: p in s.sh.pools && a in s.sh.pools[p].idle ==> a !in got)
    && (forall u :: u in s.threads && s.threads[u].held.Some? ==> s.threads[u].held.value !in got)
  }

  lemma LoaderIsUnseen(s: State, t: Tid)
    requires PoolsOk(s) && t in s.threads && s.threads[t].pc.Hydrate? && s.threads[t].app !in s.sh.pools
    ensures Unseen(s, s.threads[t].pc.got)
  {
    var th := s.threads[t];
    assert PoolThread(s.sh, th);
    forall a | a in th.pc.got ensures a in s.sh.signers[th.app] {}
    forall p, a | p in s.sh.pools && a in s.sh.pools[p].idle ensures a !in th.pc.got {
      assert PoolShape(s.sh, p);
    }
    forall u | u in s.threads && s.threads[u].held.Some? ensures s.threads[u].held.value !in th.pc.got {
      assert PoolThread(s.sh, s.threads[u]) && PoolShape(s.sh, s.threads[u].app);
    }
  }
}
