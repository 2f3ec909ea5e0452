/** Every step keeps requests, attempts, chain and `Submit` calls consistent with each other. */
module RelayRowProof {
  import opened Common
  import opened RelayState
  import opened RelaySteps
  import opened RelayInv

  /** The rows of request `q`, and which of its transactions are accepted, are as before. */
  ghost predicate SameRows(sh: Shared, sh': Shared, q: ReqId) {
    && (q in sh'.requests <==> q in sh.requests)
    && (q in sh.requests ==> sh'.requests[q] == sh.requests[q])
    && (forall x :: x in sh.attempts && sh.attempts[x].req == q ==>
          x in sh'.attempts && sh'.attempts[x] == sh.attempts[x]
          && (IsAccepted(sh', sh.attempts[x].hash) <==> IsAccepted(sh, sh.attempts[x].hash)))
    && (forall x :: x in sh'.attempts && sh'.attempts[x].req == q ==> x in sh.attempts && sh.attempts[x].req == q)
  }

  ghost predicate OnlyRows(sh: Shared, sh': Shared, r: ReqId) {
    forall q :: q != r ==> SameRows(sh, sh', q)
  }

  lemma RowThreadStable(sh: Shared, sh': Shared, th: Thread)
    requires RowThread(sh, th) && SameRows(sh, sh', th.req)
    ensures RowThread(sh', th)
  {
  }

  lemma RowStable(sh: Shared, sh': Shared, q: ReqId)
    requires SameRows(sh, sh', q) && sh'.receipts == sh.receipts && sh'.signers == sh.signers
    requires q in sh.requests ==> RequestOk(sh, q)
    requires forall x :: x in sh.attempts && sh.attempts[x].req == q ==> AttemptOk(sh, x)
    ensures q in sh'.requests ==> RequestOk(sh', q)
    ensures forall x :: x in sh'.attempts && sh'.attempts[x].req == q ==> AttemptOk(sh', x)
  {
  }

  /** A change to the rows of request `r` only. */
  lemma DbChange(sh: Shared, sh': Shared, r: ReqId)
    requires DbOk(sh)
    requires sh'.receipts == sh.receipts && sh'.signers == sh.signers
    requires OnlyRows(sh, sh', r)
    requires r in sh'.requests ==> RequestOk(sh', r)
    requires forall x :: x in sh'.attempts && sh'.attempts[x].req == r ==> AttemptOk(sh', x)
    requires UniqueRows(sh')
    requires forall tx {:trigger Backed(sh', tx)} :: IsAccepted(sh', tx) ==> Backed(sh', tx)
    requires forall tx :: tx in sh'.receipts ==> IsAccepted(sh', tx)
    ensures DbOk(sh')
  {
    forall q | q in sh'.requests ensures RequestOk(sh', q) {
      if q != r {
        assert SameRows(sh, sh', q);
        RowStable(sh, sh', q);
      }
    }
    forall x | x in sh'.attempts ensures AttemptOk(sh', x) {
      var q := sh'.attempts[x].req;
      if q != r {
        assert SameRows(sh, sh', q);
        RowStable(sh, sh', q);
      }
    }
  }

  lemma OwnersChange(s: State, s': State, t: Tid, r: ReqId)
    requires OwnersOk(s) && Moved(s, s', t) && s.threads[t].req == r
    requires OnlyRows(s.sh, s'.sh, r)
    requires RowThread(s'.sh, s'.threads[t])
    ensures OwnersOk(s')
  {
    forall u | u in s'.threads ensures RowThread(s'.sh, s'.threads[u]) {
      if u != t {
        assert s.threads[u].req != r;
        assert SameRows(s.sh, s'.sh, s.threads[u].req);
        RowThreadStable(s.sh, s'.sh, s.threads[u]);
      }
    }
    forall u, v | u in s'.threads && v in s'.threads && s'.threads[u].req == s'.threads[v].req
      ensures u == v
    {
      assert s.threads[u].req == s.threads[v].req;
    }
  }

  /** No row changed and nothing on chain. */
  ghost predicate SameDb(sh: Shared, sh': Shared) {
    && sh'.requests == sh.requests && sh'.attempts == sh.attempts && sh'.signers == sh.signers
    && sh'.accepted == sh.accepted && sh'.receipts == sh.receipts
  }

  lemma DbSame(sh: Shared, sh': Shared)
    requires DbOk(sh) && SameDb(sh, sh')
    ensures DbOk(sh')
  {
    forall q ensures SameRows(sh, sh', q) {}
    forall q | q in sh'.requests ensures RequestOk(sh', q) {
      RowStable(sh, sh', q);
    }
    forall x | x in sh'.attempts ensures AttemptOk(sh', x) {
      RowStable(sh, sh', sh'.attempts[x].req);
    }
    forall tx | IsAccepted(sh', tx) ensures Backed(sh', tx) {
      assert IsAccepted(sh, tx) && Backed(sh, tx);
    }
  }

  lemma WatcherSame(sh: Shared, sh': Shared, w: Watcher)
    requires WatcherOk(sh, w) && SameDb(sh, sh')
    ensures WatcherOk(sh', w)
  {
  }

  /** A thread moved on without touching rows or chain. */
  lemma RowsQuiet(s: State, s': State, t: Tid)
    requires RowsOk(s) && Moved(s, s', t) && SameDb(s.sh, s'.sh)
    requires RowThread(s'.sh, s'.threads[t])
    ensures RowsOk(s')
  {
    DbSame(s.sh, s'.sh);
    WatcherSame(s.sh, s'.sh, s.watcher);
    forall q ensures SameRows(s.sh, s'.sh, q) {}
    OwnersChange(s, s', t, s.threads[t].req);
  }

  /** Nothing the watcher has noted down became settled or disappeared. */
  lemma WatcherStable(sh: Shared, sh': Shared, w: Watcher)
    requires WatcherOk(sh, w)
    requires forall r :: r in sh.requests ==> r in sh'.requests
    requires forall x :: x in sh.attempts ==> x in sh'.attempts && sh'.attempts[x].hash == sh.attempts[x].hash
    requires forall x :: x in sh.attempts ==>
               || sh'.attempts[x].status == sh.attempts[x].status
               || (!IsSettled(sh'.attempts[x])
                   && (IsOpen(sh'.attempts[x]) || sh.attempts[x].hash !in sh.receipts))
    requires forall tx :: tx in sh.receipts ==> tx in sh'.receipts && sh'.receipts[tx] == sh.receipts[tx]
    ensures WatcherOk(sh', w)
  {
  }

  // ---- The writes, seen by the tables

  /** The columns other than requests and attempts that matter here. */
  ghost predicate SameChain(sh: Shared, sh': Shared) {
    sh'.signers == sh.signers && sh'.accepted == sh.accepted && sh'.receipts == sh.receipts
  }

  lemma StillBacked(sh: Shared, sh': Shared)
    requires DbOk(sh) && sh'.accepted == sh.accepted
    requires forall x :: x in sh.attempts && IsAccepted(sh, sh.attempts[x].hash) && sh.attempts[x].status != AFailed ==>
               x in sh'.attempts && sh'.attempts[x].hash == sh.attempts[x].hash && sh'.attempts[x].status != AFailed
    ensures forall tx {:trigger Backed(sh', tx)} :: IsAccepted(sh', tx) ==> Backed(sh', tx)
  {
    forall tx | IsAccepted(sh', tx) ensures Backed(sh', tx) {
      assert IsAccepted(sh, tx) && Backed(sh, tx);
      var y :| y in sh.attempts && sh.attempts[y].hash == tx && sh.attempts[y].status != AFailed;
      assert y in sh'.attempts && sh'.attempts[y].hash == tx;
    }
  }

  /** Rows of other requests and their acceptance are as before: a purely structural fact. */
  lemma OnlyRowsOf(sh: Shared, sh': Shared, r: ReqId)
    requires sh'.accepted == sh.accepted
    requires r in sh'.requests && sh'.requests == sh.requests[r := sh'.requests[r]]
    requires forall x :: x in sh.attempts && sh.attempts[x].req != r ==>
               x in sh'.attempts && sh'.attempts[x] == sh.attempts[x]
    requires forall x :: x in sh'.attempts && sh'.attempts[x].req != r ==>
               x in sh.attempts && sh'.attempts[x] == sh.attempts[x]
    ensures OnlyRows(sh, sh', r)
  {
  }

  /** A new status for request `r`, which has no attempt. */
  lemma DbRequest(sh: Shared, sh': Shared, r: ReqId, q: Request)
    requires DbOk(sh) && NoAttempt(sh, r)
    requires q.log == [RPending] || q.log == [RPending, RRejected]
    requires q.status == q.log[|q.log| - 1]
    requires sh'.requests == sh.requests[r := q] && sh'.attempts == sh.attempts && SameChain(sh, sh')
    ensures DbOk(sh') && OnlyRows(sh, sh', r)
  {
    OnlyRowsOf(sh, sh', r);
    StillBacked(sh, sh');
    DbChange(sh, sh', r);
  }

  lemma FreshHasNoAttempt(sh: Shared, r: ReqId)
    requires DbOk(sh) && r !in sh.requests
    ensures NoAttempt(sh, r)
  {
    forall x | x in sh.attempts ensures sh.attempts[x].req != r {
      assert AttemptOk(sh, x);
    }
  }

  /** New contents for attempt `x` and its request. */
  lemma DbUpdate(sh: Shared, sh': Shared, x: AttId)
    requires DbOk(sh) && x in sh.attempts && x in sh'.attempts
    requires var r := sh.attempts[x].req;
             && r in sh'.requests && sh'.requests == sh.requests[r := sh'.requests[r]]
             && sh'.attempts == sh.attempts[x := sh'.attempts[x]]
             && sh'.attempts[x].req == r && sh'.attempts[x].hash == sh.attempts[x].hash
             && RequestOk(sh', r)
    requires SameChain(sh, sh') && AttemptOk(sh', x)
    ensures DbOk(sh') && OnlyRows(sh, sh', sh.attempts[x].req)
  {
    var r := sh.attempts[x].req;
    OnlyRowsOf(sh, sh', r);
    UniqueUpdate(sh, sh', x);
    assert sh'.attempts[x].status == AFailed ==> !IsAccepted(sh, sh.attempts[x].hash);
    StillBacked(sh, sh');
    DbChange(sh, sh', r);
  }

  lemma UniqueUpdate(sh: Shared, sh': Shared, x: AttId)
    requires UniqueRows(sh) && x in sh.attempts && x in sh'.attempts
    requires sh'.attempts == sh.attempts[x := sh'.attempts[x]]
    requires sh'.attempts[x].req == sh.attempts[x].req && sh'.attempts[x].hash == sh.attempts[x].hash
    ensures UniqueRows(sh')
    ensures forall y :: y in sh'.attempts && sh'.attempts[y].req == sh.attempts[x].req ==> y == x
  {
  }

  lemma UniqueInsert(sh: Shared, sh': Shared, x: AttId)
    requires UniqueRows(sh) && x !in sh.attempts && x in sh'.attempts
    requires sh'.attempts == sh.attempts[x := sh'.attempts[x]]
    requires NoAttempt(sh, sh'.attempts[x].req) && HashIsNew(sh, sh'.attempts[x].hash)
    ensures UniqueRows(sh')
    ensures forall y :: y in sh'.attempts && sh'.attempts[y].req == sh'.attempts[x].req ==> y == x
  {
  }

  /** The write-ahead row: no row has its hash, so nobody has broadcast it. */
  lemma DbInsertAttempt(sh: Shared, sh': Shared, r: ReqId, x: AttId, row: Attempt)
    requires DbOk(sh) && Untouched(sh, r) && x !in sh.attempts && HashIsNew(sh, row.hash)
    requires row.req == r && row.status == ASubmitting
    requires sh'.attempts == sh.attempts[x := row] && sh'.requests == sh.requests && SameChain(sh, sh')
    requires AttemptOk(sh', x)
    ensures DbOk(sh') && OnlyRows(sh, sh', r) && Unsent(sh', r, x)
  {
    NewHashNotAccepted(sh, row.hash);
    OnlyRowsOf(sh, sh', r);
    UniqueInsert(sh, sh', x);
    StillBacked(sh, sh');
    assert RequestOk(sh, r);
    DbChange(sh, sh', r);
  }

  lemma NewHashNotAccepted(sh: Shared, tx: Tx)
    requires DbOk(sh) && HashIsNew(sh, tx)
    ensures !IsAccepted(sh, tx)
  {
    assert IsAccepted(sh, tx) ==> Backed(sh, tx);
  }

  /** One more accepted transaction. */
  lemma AcceptedGrows(sh: Shared, sh': Shared, tx: Tx)
    requires sh'.accepted == sh.accepted[tx.signer := AcceptedBy(sh, tx.signer) + [tx]]
    ensures forall h :: IsAccepted(sh', h) <==> IsAccepted(sh, h) || h == tx
  {
  }

  /** A broadcast: its row is there, still `submitting`, and no other row has its hash. */
  lemma DbSend(sh: Shared, sh': Shared, r: ReqId, x: AttId)
    requires DbOk(sh) && Unsent(sh, r, x)
    requires var tx := sh.attempts[x].hash;
             sh'.accepted == sh.accepted[tx.signer := AcceptedBy(sh, tx.signer) + [tx]]
    requires sh'.requests == sh.requests && sh'.attempts == sh.attempts && sh'.signers == sh.signers
    requires sh'.receipts == sh.receipts
    ensures DbOk(sh') && OnlyRows(sh, sh', r) && IsAccepted(sh', sh.attempts[x].hash)
  {
    var tx := sh.attempts[x].hash;
    AcceptedGrows(sh, sh', tx);
    forall h | IsAccepted(sh', h) ensures Backed(sh', h) {
      if h == tx {
        assert sh'.attempts[x].hash == h;
      } else {
        assert Backed(sh, h);
      }
    }
    assert AttemptOk(sh, x) && RequestOk(sh, r);
    DbChange(sh, sh', r);
  }

  // ---- The writes, seen by one pair of rows

  /** Giving up on a broadcast the chain refused. */
  lemma PairMarkFailed(sh: Shared, sh': Shared, x: AttId)
    requires x in sh.attempts && AttemptOk(sh, x) && Unsent(sh, sh.attempts[x].req, x)
    requires sh'.attempts == sh.attempts[x := sh.attempts[x].(status := AFailed)]
    requires sh'.requests == sh.requests && SameChain(sh, sh') && RequestOk(sh, sh.attempts[x].req)
    ensures AttemptOk(sh', x) && RequestOk(sh', sh.attempts[x].req)
  {
  }

  /** Marking a broadcast: it may run over a terminal status, once. */
  lemma PairMarkSubmitted(sh: Shared, sh': Shared, x: AttId)
    requires x in sh.attempts && AttemptOk(sh, x)
    requires var r := sh.attempts[x].req;
             && RSubmitted !in sh.requests[r].log
             && sh'.requests == sh.requests[r := SetStatus(sh.requests[r], RSubmitted)]
    requires sh.attempts[x].status == ASubmitting || IsSettled(sh.attempts[x])
    requires IsAccepted(sh, sh.attempts[x].hash) && SameChain(sh, sh')
    requires sh'.attempts == sh.attempts[x := sh.attempts[x].(status := ASubmitted)]
    ensures AttemptOk(sh', x) && RequestOk(sh', sh.attempts[x].req)
  {
    assert sh'.attempts[x].req == sh.attempts[x].req;
    var T := RConfirmed;
    assert [RPending, RSubmitted, T][1] == RSubmitted && [RPending, T, RSubmitted, T][2] == RSubmitted;
    var U := RReverted;
    assert [RPending, RSubmitted, U][1] == RSubmitted && [RPending, U, RSubmitted, U][2] == RSubmitted;
  }

  /** The watcher's joint update of an attempt that is still open. */
  lemma PairSettle(sh: Shared, sh': Shared, x: AttId, rc: Receipt)
    requires x in sh.attempts && AttemptOk(sh, x) && IsOpen(sh.attempts[x])
    requires sh.attempts[x].hash in sh.receipts && sh.receipts[sh.attempts[x].hash] == rc
    requires IsAccepted(sh, sh.attempts[x].hash)
    requires sh'.attempts
             == sh.attempts[x := sh.attempts[x].(status := AttemptOutcome(rc), recorded := Some(Record(rc)))]
    requires var r := sh.attempts[x].req;
             sh'.requests == sh.requests[r := SetStatus(sh.requests[r], Outcome(rc))]
    requires SameChain(sh, sh')
    ensures AttemptOk(sh', x) && RequestOk(sh', sh.attempts[x].req)
  {
    assert sh'.attempts[x].req == sh.attempts[x].req;
  }

  // ---- The steps

  lemma RowsBegin(s: State, t: Tid, r: ReqId, app: AppId, call: Call, notify: bool, o: Write)
    requires RowsOk(s) && CanBegin(s, t, r, app, o)
    ensures RowsOk(DoBegin(s, t, r, app, call, notify, o))
  {
    var s' := DoBegin(s, t, r, app, call, notify, o);
    if !o.Fail? {
      FreshHasNoAttempt(s.sh, r);
      DbRequest(s.sh, s'.sh, r, s'.sh.requests[r]);
      WatcherStable(s.sh, s'.sh, s.watcher);
      OwnersBegin(s, s', t, r);
    }
  }

  lemma OwnersBegin(s: State, s': State, t: Tid, r: ReqId)
    requires OwnersOk(s) && t !in s.threads && r !in s.sh.requests && OnlyRows(s.sh, s'.sh, r)
    requires s'.threads == s.threads
             || (t in s'.threads && s'.threads == s.threads[t := s'.threads[t]]
                 && s'.threads[t].req == r && RowThread(s'.sh, s'.threads[t]))
    ensures OwnersOk(s')
  {
    forall u | u in s.threads ensures s.threads[u].req != r && RowThread(s'.sh, s.threads[u]) {
      assert RowThread(s.sh, s.threads[u]);
      assert SameRows(s.sh, s'.sh, s.threads[u].req);
      RowThreadStable(s.sh, s'.sh, s.threads[u]);
    }
  }

  /** Near its end a call needs little from its rows. */
  lemma RowEnding(sh: Shared, sh': Shared, th: Thread, pc: Pc)
    requires RowThread(sh, th) && th.req in sh'.requests
    requires sh'.requests[th.req].app == sh.requests[th.req].app
    requires sh'.requests[th.req].call == sh.requests[th.req].call
    requires || pc.Finish? || pc == Rewind(None)
             || (Notifying(pc) && pc.rejected && sh'.requests[th.req].log == [RPending, RRejected])
             || (Notifying(pc) && !pc.rejected && RSubmitted in sh'.requests[th.req].log)
    ensures RowThread(sh', th.(pc := pc))
  {
  }

  lemma RowsReject(s: State, t: Tid, o: Write)
    requires RowsOk(s) && CanReject(s, t)
    ensures RowsOk(DoReject(s, t, o))
  {
    var s' := DoReject(s, t, o);
    var th := s.threads[t];
    assert RowThread(s.sh, th);
    RowEnding(s.sh, s'.sh, th, s'.threads[t].pc);
    if o.Fail? {
      RowsQuiet(s, s', t);
    } else {
      DbRequest(s.sh, s'.sh, th.req, s'.sh.requests[th.req]);
      WatcherStable(s.sh, s'.sh, s.watcher);
      OwnersChange(s, s', t, th.req);
    }
  }

  lemma RowsInsertAttempt(s: State, t: Tid, x: AttId, at: int, o: Write)
    requires RowsOk(s) && CanInsertAttempt(s, t, x, o)
    requires s.threads[t].pc.tx.signer in SignersOf(s.sh, s.threads[t].app)
    requires s.threads[t].pc.tx.call == s.threads[t].call
    ensures RowsOk(DoInsertAttempt(s, t, x, at, o))
  {
    var s' := DoInsertAttempt(s, t, x, at, o);
    var th := s.threads[t];
    assert RowThread(s.sh, th);
    if !o.Ok? {
      RowEnding(s.sh, s'.sh, th, s'.threads[t].pc);
    }
    if o.Fail? {
      RowsQuiet(s, s', t);
    } else {
      DbInsertAttempt(s.sh, s'.sh, th.req, x, s'.sh.attempts[x]);
      WatcherStable(s.sh, s'.sh, s.watcher);
      OwnersChange(s, s', t, th.req);
    }
  }

  lemma RowAccepted(sh: Shared, sh': Shared, th: Thread)
    requires RowThread(sh, th) && th.pc.Send?
    requires sh'.requests == sh.requests && sh'.attempts == sh.attempts
    requires IsAccepted(sh', th.pc.tx)
    ensures RowThread(sh', th.(pc := MarkSubmitted(th.pc.att)))
  {
  }

  lemma RowsSend(s: State, t: Tid, ok: bool)
    requires RowsOk(s) && CanSend(s, t)
    ensures RowsOk(DoSend(s, t, ok))
  {
    var s' := DoSend(s, t, ok);
    var th := s.threads[t];
    assert RowThread(s.sh, th);
    if !ok {
      RowsQuiet(s, s', t);
    } else {
      DbSend(s.sh, s'.sh, th.req, th.pc.att);
      RowAccepted(s.sh, s'.sh, th);
      WatcherStable(s.sh, s'.sh, s.watcher);
      OwnersChange(s, s', t, th.req);
    }
  }

  lemma RowsMarkFailed(s: State, t: Tid, o: Write)
    requires RowsOk(s) && CanMarkFailed(s, t)
    ensures RowsOk(DoMarkFailed(s, t, o))
  {
    var s' := DoMarkFailed(s, t, o);
    var th := s.threads[t];
    assert RowThread(s.sh, th);
    RowEnding(s.sh, s'.sh, th, Finish);
    if o.Fail? {
      RowsQuiet(s, s', t);
    } else {
      RowsPairFailed(s, s', t);
    }
  }

  /** One attempt got a status that is not a settled one. */
  lemma WatcherPair(sh: Shared, sh': Shared, x: AttId, w: Watcher)
    requires WatcherOk(sh, w) && x in sh.attempts && x in sh'.attempts
    requires sh'.attempts == sh.attempts[x := sh'.attempts[x]] && sh'.receipts == sh.receipts
    requires sh'.attempts[x].hash == sh.attempts[x].hash && !IsSettled(sh'.attempts[x])
    requires IsOpen(sh'.attempts[x]) || sh.attempts[x].hash !in sh.receipts
    requires forall r :: r in sh.requests ==> r in sh'.requests
    ensures WatcherOk(sh', w)
  {
    WatcherStable(sh, sh', w);
  }

  lemma DbPairFailed(sh: Shared, sh': Shared, r: ReqId, x: AttId)
    requires DbOk(sh) && Unsent(sh, r, x)
    requires sh'.attempts == sh.attempts[x := sh.attempts[x].(status := AFailed)]
    requires sh'.requests == sh.requests && SameChain(sh, sh')
    ensures DbOk(sh') && OnlyRows(sh, sh', r) && sh.attempts[x].hash !in sh.receipts
  {
    assert AttemptOk(sh, x) && RequestOk(sh, r);
    PairMarkFailed(sh, sh', x);
    DbUpdate(sh, sh', x);
  }

  lemma RowsPairFailed(s: State, s': State, t: Tid)
    requires RowsOk(s) && Moved(s, s', t) && s.threads[t].pc.MarkFailed?
    requires RowThread(s.sh, s.threads[t]) && RowThread(s'.sh, s'.threads[t])
    requires var x := s.threads[t].pc.att;
             s'.sh.attempts == s.sh.attempts[x := s.sh.attempts[x].(status := AFailed)]
    requires s'.sh.requests == s.sh.requests && SameChain(s.sh, s'.sh)
    ensures RowsOk(s')
  {
    DbPairFailed(s.sh, s'.sh, s.threads[t].req, s.threads[t].pc.att);
    WatcherPair(s.sh, s'.sh, s.threads[t].pc.att, s.watcher);
    OwnersChange(s, s', t, s.threads[t].req);
  }

  lemma RowsMarkSubmitted(s: State, t: Tid, o: Write)
    requires RowsOk(s) && CanMarkSubmitted(s, t)
    ensures RowsOk(DoMarkSubmitted(s, t, o))
  {
    var s' := DoMarkSubmitted(s, t, o);
    var th := s.threads[t];
    assert RowThread(s.sh, th);
    RowEnding(s.sh, s'.sh, th, s'.threads[t].pc);
    if o.Fail? {
      RowsQuiet(s, s', t);
    } else {
      RowsPairSubmitted(s, s', t);
    }
  }

  lemma DbPairSubmitted(sh: Shared, sh': Shared, x: AttId)
    requires DbOk(sh) && x in sh.attempts && IsAccepted(sh, sh.attempts[x].hash)
    requires sh.attempts[x].status == ASubmitting || IsSettled(sh.attempts[x])
    requires var r := sh.attempts[x].req;
             && r in sh.requests && RSubmitted !in sh.requests[r].log
             && sh'.requests == sh.requests[r := SetStatus(sh.requests[r], RSubmitted)]
    requires sh'.attempts == sh.attempts[x := sh.attempts[x].(status := ASubmitted)] && SameChain(sh, sh')
    ensures DbOk(sh') && OnlyRows(sh, sh', sh.attempts[x].req)
  {
    assert AttemptOk(sh, x);
    PairMarkSubmitted(sh, sh', x);
    DbUpdate(sh, sh', x);
  }

  lemma RowsPairSubmitted(s: State, s': State, t: Tid)
    requires RowsOk(s) && Moved(s, s', t) && s.threads[t].pc.MarkSubmitted?
    requires RowThread(s.sh, s.threads[t]) && RowThread(s'.sh, s'.threads[t])
    requires var x, r := s.threads[t].pc.att, s.threads[t].req;
             && s'.sh.attempts == s.sh.attempts[x := s.sh.attempts[x].(status := ASubmitted)]
             && s'.sh.requests == s.sh.requests[r := SetStatus(s.sh.requests[r], RSubmitted)]
    requires SameChain(s.sh, s'.sh)
    ensures RowsOk(s')
  {
    DbPairSubmitted(s.sh, s'.sh, s.threads[t].pc.att);
    WatcherPair(s.sh, s'.sh, s.threads[t].pc.att, s.watcher);
    OwnersChange(s, s', t, s.threads[t].req);
  }

  lemma RowsSending(s: State, t: Tid, a: SendAct)
    requires RowsOk(s) && CanSending(s, t, a)
    requires a.AInsertAttempt? ==> s.threads[t].pc.tx.signer in SignersOf(s.sh, s.threads[t].app)
                                   && s.threads[t].pc.tx.call == s.threads[t].call
    ensures RowsOk(DoSending(s, t, a))
  {
    assert RowThread(s.sh, s.threads[t]);
    match a
    case ATakeNonce => RowsQuiet(s, DoTakeNonce(s, t), t);
    case ASign(ok) => RowsQuiet(s, DoSign(s, t, ok), t);
    case AInsertAttempt(x, at, o) => RowsInsertAttempt(s, t, x, at, o);
    case ASend(ok) => RowsSend(s, t, ok);
    case ARewind => RowsQuiet(s, DoRewind(s, t), t);
    case AMarkFailed(o) => RowsMarkFailed(s, t, o);
  }

  lemma RowsSetup(s: State, t: Tid, a: SetupAct)
    requires RowsOk(s) && CanSetup(s, t, a)
    ensures RowsOk(DoSetup(s, t, a))
  {
    assert RowThread(s.sh, s.threads[t]);
    if a.AInstall? {
      RowsQuiet(s, DoInstall(s, t), t);
    } else if a.AReceive? {
      RowsReceive(s, t);
    } else {
      SetupFrame(s, t, a);
      RowsQuiet(s, DoSetup(s, t, a), t);
    }
  }

  lemma RowsReceive(s: State, t: Tid)
    requires RowsOk(s) && CanReceive(s, t)
    ensures RowsOk(DoReceive(s, t))
  {
    var s' := DoReceive(s, t);
    assert RowThread(s.sh, s.threads[t]);
    DbSame(s.sh, s'.sh);
    WatcherSame(s.sh, s'.sh, s.watcher);
    forall u | u in s'.threads ensures RowThread(s'.sh, s'.threads[u]) {
      assert SameRows(s.sh, s'.sh, s.threads[u].req);
      RowThreadStable(s.sh, s'.sh, s.threads[u]);
    }
  }

  lemma RowsFinish(s: State, t: Tid)
    requires RowsOk(s) && CanFinish(s, t)
    ensures RowsOk(DoFinish(s, t))
  {
    var s' := DoFinish(s, t);
    DbSame(s.sh, s'.sh);
    WatcherSame(s.sh, s'.sh, s.watcher);
    forall u | u in s'.threads ensures RowThread(s'.sh, s'.threads[u]) {
      assert SameRows(s.sh, s'.sh, s.threads[u].req);
      RowThreadStable(s.sh, s'.sh, s.threads[u]);
    }
  }

  lemma RowsClosing(s: State, t: Tid, a: CloseAct)
    requires RowsOk(s) && CanClosing(s, t, a)
    ensures RowsOk(DoClosing(s, t, a))
  {
    assert RowThread(s.sh, s.threads[t]);
    match a
    case AMarkSubmitted(o) => RowsMarkSubmitted(s, t, o);
    case AReject(o) => RowsReject(s, t, o);
    case ASnapshot(x, ok) => RowsSnapshot(s, t, x, ok);
    case AEnqueue(o) => RowsEnqueue(s, t, o);
    case AFinish => RowsFinish(s, t);
  }

  lemma RowsSnapshot(s: State, t: Tid, x: Option<AttId>, ok: bool)
    requires RowsOk(s) && CanSnapshot(s, t, x)
    ensures RowsOk(DoSnapshot(s, t, x, ok))
  {
    var s' := DoSnapshot(s, t, x, ok);
    assert RowThread(s.sh, s.threads[t]);
    RowEnding(s.sh, s'.sh, s.threads[t], s'.threads[t].pc);
    RowsQuiet(s, s', t);
  }

  lemma RowsEnqueue(s: State, t: Tid, o: Write)
    requires RowsOk(s) && CanEnqueue(s, t)
    ensures RowsOk(DoEnqueue(s, t, o))
  {
    var s' := DoEnqueue(s, t, o);
    assert RowThread(s.sh, s.threads[t]);
    RowEnding(s.sh, s'.sh, s.threads[t], Finish);
    RowsQuiet(s, s', t);
  }

  // ---- The watcher

  /** The watcher moved on; rows and chain are as before. */
  lemma RowsWatcherQuiet(s: State, s': State)
    requires RowsOk(s) && SameDb(s.sh, s'.sh) && s'.threads == s.threads
    requires WatcherOk(s'.sh, s'.watcher)
    ensures RowsOk(s')
  {
    DbSame(s.sh, s'.sh);
    forall u | u in s'.threads ensures RowThread(s'.sh, s'.threads[u]) {
      assert RowThread(s.sh, s.threads[u]);
      assert SameRows(s.sh, s'.sh, s.threads[u].req);
      RowThreadStable(s.sh, s'.sh, s.threads[u]);
    }
  }

  /** A call that has broadcast but not yet said so tolerates a settlement by the watcher. */
  lemma RowThreadSettled(sh: Shared, sh': Shared, th: Thread, x: AttId, rc: Receipt)
    requires RowThread(sh, th) && x in sh.attempts && sh.attempts[x].req == th.req
    requires AttemptOk(sh, x) && IsOpen(sh.attempts[x]) && IsAccepted(sh, sh.attempts[x].hash) && UniqueRows(sh)
    requires sh'.attempts
             == sh.attempts[x := sh.attempts[x].(status := AttemptOutcome(rc), recorded := Some(Record(rc)))]
    requires sh'.requests == sh.requests[th.req := SetStatus(sh.requests[th.req], Outcome(rc))]
    requires sh'.accepted == sh.accepted
    ensures RowThread(sh', th)
  {
  }

  lemma DbPairSettled(sh: Shared, sh': Shared, x: AttId, rc: Receipt)
    requires DbOk(sh) && x in sh.attempts && IsOpen(sh.attempts[x])
    requires sh.attempts[x].hash in sh.receipts && sh.receipts[sh.attempts[x].hash] == rc
    requires sh'.attempts
             == sh.attempts[x := sh.attempts[x].(status := AttemptOutcome(rc), recorded := Some(Record(rc)))]
    requires var r := sh.attempts[x].req;
             r in sh.requests && sh'.requests == sh.requests[r := SetStatus(sh.requests[r], Outcome(rc))]
    requires SameChain(sh, sh')
    ensures DbOk(sh') && OnlyRows(sh, sh', sh.attempts[x].req)
  {
    assert AttemptOk(sh, x);
    PairSettle(sh, sh', x, rc);
    DbUpdate(sh, sh', x);
  }

  lemma OwnersSettle(s: State, s': State, x: AttId, rc: Receipt)
    requires OwnersOk(s) && s'.threads == s.threads && UniqueRows(s.sh)
    requires x in s.sh.attempts && AttemptOk(s.sh, x) && IsOpen(s.sh.attempts[x])
    requires IsAccepted(s.sh, s.sh.attempts[x].hash)
    requires s'.sh.attempts
             == s.sh.attempts[x := s.sh.attempts[x].(status := AttemptOutcome(rc), recorded := Some(Record(rc)))]
    requires var r := s.sh.attempts[x].req;
             s'.sh.requests == s.sh.requests[r := SetStatus(s.sh.requests[r], Outcome(rc))]
    requires s'.sh.accepted == s.sh.accepted && OnlyRows(s.sh, s'.sh, s.sh.attempts[x].req)
    ensures OwnersOk(s')
  {
    forall u | u in s'.threads ensures RowThread(s'.sh, s'.threads[u]) {
      assert RowThread(s.sh, s.threads[u]);
      if s.threads[u].req == s.sh.attempts[x].req {
        RowThreadSettled(s.sh, s'.sh, s.threads[u], x, rc);
      } else {
        assert SameRows(s.sh, s'.sh, s.threads[u].req);
        RowThreadStable(s.sh, s'.sh, s.threads[u]);
      }
    }
  }

  lemma RowsSettle(s: State, o: Write)
    requires RowsOk(s) && CanSettle(s)
    ensures RowsOk(DoSettle(s, o))
  {
    var s' := DoSettle(s, o);
    if o.Fail? {
      RowsWatcherQuiet(s, s');
    } else {
      var x := s.watcher.att;
      assert AttemptOk(s.sh, x);
      DbPairSettled(s.sh, s'.sh, x, s.watcher.receipt);
      OwnersSettle(s, s', x, s.watcher.receipt);
      assert TodoOk(s'.sh, s.watcher.todo);
    }
  }

  lemma RowsWatch(s: State, a: WatchAct)
    requires RowsOk(s) && CanWatch(s, a)
    ensures RowsOk(DoWatch(s, a))
  {
    match a
    case ASelect(todo) => RowsWatcherQuiet(s, DoSelect(s, todo));
    case AReadReceipt(ok) => RowsReadReceipt(s, ok);
    case ASettle(o) => RowsSettle(s, o);
    case AWatcherSnapshot(x, ok) => RowsWatcherQuiet(s, DoWatcherSnapshot(s, x, ok));
    case AWatcherEnqueue(o) => RowsWatcherQuiet(s, DoWatcherEnqueue(s, o));
    case AEndTick => RowsWatcherQuiet(s, DoEndTick(s));
  }

  /** A receipt found for a noted attempt: the attempt is accepted, hence not failed, hence open. */
  lemma RowsReadReceipt(s: State, ok: bool)
    requires RowsOk(s) && CanReadReceipt(s)
    ensures RowsOk(DoReadReceipt(s, ok))
  {
    var todo := s.watcher.todo;
    assert AttemptOk(s.sh, todo[0]);
    assert TodoOk(s.sh, todo[1..]) && todo[0] !in todo[1..] by {
      assert forall y :: y in todo[1..] ==> y in todo;
    }
    RowsWatcherQuiet(s, DoReadReceipt(s, ok));
  }

  // ---- The environment

  lemma RowsMine(s: State, tx: Tx, rc: Receipt)
    requires RowsOk(s) && CanMine(s, tx)
    ensures RowsOk(DoMine(s, tx, rc))
  {
    var s' := DoMine(s, tx, rc);
    forall q | q in s'.sh.requests ensures RequestOk(s'.sh, q) {
      assert RequestOk(s.sh, q);
    }
    forall x | x in s'.sh.attempts ensures AttemptOk(s'.sh, x) {
      assert AttemptOk(s.sh, x);
    }
    forall h | IsAccepted(s'.sh, h) ensures Backed(s'.sh, h) {
      assert IsAccepted(s.sh, h) && Backed(s.sh, h);
    }
    forall u | u in s'.threads ensures RowThread(s'.sh, s'.threads[u]) {
      assert RowThread(s.sh, s.threads[u]);
      assert SameRows(s.sh, s'.sh, s.threads[u].req);
      RowThreadStable(s.sh, s'.sh, s.threads[u]);
    }
    WatcherStable(s.sh, s'.sh, s.watcher);
  }

  lemma RowsCreateApp(s: State, app: AppId, addrs: seq<Addr>)
    requires RowsOk(s) && CanCreateApp(s, app, addrs)
    ensures RowsOk(DoCreateApp(s, app, addrs))
  {
    var s' := DoCreateApp(s, app, addrs);
    forall q | q in s'.sh.requests ensures RequestOk(s'.sh, q) {
      assert RequestOk(s.sh, q);
    }
    forall x | x in s'.sh.attempts ensures AttemptOk(s'.sh, x) {
      assert AttemptOk(s.sh, x);
    }
    forall h | IsAccepted(s'.sh, h) ensures Backed(s'.sh, h) {
      assert IsAccepted(s.sh, h) && Backed(s.sh, h);
    }
    forall u | u in s'.threads ensures RowThread(s'.sh, s'.threads[u]) {
      assert RowThread(s.sh, s.threads[u]);
      assert SameRows(s.sh, s'.sh, s.threads[u].req);
      RowThreadStable(s.sh, s'.sh, s.threads[u]);
    }
    WatcherStable(s.sh, s'.sh, s.watcher);
  }

  lemma RowsCrash(s: State)
    requires RowsOk(s)
    ensures RowsOk(DoCrash(s))
  {
    DbSame(s.sh, DoCrash(s).sh);
  }

  /** Every step keeps the rows consistent; the pools tell that a recorded signer is the application's. */
  lemma RowsKept(s: State, e: Step)
    requires RowsOk(s) && PoolsOk(s) && NoncesOk(s) && Enabled(s, e)
    ensures RowsOk(Apply(s, e))
  {
    match e
    case Begin(t, r, app, call, notify, o) => RowsBegin(s, t, r, app, call, notify, o);
    case Setup(t, a) => RowsSetup(s, t, a);
    case Sending(t, a) =>
      if a.AInsertAttempt? {
        RecordedSigner(s, t);
      }
      RowsSending(s, t, a);
    case Closing(t, a) => RowsClosing(s, t, a);
    case Watching(a) => RowsWatch(s, a);
    case Mine(tx, rc) => RowsMine(s, tx, rc);
    case CreateApp(app, addrs) => RowsCreateApp(s, app, addrs);
    case Crash => RowsCrash(s);
  }

  lemma RecordedSigner(s: State, t: Tid)
    requires PoolsOk(s) && NoncesOk(s) && t in s.threads && s.threads[t].pc.InsertAttempt?
    ensures s.threads[t].pc.tx.signer in SignersOf(s.sh, s.threads[t].app)
    ensures s.threads[t].pc.tx.call == s.threads[t].call
  {
    assert PoolThread(s.sh, s.threads[t]) && NonceThread(s.sh, s.threads[t]);
    assert PoolShape(s.sh, s.threads[t].app);
  }
}
