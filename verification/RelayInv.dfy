/** The invariants of the relayer. Each speaks of the shared state and of one thread at a time. */
module RelayInv {
  import opened Common
  import opened RelayState
  import opened RelaySteps

  // ---- Signer pools

  ghost predicate TableOk(sh: Shared) {
    && (forall p :: p in sh.signers ==> Distinct(sh.signers[p]))
    && (forall p, q, a :: p in sh.signers && q in sh.signers && a in sh.signers[p] && a in sh.signers[q] ==> p == q)
  }

  ghost predicate PoolShape(sh: Shared, p: AppId)
    requires p in sh.pools
  {
    && p in sh.signers && sh.pools[p].signers == sh.signers[p] && sh.pools[p].signers != []
    && Distinct(sh.pools[p].idle)
    && forall a :: a in sh.pools[p].idle ==> a in sh.pools[p].signers
  }

  ghost predicate PoolThread(sh: Shared, th: Thread) {
    && th.app in sh.signers
    && (BeforeCheckout(th.pc) ==> th.held.None?)
    && (NeedsSigner(th.pc) ==> th.held.Some?)
    && (th.held.Some? ==> && th.app in sh.pools
                          && th.held.value in sh.pools[th.app].signers
                          && th.held.value !in sh.pools[th.app].idle)
    && (th.pc.Lookup? || th.pc.Wait? ==> th.app in sh.pools)
    && (th.pc.Hydrate? ==> HydratePool(sh, th))
  }

  ghost predicate HydratePool(sh: Shared, th: Thread)
    requires th.pc.Hydrate?
  {
    && th.app in sh.signers && th.pc.addrs == sh.signers[th.app] && th.pc.addrs != []
    && th.pc.done <= |th.pc.addrs|
    && th.pc.got.Keys == Elements(th.pc.addrs[..th.pc.done])
  }

  ghost predicate Holds(s: State, t: Tid, a: Addr) {
    t in s.threads && s.threads[t].held == Some(a)
  }

  ghost predicate PoolsOk(s: State) {
    && TableOk(s.sh)
    && (forall p {:trigger PoolShape(s.sh, p)} :: p in s.sh.pools ==> PoolShape(s.sh, p))
    && (forall t {:trigger PoolThread(s.sh, s.threads[t])} :: t in s.threads ==> PoolThread(s.sh, s.threads[t]))
    // a signer is held by one call at most ...
    && (forall t, u, a :: Holds(s, t, a) && Holds(s, u, a) ==> t == u)
    // ... and by one call exactly when it is not idle
    && (forall p, a :: p in s.sh.pools && a in s.sh.pools[p].signers ==>
          a in s.sh.pools[p].idle || exists t :: Holds(s, t, a))
  }

  // ---- Nonces

  ghost predicate NonceThread(sh: Shared, th: Thread) {
    && (th.pc.Hydrate? && th.app !in sh.pools ==>
          forall a :: a in th.pc.got ==> th.pc.got[a] == PendingNonce(sh, a))
    && (th.held.Some? ==>
          var a := th.held.value;
          var pending := PendingNonce(sh, a);
          && a in sh.nonces
          && (if th.pc.SignTx? || th.pc.InsertAttempt? || th.pc.Send? then
                && th.pc.tx.signer == a && th.pc.tx.nonce == pending && sh.nonces[a] == Inc(pending)
                && th.pc.tx.call == th.call
              else if th.pc.Rewind? then sh.nonces[a] == Inc(pending)
              else sh.nonces[a] == pending))
  }

  ghost predicate IdleNonces(sh: Shared, p: AppId)
    requires p in sh.pools
  {
    forall a :: a in sh.pools[p].idle ==> a in sh.nonces && sh.nonces[a] == PendingNonce(sh, a)
  }

  ghost predicate NoncesOk(s: State) {
    && (forall p {:trigger IdleNonces(s.sh, p)} :: p in s.sh.pools ==> IdleNonces(s.sh, p))
    && (forall t {:trigger NonceThread(s.sh, s.threads[t])} :: t in s.threads ==> NonceThread(s.sh, s.threads[t]))
  }

  /** Transactions of one account with consecutive nonces, from `first` on. */
  ghost predicate Consecutive(a: Addr, first: nat, txs: seq<Tx>) {
    forall i :: 0 <= i < |txs| ==> txs[i].signer == a && txs[i].nonce == (first + i) % U64
  }

  /** Every account's accepted transactions leave no gap and repeat no nonce. */
  ghost predicate ChainOk(sh: Shared) {
    forall a :: Consecutive(a, StartNonce(sh, a), AcceptedBy(sh, a))
  }

  // ---- Rows

  /** A request nothing was sent for and whose status was never touched. */
  ghost predicate Untouched(sh: Shared, r: ReqId) {
    r in sh.requests && sh.requests[r].log == [RPending] && NoAttempt(sh, r)
  }

  ghost predicate Unsent(sh: Shared, r: ReqId, x: AttId) {
    && r in sh.requests && sh.requests[r].log == [RPending]
    && x in sh.attempts && sh.attempts[x].req == r && sh.attempts[x].status == ASubmitting
    && !IsAccepted(sh, sh.attempts[x].hash)
  }

  ghost predicate RowThread(sh: Shared, th: Thread) {
    && th.req in sh.requests && sh.requests[th.req].app == th.app && sh.requests[th.req].call == th.call
    && (BeforeAttempt(th.pc) ==> Untouched(sh, th.req))
    && (th.pc.Send? ==> Unsent(sh, th.req, th.pc.att) && sh.attempts[th.pc.att].hash == th.pc.tx)
    && (th.pc.MarkFailed? ==> Unsent(sh, th.req, th.pc.att))
    && (th.pc.Rewind? && th.pc.failed.Some? ==> Unsent(sh, th.req, th.pc.failed.value))
    && (th.pc.MarkSubmitted? ==>
          && th.pc.att in sh.attempts && sh.attempts[th.pc.att].req == th.req
          && IsAccepted(sh, sh.attempts[th.pc.att].hash)
          && (sh.attempts[th.pc.att].status == ASubmitting || IsSettled(sh.attempts[th.pc.att]))
          && RSubmitted !in sh.requests[th.req].log)
    && (Notifying(th.pc) && th.pc.rejected ==> sh.requests[th.req].log == [RPending, RRejected])
    && (Notifying(th.pc) && !th.pc.rejected ==> RSubmitted in sh.requests[th.req].log)
  }

  /** What an attempt and its request look like together, with the whole history of the request. */
  ghost predicate PairOk(a: Attempt, log: seq<ReqStatus>, accepted: bool, receipt: Option<Receipt>) {
    match a.status
    case ASubmitting => log == [RPending] && a.recorded.None?
    case AFailed => log == [RPending] && a.recorded.None? && !accepted
    case ASubmitted =>
      accepted && (|| (log == [RPending, RSubmitted] && a.recorded.None?)
                   || (receipt.Some? && log == [RPending, Outcome(receipt.value), RSubmitted]
                       && a.recorded == Some(Record(receipt.value))))
    case _ =>
      && accepted && receipt.Some? && a.recorded == Some(Record(receipt.value))
      && a.status == AttemptOutcome(receipt.value)
      && var T := Outcome(receipt.value);
         log == [RPending, T] || log == [RPending, RSubmitted, T] || log == [RPending, T, RSubmitted, T]
  }

  function ReceiptOf(sh: Shared, tx: Tx): Option<Receipt> {
    if tx in sh.receipts then Some(sh.receipts[tx]) else None
  }

  ghost predicate AttemptOk(sh: Shared, x: AttId)
    requires x in sh.attempts
  {
    var a := sh.attempts[x];
    && a.req in sh.requests
    && a.signer == a.hash.signer && a.nonce == ToInt64(a.hash.nonce)
    && a.hash.signer in SignersOf(sh, sh.requests[a.req].app)
    && a.hash.call == sh.requests[a.req].call
    && PairOk(a, sh.requests[a.req].log, IsAccepted(sh, a.hash), ReceiptOf(sh, a.hash))
  }

  ghost predicate RequestOk(sh: Shared, r: ReqId)
    requires r in sh.requests
  {
    var q := sh.requests[r];
    && q.log != [] && q.status == q.log[|q.log| - 1]
    && (NoAttempt(sh, r) ==> q.log == [RPending] || q.log == [RPending, RRejected])
  }

  /** An accepted transaction has a row, and the row is not marked failed. */
  ghost predicate Backed(sh: Shared, tx: Tx) {
    exists x :: x in sh.attempts && sh.attempts[x].hash == tx && sh.attempts[x].status != AFailed
  }

  ghost predicate WatcherOk(sh: Shared, w: Watcher) {
    match w
    case WIdle => true
    case WBatch(todo) => TodoOk(sh, todo)
    case WSettle(x, rc, todo) =>
      && TodoOk(sh, todo) && x !in todo
      && x in sh.attempts && IsOpen(sh.attempts[x])
      && sh.attempts[x].hash in sh.receipts && sh.receipts[sh.attempts[x].hash] == rc
    case WSnapshot(r, todo) => TodoOk(sh, todo) && r in sh.requests
    case WEnqueue(r, _, todo) => TodoOk(sh, todo) && r in sh.requests
  }

  ghost predicate TodoOk(sh: Shared, todo: seq<AttId>) {
    Distinct(todo) && forall x :: x in todo ==> x in sh.attempts && !IsSettled(sh.attempts[x])
  }

  ghost predicate OneOwner(s: State) {
    forall t, u :: t in s.threads && u in s.threads && s.threads[t].req == s.threads[u].req ==> t == u
  }

  ghost predicate UniqueRows(sh: Shared) {
    && (forall x, y :: x in sh.attempts && y in sh.attempts && sh.attempts[x].req == sh.attempts[y].req ==> x == y)
    && (forall x, y :: x in sh.attempts && y in sh.attempts && sh.attempts[x].hash == sh.attempts[y].hash ==> x == y)
  }

  ghost predicate DbOk(sh: Shared) {
    && (forall r {:trigger RequestOk(sh, r)} :: r in sh.requests ==> RequestOk(sh, r))
    && (forall x {:trigger AttemptOk(sh, x)} :: x in sh.attempts ==> AttemptOk(sh, x))
    && UniqueRows(sh)
    && (forall tx {:trigger Backed(sh, tx)} :: IsAccepted(sh, tx) ==> Backed(sh, tx))
    && (forall tx :: tx in sh.receipts ==> IsAccepted(sh, tx))
  }

  ghost predicate OwnersOk(s: State) {
    && (forall t {:trigger RowThread(s.sh, s.threads[t])} :: t in s.threads ==> RowThread(s.sh, s.threads[t]))
    && OneOwner(s)
  }

  ghost predicate RowsOk(s: State) {
    DbOk(s.sh) && OwnersOk(s) && WatcherOk(s.sh, s.watcher)
  }
}
