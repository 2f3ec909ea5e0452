/** The atomic steps of the relayer: one per database statement or transaction, RPC,
    mutex section and channel operation of internal/relay and internal/signer. */
module RelaySteps {
  import opened Common
  import opened RelayState

  function Goto(s: State, t: Tid, pc: Pc): State
    requires t in s.threads
  {
    s.(threads := s.threads[t := s.threads[t].(pc := pc)])
  }

  function WithShared(s: State, sh: Shared): State {
    s.(sh := sh)
  }

  function SetRequest(sh: Shared, r: ReqId, st: ReqStatus): Shared
    requires r in sh.requests
  {
    sh.(requests := sh.requests[r := SetStatus(sh.requests[r], st)])
  }

  // ---- Submit (internal/relay/service.go)

  /** `insertRequest`: the foreign key refuses an unknown application. */
  predicate CanBegin(s: State, t: Tid, r: ReqId, app: AppId, o: Write) {
    t !in s.threads && r !in s.sh.requests && (o.Fail? || app in s.sh.signers)
  }

  function DoBegin(s: State, t: Tid, r: ReqId, app: AppId, call: Call, notify: bool, o: Write): State {
    if o.Fail? then s
    else
      var sh := s.sh.(requests := s.sh.requests[r := Request(app, call, notify, RPending, [RPending])]);
      if o.Lost? then WithShared(s, sh)
      else WithShared(s, sh).(threads := s.threads[t := Thread(app, r, call, None, LoadCheck)])
  }

  predicate CanLoadCheck(s: State, t: Tid) {
    t in s.threads && s.threads[t].pc.LoadCheck?
  }

  function DoLoadCheck(s: State, t: Tid): State
    requires CanLoadCheck(s, t)
  {
    Goto(s, t, if s.threads[t].app in s.sh.pools then Lookup else LoadList)
  }

  predicate CanLoadList(s: State, t: Tid) {
    t in s.threads && s.threads[t].pc.LoadList?
  }

  function DoLoadList(s: State, t: Tid, ok: bool): State
    requires CanLoadList(s, t)
  {
    var addrs := SignersOf(s.sh, s.threads[t].app);
    Goto(s, t, if !ok || addrs == [] then Reject else Hydrate(addrs, 0, map[]))
  }

  /** One turn of the hydration loop: read the key and the pending nonce of one address. */
  predicate CanHydrate(s: State, t: Tid) {
    t in s.threads && s.threads[t].pc.Hydrate? && s.threads[t].pc.done < |s.threads[t].pc.addrs|
  }

  function DoHydrate(s: State, t: Tid, ok: bool): State
    requires CanHydrate(s, t)
  {
    var Hydrate(addrs, done, got) := s.threads[t].pc;
    Goto(s, t, if !ok then Reject
               else Hydrate(addrs, done + 1, got[addrs[done] := PendingNonce(s.sh, addrs[done])]))
  }

  /** The second mutex section of `Load`: install, unless another `Load` got there first. */
  predicate CanInstall(s: State, t: Tid) {
    t in s.threads && s.threads[t].pc.Hydrate? && s.threads[t].pc.done == |s.threads[t].pc.addrs|
  }

  function DoInstall(s: State, t: Tid): State
    requires CanInstall(s, t)
  {
    var th := s.threads[t];
    var s' := Goto(s, t, Lookup);
    if th.app in s.sh.pools then s'
    else WithShared(s', s.sh.(pools := s.sh.pools[th.app := AppPool(th.pc.addrs, th.pc.addrs)],
                              nonces := s.sh.nonces + th.pc.got))
  }

  predicate CanLookup(s: State, t: Tid) {
    t in s.threads && s.threads[t].pc.Lookup?
  }

  function DoLookup(s: State, t: Tid): State
    requires CanLookup(s, t)
  {
    Goto(s, t, if s.threads[t].app in s.sh.pools then Wait else Reject)
  }

  predicate CanReceive(s: State, t: Tid) {
    t in s.threads && s.threads[t].pc.Wait?
    && s.threads[t].app in s.sh.pools && s.sh.pools[s.threads[t].app].idle != []
  }

  function DoReceive(s: State, t: Tid): State
    requires CanReceive(s, t)
  {
    var th := s.threads[t];
    var p := s.sh.pools[th.app];
    var pc := if th.call.gasLimit == 0 then Estimate else Price(th.call.gasLimit);
    WithShared(s, s.sh.(pools := s.sh.pools[th.app := p.(idle := p.idle[1..])]))
      .(threads := s.threads[t := th.(held := Some(p.idle[0]), pc := pc)])
  }

  /** The context ended while waiting for a signer. */
  predicate CanCancel(s: State, t: Tid) {
    t in s.threads && s.threads[t].pc.Wait?
  }

  function DoCancel(s: State, t: Tid): State
    requires CanCancel(s, t)
  {
    Goto(s, t, Reject)
  }

  predicate CanEstimate(s: State, t: Tid) {
    t in s.threads && s.threads[t].pc.Estimate?
  }

  /** A 20 percent margin, in 64-bit arithmetic. */
  function Buffered(estimate: nat): nat {
    estimate * 12 % U64 / 10
  }

  function DoEstimate(s: State, t: Tid, estimate: Option<nat>): State
    requires CanEstimate(s, t)
  {
    Goto(s, t, if estimate.None? then Reject else Price(Buffered(estimate.value)))
  }

  predicate CanPrice(s: State, t: Tid) {
    t in s.threads && s.threads[t].pc.Price?
  }

  function DoPrice(s: State, t: Tid, price: Option<nat>): State
    requires CanPrice(s, t)
  {
    Goto(s, t, if price.None? then Reject else TakeNonce(s.threads[t].pc.gasLimit, price.value))
  }

  predicate HoldsKnown(s: State, t: Tid) {
    t in s.threads && s.threads[t].held.Some? && s.threads[t].held.value in s.sh.nonces
  }

  predicate CanTakeNonce(s: State, t: Tid) {
    HoldsKnown(s, t) && s.threads[t].pc.TakeNonce?
  }

  function DoTakeNonce(s: State, t: Tid): State
    requires CanTakeNonce(s, t)
  {
    var th := s.threads[t];
    var a := th.held.value;
    var n := s.sh.nonces[a];
    WithShared(Goto(s, t, SignTx(Tx(a, n, th.call, th.pc.gasLimit, th.pc.gasPrice))),
               s.sh.(nonces := s.sh.nonces[a := Inc(n)]))
  }

  predicate CanSign(s: State, t: Tid) {
    t in s.threads && s.threads[t].pc.SignTx?
  }

  function DoSign(s: State, t: Tid, ok: bool): State
    requires CanSign(s, t)
  {
    Goto(s, t, if ok then InsertAttempt(s.threads[t].pc.tx) else Rewind(None))
  }

  /** The unique index on `tx_hash` refuses a transaction that already has a row. */
  predicate HashIsNew(sh: Shared, tx: Tx) {
    forall y :: y in sh.attempts ==> sh.attempts[y].hash != tx
  }

  predicate CanInsertAttempt(s: State, t: Tid, x: AttId, o: Write) {
    t in s.threads && s.threads[t].pc.InsertAttempt? && x !in s.sh.attempts
    && (o.Fail? || HashIsNew(s.sh, s.threads[t].pc.tx))
  }

  function DoInsertAttempt(s: State, t: Tid, x: AttId, at: int, o: Write): State
    requires t in s.threads && s.threads[t].pc.InsertAttempt?
  {
    var th := s.threads[t];
    var tx := th.pc.tx;
    var row := Attempt(th.req, tx.signer, ToInt64(tx.nonce), tx, ASubmitting, None, at);
    var s' := Goto(s, t, if o.Ok? then Send(tx, x) else Rewind(None));
    if o.Fail? then s' else WithShared(s', s.sh.(attempts := s.sh.attempts[x := row]))
  }

  predicate CanSend(s: State, t: Tid) {
    t in s.threads && s.threads[t].pc.Send?
  }

  /** The node takes any transaction it does not refuse, whatever its nonce. */
  function DoSend(s: State, t: Tid, ok: bool): State
    requires CanSend(s, t)
  {
    var Send(tx, x) := s.threads[t].pc;
    if ok then
      WithShared(Goto(s, t, MarkSubmitted(x)),
                 s.sh.(accepted := s.sh.accepted[tx.signer := AcceptedBy(s.sh, tx.signer) + [tx]]))
    else Goto(s, t, Rewind(Some(x)))
  }

  predicate CanRewind(s: State, t: Tid) {
    HoldsKnown(s, t) && s.threads[t].pc.Rewind?
  }

  function DoRewind(s: State, t: Tid): State
    requires CanRewind(s, t)
  {
    var th := s.threads[t];
    var a := th.held.value;
    WithShared(Goto(s, t, if th.pc.failed.Some? then MarkFailed(th.pc.failed.value) else Finish),
               s.sh.(nonces := s.sh.nonces[a := Dec(s.sh.nonces[a])]))
  }

  predicate CanMarkFailed(s: State, t: Tid) {
    t in s.threads && s.threads[t].pc.MarkFailed? && s.threads[t].pc.att in s.sh.attempts
  }

  function DoMarkFailed(s: State, t: Tid, o: Write): State
    requires CanMarkFailed(s, t)
  {
    var x := s.threads[t].pc.att;
    var s' := Goto(s, t, Finish);
    if o.Fail? then s'
    else WithShared(s', s.sh.(attempts := s.sh.attempts[x := s.sh.attempts[x].(status := AFailed)]))
  }

  predicate CanMarkSubmitted(s: State, t: Tid) {
    t in s.threads && s.threads[t].pc.MarkSubmitted?
    && s.threads[t].pc.att in s.sh.attempts && s.threads[t].req in s.sh.requests
  }

  /** Both rows in one transaction, with no condition on their current status. */
  function DoMarkSubmitted(s: State, t: Tid, o: Write): State
    requires CanMarkSubmitted(s, t)
  {
    var x := s.threads[t].pc.att;
    var s' := Goto(s, t, if o.Ok? then Snapshot(false) else Finish);
    if o.Fail? then s'
    else WithShared(s', SetRequest(s.sh, s.threads[t].req, RSubmitted)
                        .(attempts := s.sh.attempts[x := s.sh.attempts[x].(status := ASubmitted)]))
  }

  predicate CanReject(s: State, t: Tid) {
    t in s.threads && s.threads[t].pc.Reject? && s.threads[t].req in s.sh.requests
  }

  function DoReject(s: State, t: Tid, o: Write): State
    requires CanReject(s, t)
  {
    var r := s.threads[t].req;
    var s' := Goto(s, t, if o.Ok? then Snapshot(true) else Finish);
    if o.Fail? then s'
    else WithShared(s', SetRequest(s.sh, r, RRejected)
                        .(dropped := if o.Ok? then s.sh.dropped else s.sh.dropped + {r}))
  }

  /** `GetRaw`, the first half of `Enqueue`. Its errors are swallowed. */
  predicate CanSnapshot(s: State, t: Tid, x: Option<AttId>) {
    t in s.threads && s.threads[t].pc.Snapshot? && s.threads[t].req in s.sh.requests
    && IsLatestAttempt(s.sh, s.threads[t].req, x)
  }

  function DropIf(sh: Shared, r: ReqId, lost: bool): Shared {
    if lost then sh.(dropped := sh.dropped + {r}) else sh
  }

  function DoSnapshot(s: State, t: Tid, x: Option<AttId>, ok: bool): State
    requires t in s.threads && s.threads[t].pc.Snapshot? && s.threads[t].req in s.sh.requests
    requires x.Some? ==> x.value in s.sh.attempts
  {
    var th := s.threads[t];
    if !ok then WithShared(Goto(s, t, Finish), DropIf(s.sh, th.req, th.pc.rejected))
    else if !s.sh.requests[th.req].notify then Goto(s, t, Finish)
    else Goto(s, t, Enqueue(th.pc.rejected, MakePayload(s.sh, th.req, x)))
  }

  predicate CanEnqueue(s: State, t: Tid) {
    t in s.threads && s.threads[t].pc.Enqueue?
  }

  function DoEnqueue(s: State, t: Tid, o: Write): State
    requires CanEnqueue(s, t)
  {
    var th := s.threads[t];
    WithShared(Goto(s, t, Finish),
               if o.Fail? then DropIf(s.sh, th.req, th.pc.rejected)
               else s.sh.(deliveries := s.sh.deliveries + [Delivery(th.req, th.pc.payload)]))
  }

  /** Return from `Submit`, running the deferred `Release` if a signer is held. */
  predicate CanFinish(s: State, t: Tid) {
    t in s.threads && s.threads[t].pc.Finish?
  }

  function Released(sh: Shared, app: AppId, a: Addr): Shared {
    if app in sh.pools then
      sh.(pools := sh.pools[app := sh.pools[app].(idle := sh.pools[app].idle + [a])])
    else sh
  }

  function DoFinish(s: State, t: Tid): State
    requires CanFinish(s, t)
  {
    var th := s.threads[t];
    var sh := if th.held.Some? then Released(s.sh, th.app, th.held.value) else s.sh;
    WithShared(s, sh).(threads := s.threads - {t})
  }

  // ---- Watcher (internal/relay/watcher.go)

  predicate CanSelect(s: State, todo: seq<AttId>) {
    s.watcher.WIdle? && IsOpenBatch(s.sh.attempts, s.batchSize, todo)
  }

  function DoSelect(s: State, todo: seq<AttId>): State {
    s.(watcher := WBatch(todo))
  }

  predicate CanReadReceipt(s: State) {
    s.watcher.WBatch? && s.watcher.todo != [] && s.watcher.todo[0] in s.sh.attempts
  }

  /** A missing receipt and an RPC error both move on to the next attempt. */
  function DoReadReceipt(s: State, ok: bool): State
    requires CanReadReceipt(s)
  {
    var x, rest := s.watcher.todo[0], s.watcher.todo[1..];
    var h := s.sh.attempts[x].hash;
    s.(watcher := if ok && h in s.sh.receipts then WSettle(x, s.sh.receipts[h], rest) else WBatch(rest))
  }

  predicate CanSettle(s: State) {
    s.watcher.WSettle? && s.watcher.att in s.sh.attempts
    && s.sh.attempts[s.watcher.att].req in s.sh.requests
  }

  /** Attempt and request in one transaction, with no condition on their current status. */
  function DoSettle(s: State, o: Write): State
    requires CanSettle(s)
  {
    var WSettle(x, rc, rest) := s.watcher;
    var a := s.sh.attempts[x];
    var r := a.req;
    if o.Fail? then s.(watcher := WBatch(rest))
    else
      var row := a.(status := AttemptOutcome(rc), recorded := Some(Record(rc)));
      var sh := SetRequest(s.sh, r, Outcome(rc))
                .(attempts := s.sh.attempts[x := row],
                  dropped := if o.Ok? then s.sh.dropped - {r} else s.sh.dropped + {r});
      WithShared(s, sh).(watcher := if o.Ok? then WSnapshot(r, rest) else WBatch(rest))
  }

  predicate CanWatcherSnapshot(s: State, x: Option<AttId>) {
    s.watcher.WSnapshot? && s.watcher.req in s.sh.requests && IsLatestAttempt(s.sh, s.watcher.req, x)
  }

  function DoWatcherSnapshot(s: State, x: Option<AttId>, ok: bool): State
    requires s.watcher.WSnapshot? && s.watcher.req in s.sh.requests
    requires x.Some? ==> x.value in s.sh.attempts
  {
    var WSnapshot(r, rest) := s.watcher;
    if !ok then WithShared(s, DropIf(s.sh, r, true)).(watcher := WBatch(rest))
    else if !s.sh.requests[r].notify then s.(watcher := WBatch(rest))
    else s.(watcher := WEnqueue(r, MakePayload(s.sh, r, x), rest))
  }

  predicate CanWatcherEnqueue(s: State) {
    s.watcher.WEnqueue?
  }

  function DoWatcherEnqueue(s: State, o: Write): State
    requires CanWatcherEnqueue(s)
  {
    var WEnqueue(r, p, rest) := s.watcher;
    WithShared(s, if o.Fail? then DropIf(s.sh, r, true)
                  else s.sh.(deliveries := s.sh.deliveries + [Delivery(r, p)]))
      .(watcher := WBatch(rest))
  }

  predicate CanEndTick(s: State) {
    s.watcher.WBatch? && s.watcher.todo == []
  }

  function DoEndTick(s: State): State {
    s.(watcher := WIdle)
  }

  // ---- Environment

  /** A transaction the chain accepted is mined once; its receipt never changes. */
  predicate CanMine(s: State, tx: Tx) {
    IsAccepted(s.sh, tx) && tx !in s.sh.receipts
  }

  function DoMine(s: State, tx: Tx, rc: Receipt): State {
    WithShared(s, s.sh.(receipts := s.sh.receipts[tx := rc]))
  }

  /** `app.Create`: the primary key of `signers` keeps an address in one application. */
  predicate CanCreateApp(s: State, app: AppId, addrs: seq<Addr>) {
    app !in s.sh.signers && Distinct(addrs)
    && forall b, i :: b in s.sh.signers && 0 <= i < |addrs| ==> addrs[i] !in s.sh.signers[b]
  }

  function DoCreateApp(s: State, app: AppId, addrs: seq<Addr>): State {
    WithShared(s, s.sh.(signers := s.sh.signers[app := addrs]))
  }

  /** Requests whose final-status notification is in flight and dies with the process. */
  function InFlight(s: State): set<ReqId> {
    (set t | t in s.threads && Notifying(s.threads[t].pc) && s.threads[t].pc.rejected :: s.threads[t].req)
    + (if s.watcher.WSnapshot? || s.watcher.WEnqueue? then {s.watcher.req} else {})
  }

  predicate Notifying(pc: Pc) {
    pc.Snapshot? || pc.Enqueue?
  }

  /** The process dies and restarts: memory is gone, rows and chain stay. */
  function DoCrash(s: State): State {
    State(s.sh.(pools := map[], nonces := map[], dropped := s.sh.dropped + InFlight(s)),
          map[], WIdle, s.batchSize)
  }

  // ---- All steps

  /** `Submit` from the request row up to the gas price. */
  datatype SetupAct =
    | ALoadCheck
    | ALoadList(ok: bool)
    | AHydrate(ok: bool)
    | AInstall
    | ALookup
    | AReceive
    | ACancel
    | AEstimate(estimate: Option<nat>)
    | APrice(price: Option<nat>)

  /** `Submit` from the nonce to the broadcast, and the undoing of a failed one. */
  datatype SendAct =
    | ATakeNonce
    | ASign(ok: bool)
    | AInsertAttempt(x: AttId, at: int, o: Write)
    | ASend(ok: bool)
    | ARewind
    | AMarkFailed(o: Write)

  /** `Submit` from the final status write to its return. */
  datatype CloseAct =
    | AMarkSubmitted(o: Write)
    | AReject(o: Write)
    | ASnapshot(latest: Option<AttId>, ok: bool)
    | AEnqueue(o: Write)
    | AFinish

  datatype WatchAct =
    | ASelect(todo: seq<AttId>)
    | AReadReceipt(ok: bool)
    | ASettle(o: Write)
    | AWatcherSnapshot(latest: Option<AttId>, ok: bool)
    | AWatcherEnqueue(o: Write)
    | AEndTick

  datatype Step =
    | Begin(t: Tid, r: ReqId, app: AppId, call: Call, notify: bool, o: Write)
    | Setup(t: Tid, setup: SetupAct)
    | Sending(t: Tid, send: SendAct)
    | Closing(t: Tid, close: CloseAct)
    | Watching(watch: WatchAct)
    | Mine(tx: Tx, receipt: Receipt)
    | CreateApp(app: AppId, addrs: seq<Addr>)
    | Crash

  predicate CanSetup(s: State, t: Tid, a: SetupAct) {
    match a
    case ALoadCheck => CanLoadCheck(s, t)
    case ALoadList(_) => CanLoadList(s, t)
    case AHydrate(_) => CanHydrate(s, t)
    case AInstall => CanInstall(s, t)
    case ALookup => CanLookup(s, t)
    case AReceive => CanReceive(s, t)
    case ACancel => CanCancel(s, t)
    case AEstimate(_) => CanEstimate(s, t)
    case APrice(_) => CanPrice(s, t)
  }

  function DoSetup(s: State, t: Tid, a: SetupAct): State
    requires CanSetup(s, t, a)
  {
    match a
    case ALoadCheck => DoLoadCheck(s, t)
    case ALoadList(ok) => DoLoadList(s, t, ok)
    case AHydrate(ok) => DoHydrate(s, t, ok)
    case AInstall => DoInstall(s, t)
    case ALookup => DoLookup(s, t)
    case AReceive => DoReceive(s, t)
    case ACancel => DoCancel(s, t)
    case AEstimate(est) => DoEstimate(s, t, est)
    case APrice(price) => DoPrice(s, t, price)
  }

  predicate CanSending(s: State, t: Tid, a: SendAct) {
    match a
    case ATakeNonce => CanTakeNonce(s, t)
    case ASign(_) => CanSign(s, t)
    case AInsertAttempt(x, _, o) => CanInsertAttempt(s, t, x, o)
    case ASend(_) => CanSend(s, t)
    case ARewind => CanRewind(s, t)
    case AMarkFailed(_) => CanMarkFailed(s, t)
  }

  function DoSending(s: State, t: Tid, a: SendAct): State
    requires CanSending(s, t, a)
  {
    match a
    case ATakeNonce => DoTakeNonce(s, t)
    case ASign(ok) => DoSign(s, t, ok)
    case AInsertAttempt(x, at, o) => DoInsertAttempt(s, t, x, at, o)
    case ASend(ok) => DoSend(s, t, ok)
    case ARewind => DoRewind(s, t)
    case AMarkFailed(o) => DoMarkFailed(s, t, o)
  }

  predicate CanClosing(s: State, t: Tid, a: CloseAct) {
    match a
    case AMarkSubmitted(_) => CanMarkSubmitted(s, t)
    case AReject(_) => CanReject(s, t)
    case ASnapshot(x, _) => CanSnapshot(s, t, x)
    case AEnqueue(_) => CanEnqueue(s, t)
    case AFinish => CanFinish(s, t)
  }

  function DoClosing(s: State, t: Tid, a: CloseAct): State
    requires CanClosing(s, t, a)
  {
    match a
    case AMarkSubmitted(o) => DoMarkSubmitted(s, t, o)
    case AReject(o) => DoReject(s, t, o)
    case ASnapshot(x, ok) => DoSnapshot(s, t, x, ok)
    case AEnqueue(o) => DoEnqueue(s, t, o)
    case AFinish => DoFinish(s, t)
  }

  predicate CanWatch(s: State, a: WatchAct) {
    match a
    case ASelect(todo) => CanSelect(s, todo)
    case AReadReceipt(_) => CanReadReceipt(s)
    case ASettle(_) => CanSettle(s)
    case AWatcherSnapshot(x, _) => CanWatcherSnapshot(s, x)
    case AWatcherEnqueue(_) => CanWatcherEnqueue(s)
    case AEndTick => CanEndTick(s)
  }

  function DoWatch(s: State, a: WatchAct): State
    requires CanWatch(s, a)
  {
    match a
    case ASelect(todo) => DoSelect(s, todo)
    case AReadReceipt(ok) => DoReadReceipt(s, ok)
    case ASettle(o) => DoSettle(s, o)
    case AWatcherSnapshot(x, ok) => DoWatcherSnapshot(s, x, ok)
    case AWatcherEnqueue(o) => DoWatcherEnqueue(s, o)
    case AEndTick => DoEndTick(s)
  }

  /** Of all threads only `t` changed, and only its program counter. */
  ghost predicate Moved(s: State, s': State, t: Tid) {
    && t in s.threads && t in s'.threads
    && s'.threads == s.threads[t := s.threads[t].(pc := s'.threads[t].pc)]
    && s'.watcher == s.watcher && s'.batchSize == s.batchSize
  }

  /** Nothing about signers and the chain changed. */
  ghost predicate SameLedger(sh: Shared, sh': Shared) {
    && sh'.signers == sh.signers && sh'.pools == sh.pools && sh'.nonces == sh.nonces
    && sh'.start == sh.start && sh'.accepted == sh.accepted && sh'.receipts == sh.receipts
  }

  /** Loading and waiting for a signer, then gas: only `Install` and `Receive` change anything shared. */
  lemma SetupFrame(s: State, t: Tid, a: SetupAct)
    requires CanSetup(s, t, a) && !a.AInstall? && !a.AReceive?
    ensures var s' := DoSetup(s, t, a);
            && s'.sh == s.sh && Moved(s, s', t)
            && var pc, pc' := s.threads[t].pc, s'.threads[t].pc;
               && BeforeAttempt(pc) && BeforeAttempt(pc')
               && (BeforeCheckout(pc') ==> BeforeCheckout(pc)) && (NeedsSigner(pc') ==> NeedsSigner(pc))
               && (pc'.Lookup? || pc'.Wait? ==> s.threads[t].app in s.sh.pools)
               && (pc'.Hydrate? ==> a.AHydrate? || a.ALoadList?)
               && !pc.SignTx? && !pc'.SignTx? && !pc.InsertAttempt? && !pc'.InsertAttempt?
  {
    match a
    case ALoadCheck =>
    case ALoadList(ok) =>
    case AHydrate(ok) =>
    case ALookup =>
    case ACancel =>
    case AEstimate(est) =>
    case APrice(price) =>
  }

  /** Up to the gas price a call changes pools and nonces at most. */
  lemma SetupKeepsRows(s: State, t: Tid, a: SetupAct)
    requires CanSetup(s, t, a)
    ensures var sh' := DoSetup(s, t, a).sh; sh' == s.sh.(pools := sh'.pools, nonces := sh'.nonces)
  {
    if !a.AInstall? && !a.AReceive? {
      SetupFrame(s, t, a);
    }
  }

  /** The last statements of `Submit` before its return write rows only. */
  lemma CloseFrame(s: State, t: Tid, a: CloseAct)
    requires CanClosing(s, t, a) && !a.AFinish?
    ensures var s' := DoClosing(s, t, a);
            && SameLedger(s.sh, s'.sh) && Moved(s, s', t)
            && (a.ASnapshot? || a.AEnqueue? ==> s'.sh.requests == s.sh.requests)
            && (a.ASnapshot? || a.AEnqueue? || a.AReject? ==> s'.sh.attempts == s.sh.attempts)
            && var pc := s'.threads[t].pc; pc.Finish? || pc.Snapshot? || pc.Enqueue?
  {
    match a
    case AMarkSubmitted(o) =>
    case AReject(o) =>
    case ASnapshot(x, ok) =>
    case AEnqueue(o) =>
  }

  /** Nor do they, or the return, touch the chain. */
  lemma CloseKeepsChain(s: State, t: Tid, a: CloseAct)
    requires CanClosing(s, t, a)
    ensures var sh' := DoClosing(s, t, a).sh;
            sh'.start == s.sh.start && sh'.accepted == s.sh.accepted && sh'.receipts == s.sh.receipts
  {
    if !a.AFinish? {
      CloseFrame(s, t, a);
    }
  }

  /** The watcher touches rows only: no thread, no pool, no nonce, nothing on chain. */
  lemma WatchFrame(s: State, a: WatchAct)
    requires CanWatch(s, a)
    ensures var s' := DoWatch(s, a);
            && s'.threads == s.threads && SameLedger(s.sh, s'.sh) && s'.batchSize == s.batchSize
            && (!a.ASettle? ==> s'.sh.requests == s.sh.requests && s'.sh.attempts == s.sh.attempts)
            && (!a.AWatcherEnqueue? ==> s'.sh.deliveries == s.sh.deliveries)
  {
    match a
    case ASelect(todo) =>
    case AReadReceipt(ok) =>
    case ASettle(o) =>
    case AWatcherSnapshot(x, ok) =>
    case AWatcherEnqueue(o) =>
    case AEndTick =>
  }

  predicate Enabled(s: State, e: Step) {
    match e
    case Begin(t, r, app, _, _, o) => CanBegin(s, t, r, app, o)
    case Setup(t, a) => CanSetup(s, t, a)
    case Sending(t, a) => CanSending(s, t, a)
    case Closing(t, a) => CanClosing(s, t, a)
    case Watching(a) => CanWatch(s, a)
    case Mine(tx, _) => CanMine(s, tx)
    case CreateApp(app, addrs) => CanCreateApp(s, app, addrs)
    case Crash => true
  }

  function Apply(s: State, e: Step): State
    requires Enabled(s, e)
  {
    match e
    case Begin(t, r, app, call, notify, o) => DoBegin(s, t, r, app, call, notify, o)
    case Setup(t, a) => DoSetup(s, t, a)
    case Sending(t, a) => DoSending(s, t, a)
    case Closing(t, a) => DoClosing(s, t, a)
    case Watching(a) => DoWatch(s, a)
    case Mine(tx, rc) => DoMine(s, tx, rc)
    case CreateApp(app, addrs) => DoCreateApp(s, app, addrs)
    case Crash => DoCrash(s)
  }

  // ---- Runs

  /** Empty tables, nothing accepted yet, a freshly started process. */
  ghost predicate Init(s: State) {
    && s.sh.signers == map[] && s.sh.requests == map[] && s.sh.attempts == map[] && s.sh.deliveries == []
    && s.sh.accepted == map[] && s.sh.receipts == map[]
    && s.sh.pools == map[] && s.sh.nonces == map[]
    && s.threads == map[] && s.watcher == WIdle && s.sh.dropped == {}
  }

  /** `run` is a finite execution: consecutive states are related by one enabled step each. */
  ghost predicate IsRun(s: State, steps: seq<Step>)
    decreases |steps|
  {
    steps == [] || (Enabled(s, steps[0]) && IsRun(Apply(s, steps[0]), steps[1..]))
  }

  ghost function After(s: State, steps: seq<Step>): State
    requires IsRun(s, steps)
    decreases |steps|
  {
    if steps == [] then s else After(Apply(s, steps[0]), steps[1..])
  }

  ghost predicate Reachable(s: State) {
    exists s0, steps :: Init(s0) && IsRun(s0, steps) && After(s0, steps) == s
  }
}
