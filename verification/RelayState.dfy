/** The three kinds of state of the relayer: database rows, chain, process memory. */
module RelayState {
  import opened Common

  type AppId = nat
  type Addr = nat
  type ReqId = nat
  type AttId = nat
  type Tid = nat

  /** What a caller asks to relay. A zero `gasLimit` means "estimate it". */
  datatype Call = Call(to: Addr, value: nat, data: seq<bv8>, gasLimit: nat)

  /** A signed transaction. It stands for its own hash: hashing is injective. */
  datatype Tx = Tx(signer: Addr, nonce: nat, call: Call, gasLimit: nat, gasPrice: nat)

  datatype Receipt = Receipt(success: bool, block: nat, gasUsed: nat, effectivePrice: Option<nat>)

  /** The receipt columns of an attempt row. */
  datatype Recorded = Recorded(block: int, gasUsed: int, effectivePrice: nat)

  datatype ReqStatus = RPending | RRejected | RSubmitted | RConfirmed | RReverted | RFailed
  datatype AttStatus = ASubmitting | ASubmitted | AFailed | AConfirmed | AReverted

  /** A `relay_requests` row. `log` is a history variable: every value `status` was ever set to.
      `notify` says that a callback URL and a callback secret are configured. */
  datatype Request = Request(app: AppId, call: Call, notify: bool, status: ReqStatus, log: seq<ReqStatus>)

  /** A `tx_attempts` row. `at` is the insertion time. */
  datatype Attempt = Attempt(req: ReqId, signer: Addr, nonce: int, hash: Tx, status: AttStatus,
                             recorded: Option<Recorded>, at: int)

  /** The snapshot a webhook carries. */
  datatype Payload = Payload(status: ReqStatus, hash: Option<Tx>, recorded: Option<Recorded>)
  datatype Delivery = Delivery(req: ReqId, payload: Payload)

  /** `idle` is the buffered channel; its capacity is `|signers|`. */
  datatype AppPool = AppPool(signers: seq<Addr>, idle: seq<Addr>)

  /** Everything several goroutines can see. */
  datatype Shared = Shared(
    // database
    signers: map<AppId, seq<Addr>>,
    requests: map<ReqId, Request>,
    attempts: map<AttId, Attempt>,
    deliveries: seq<Delivery>,
    // chain
    start: map<Addr, nat>,
    accepted: map<Addr, seq<Tx>>,
    receipts: map<Tx, Receipt>,
    // process memory
    pools: map<AppId, AppPool>,
    nonces: map<Addr, nat>,
    // history variable: requests whose latest final status lost its own notification
    dropped: set<ReqId>)

  /** Where a `Submit` call stands: the statement it executes next. */
  datatype Pc =
    | LoadCheck
    | LoadList
    | Hydrate(addrs: seq<Addr>, done: nat, got: map<Addr, nat>)
    | Lookup
    | Wait
    | Estimate
    | Price(gasLimit: nat)
    | TakeNonce(gasLimit: nat, gasPrice: nat)
    | SignTx(tx: Tx)
    | InsertAttempt(tx: Tx)
    | Send(tx: Tx, att: AttId)
    | Rewind(failed: Option<AttId>)
    | MarkFailed(att: AttId)
    | MarkSubmitted(att: AttId)
    | Reject
    | Snapshot(rejected: bool)
    | Enqueue(rejected: bool, payload: Payload)
    | Finish

  /** One `Submit` call in flight. `held` is the signer its deferred `Release` will return. */
  datatype Thread = Thread(app: AppId, req: ReqId, call: Call, held: Option<Addr>, pc: Pc)

  datatype Watcher =
    | WIdle
    | WBatch(todo: seq<AttId>)
    | WSettle(att: AttId, receipt: Receipt, todo: seq<AttId>)
    | WSnapshot(req: ReqId, todo: seq<AttId>)
    | WEnqueue(req: ReqId, payload: Payload, todo: seq<AttId>)

  datatype State = State(sh: Shared, threads: map<Tid, Thread>, watcher: Watcher, batchSize: nat)

  /** The result of one database write. `Lost` committed but reported an error to the caller. */
  datatype Write = Ok | Fail | Lost

  // ---- Phases of a `Submit` call

  predicate BeforeCheckout(pc: Pc) {
    pc.LoadCheck? || pc.LoadList? || pc.Hydrate? || pc.Lookup? || pc.Wait?
  }

  predicate NeedsSigner(pc: Pc) {
    pc.Estimate? || pc.Price? || pc.TakeNonce? || pc.SignTx? || pc.InsertAttempt? || pc.Send?
    || pc.Rewind? || pc.MarkFailed? || pc.MarkSubmitted?
  }

  predicate BeforeAttempt(pc: Pc) {
    BeforeCheckout(pc) || pc.Estimate? || pc.Price? || pc.TakeNonce? || pc.SignTx? || pc.InsertAttempt? || pc.Reject?
  }

  // ---- Reading the state

  function SignersOf(sh: Shared, app: AppId): seq<Addr> {
    if app in sh.signers then sh.signers[app] else []
  }

  function AcceptedBy(sh: Shared, a: Addr): seq<Tx> {
    if a in sh.accepted then sh.accepted[a] else []
  }

  predicate IsAccepted(sh: Shared, tx: Tx) {
    tx in AcceptedBy(sh, tx.signer)
  }

  function StartNonce(sh: Shared, a: Addr): nat {
    if a in sh.start then sh.start[a] else 0
  }

  /** `PendingNonceAt`: the account's first nonce plus the transactions accepted since. */
  function PendingNonce(sh: Shared, a: Addr): nat {
    (StartNonce(sh, a) + |AcceptedBy(sh, a)|) % U64
  }

  predicate NoAttempt(sh: Shared, r: ReqId) {
    forall x :: x in sh.attempts ==> sh.attempts[x].req != r
  }

  predicate IsOpen(a: Attempt) {
    a.status.ASubmitting? || a.status.ASubmitted?
  }

  predicate IsSettled(a: Attempt) {
    a.status.AConfirmed? || a.status.AReverted?
  }

  predicate IsTerminal(st: ReqStatus) {
    st.RConfirmed? || st.RReverted?
  }

  function Outcome(rc: Receipt): ReqStatus {
    if rc.success then RConfirmed else RReverted
  }

  function AttemptOutcome(rc: Receipt): AttStatus {
    if rc.success then AConfirmed else AReverted
  }

  function Record(rc: Receipt): Recorded {
    Recorded(ToInt64(rc.block), ToInt64(rc.gasUsed),
             if rc.effectivePrice.None? then 0 else rc.effectivePrice.value)
  }

  /** The receipt columns agree with a receipt, field by field. A missing price is stored as zero. */
  ghost predicate Shows(rec: Recorded, rc: Receipt) {
    && rec.block == ToInt64(rc.block) && rec.gasUsed == ToInt64(rc.gasUsed)
    && (rc.effectivePrice.Some? ==> rec.effectivePrice == rc.effectivePrice.value)
    && (rc.effectivePrice.None? ==> rec.effectivePrice == 0)
  }

  /** A status column update. */
  function SetStatus(q: Request, st: ReqStatus): Request {
    q.(status := st, log := q.log + [st])
  }

  /** The lateral subquery of `GetRaw`: the newest attempt of a request, if it has one. */
  predicate IsLatestAttempt(sh: Shared, r: ReqId, x: Option<AttId>) {
    match x
    case None => NoAttempt(sh, r)
    case Some(y) =>
      && y in sh.attempts && sh.attempts[y].req == r
      && forall z :: z in sh.attempts && sh.attempts[z].req == r ==> sh.attempts[z].at <= sh.attempts[y].at
  }

  function MakePayload(sh: Shared, r: ReqId, x: Option<AttId>): Payload
    requires r in sh.requests
    requires x.Some? ==> x.value in sh.attempts
  {
    if x.None? then Payload(sh.requests[r].status, None, None)
    else Payload(sh.requests[r].status, Some(sh.attempts[x.value].hash), sh.attempts[x.value].recorded)
  }

  /** The watcher's query: open attempts, oldest first, at most `limit` of them. */
  predicate IsOpenBatch(attempts: map<AttId, Attempt>, limit: nat, todo: seq<AttId>) {
    && |todo| <= limit
    && Distinct(todo)
    && (forall i :: 0 <= i < |todo| ==> todo[i] in attempts && IsOpen(attempts[todo[i]]))
    && (forall i, j :: 0 <= i < j < |todo| ==> attempts[todo[i]].at <= attempts[todo[j]].at)
    && (forall x :: x in attempts && IsOpen(attempts[x]) && x !in todo ==>
          |todo| == limit && forall i :: 0 <= i < |todo| ==> attempts[todo[i]].at <= attempts[x].at)
  }
}
