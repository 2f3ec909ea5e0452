/** `Service.Submit` as the program it is: one statement after the other, with any steps of other calls, of
    the watcher and of the chain between any two statements. Each statement is a step of the protocol. */
module RelaySubmit {
  import opened Common
  import opened RelayState
  import opened RelaySteps
  import opened RelayInv
  import opened RelayTheorems
  import opened RelayProgress
  import opened RelayAbandon
  import opened RelayNotify
  import opened RelayCall
  import opened RelayFate

  datatype SubmitError =
    | ChainIdMismatch
    | PastDeadline
    | InsertRequestFailed
    | LoadFailed
    | CheckoutFailed
    | EstimateFailed
    | PriceFailed
    | SignFailed
    | InsertAttemptFailed
    | SendFailed
    | MarkSubmittedFailed

  datatype SubmitResult = Submitted(req: ReqId, tx: Tx, signer: Addr) | Failed(error: SubmitError)

  datatype SubmitInput = SubmitInput(app: AppId, chainId: nat, call: Call, deadline: int, notify: bool)

  /** What clock, database, keystore and chain answer this call. */
  datatype Fate = Fate(now: int, insertRequest: Write, listOk: bool, hydrateOk: seq<bool>, ctxDone: bool,
                       estimate: Option<nat>, price: Option<nat>, signOk: bool, insertAttempt: Write, at: int,
                       sendOk: bool, markFailed: Write, markSubmitted: Write, reject: Write,
                       snapshotOk: bool, enqueue: Write)

  /** What the others do before the call executes its next statement. */
  type Others = Pc -> seq<Step>

  /** The errors that make `Submit` reject the request: those before the nonce is taken. */
  predicate IsRefusal(e: SubmitError) {
    e in {LoadFailed, CheckoutFailed, EstimateFailed, PriceFailed}
  }

  /** In `seen`, some moment of a run, the call `t` worked for the request of `th`. */
  ghost predicate IsMoment(seen: State, t: Tid, th: Thread) {
    Reachable(seen) && t in seen.threads && seen.threads[t].req == th.req && seen.threads[t].app == th.app
  }

  /** The signers could not be listed, there are none, or one cannot be read. */
  ghost predicate CannotLoad(fate: Fate, sh: Shared, app: AppId) {
    || !fate.listOk || SignersOf(sh, app) == []
    || !AllReadable(fate.hydrateOk, |SignersOf(sh, app)|)
  }

  /** The context has ended, or no signer of the loaded pool is idle. */
  ghost predicate CannotCheckout(fate: Fate, sh: Shared, app: AppId) {
    fate.ctxDone || (app in sh.pools && sh.pools[app].idle == [])
  }

  /** The write fails, or the transaction has a row already. */
  ghost predicate CannotInsert(fate: Fate, sh: Shared, pc: Pc) {
    pc.InsertAttempt? && (!fate.insertAttempt.Ok? || !HashIsNew(sh, pc.tx))
  }

  /** The call holds the signer that was idle longest; the others stay idle, in order. */
  ghost predicate Takes(sh: Shared, sh': Shared, th: Thread) {
    && th.held.Some? && th.app in sh.pools && th.app in sh'.pools
    && sh.pools[th.app].idle == [th.held.value] + sh'.pools[th.app].idle
  }

  /** The statement an error blames did fail; `seen` is the moment of the failure where the state matters. */
  ghost predicate IsCause(e: SubmitError, fate: Fate, t: Tid, th: Thread, seen: State) {
    && (e == LoadFailed ==> IsMoment(seen, t, th) && CannotLoad(fate, seen.sh, th.app))
    && (e == CheckoutFailed ==> IsMoment(seen, t, th) && CannotCheckout(fate, seen.sh, th.app))
    && (e == InsertAttemptFailed ==> IsMoment(seen, t, th) && CannotInsert(fate, seen.sh, seen.threads[t].pc))
    && (e == EstimateFailed ==> fate.estimate.None?)
    && (e == PriceFailed ==> fate.price.None?)
    && (e == SignFailed ==> !fate.signOk)
    && (e == SendFailed ==> !fate.sendOk)
    && (e == MarkSubmittedFailed ==> !fate.markSubmitted.Ok?)
  }

  /** Gas limit: the caller's, or twelve tenths of the estimate, rounded down after 64-bit multiplication; gas
      price: the suggested one. */
  ghost predicate HasGas(call: Call, fate: Fate, pc: Pc) {
    && pc.TakeNonce? && fate.price == Some(pc.gasPrice)
    && (if call.gasLimit != 0 then pc.gasLimit == call.gasLimit
        else fate.estimate.Some? && IsBuffered(pc.gasLimit, fate.estimate.value))
  }

  ghost predicate IsBuffered(gasLimit: nat, estimate: nat) {
    10 * gasLimit <= 12 * estimate % U64 < 10 * gasLimit + 10
  }

  lemma BufferedIsBuffered(estimate: nat)
    ensures IsBuffered(Buffered(estimate), estimate)
  {
  }

  predicate SameGas(pc: Pc, tx: Tx) {
    pc == TakeNonce(tx.gasLimit, tx.gasPrice)
  }

  /** Key and pending nonce of the i-th signer can be read. */
  predicate IsReadable(readable: seq<bool>, i: nat) {
    i < |readable| && readable[i]
  }

  predicate AllReadable(readable: seq<bool>, n: nat) {
    forall i :: 0 <= i < n ==> IsReadable(readable, i)
  }

  /** The first `i` of the addresses are read. */
  predicate IsHydrating(pc: Pc, addrs: seq<Addr>, i: nat) {
    pc.Hydrate? && pc.addrs == addrs && pc.done == i
  }

  /** The attempt row as `insertAttempt` writes it. */
  ghost predicate IsRowOf(sh: Shared, th: Thread, at: int) {
    && th.pc.Send? && th.pc.att in sh.attempts
    && sh.attempts[th.pc.att]
       == Attempt(th.req, th.pc.tx.signer, ToInt64(th.pc.tx.nonce), th.pc.tx, ASubmitting, None, at)
  }

  /** What a failed call leaves in `tx_attempts`: after a refused broadcast a failed attempt, or an open one if
      that write failed, too; after a failed insert an open one only if the insert took place after all. */
  ghost function Remains(e: SubmitError, fate: Fate, t: Tid, seen: State): Option<AttStatus> {
    match e
    case SendFailed => Some(if fate.markFailed.Fail? then ASubmitting else AFailed)
    case InsertAttemptFailed =>
      if fate.insertAttempt.Lost? && t in seen.threads && seen.threads[t].pc.InsertAttempt?
         && HashIsNew(seen.sh, seen.threads[t].pc.tx) then Some(ASubmitting) else None
    case _ => None
  }

  /** The call's delivery is in the queue. */
  ghost predicate HasDelivery(sh: Shared, r: ReqId) {
    exists i :: 0 <= i < |sh.deliveries| && sh.deliveries[i].req == r
  }

  /** The caller wants to be notified, and neither snapshot nor insert fails. */
  predicate CanNotify(notify: bool, fate: Fate) {
    notify && fate.snapshotOk && !fate.enqueue.Fail?
  }

  /** A request whose caller can be notified has a delivery. */
  ghost predicate WasTold(sh: Shared, r: ReqId, fate: Fate) {
    r in sh.requests && (CanNotify(sh.requests[r].notify, fate) ==> HasDelivery(sh, r))
  }

  /** A delivery that carries the transaction, reported as submitted or already as settled. */
  ghost predicate ReportsSent(sh: Shared, r: ReqId, tx: Tx) {
    exists i :: && 0 <= i < |sh.deliveries| && sh.deliveries[i].req == r && sh.deliveries[i].payload.hash == Some(tx)
                && (sh.deliveries[i].payload.status == RSubmitted || IsTerminal(sh.deliveries[i].payload.status))
  }

  /** What the deliveries of a request say: nothing without a callback, the rejection of a rejected request, the
      transaction of a sent one. */
  lemma Reports(s: State, r: ReqId)
    requires Reachable(s) && r in s.sh.requests
    ensures !s.sh.requests[r].notify ==> !HasDelivery(s.sh, r)
    ensures HasDelivery(s.sh, r) && s.sh.requests[r].log == [RPending, RRejected] ==> Delivered(s.sh, r, RRejected)
    ensures HasDelivery(s.sh, r) ==> forall x, tx :: IsSent(s.sh, r, x, tx) ==> ReportsSent(s.sh, r, tx)
  {
    InvReachable(s);
    if i :| 0 <= i < |s.sh.deliveries| && s.sh.deliveries[i].req == r {
      assert PayloadOk(s.sh, r, s.sh.deliveries[i].payload);
      forall x, tx | IsSent(s.sh, r, x, tx) ensures ReportsSent(s.sh, r, tx) {
        ReportOfSent(s.sh, r, x, tx, i);
      }
    }
  }

  lemma ReportOfSent(sh: Shared, r: ReqId, x: AttId, tx: Tx, i: nat)
    requires DbOk(sh) && IsSent(sh, r, x, tx) && i < |sh.deliveries| && sh.deliveries[i].req == r
    requires PayloadOk(sh, r, sh.deliveries[i].payload)
    ensures ReportsSent(sh, r, tx)
  {
    var p := sh.deliveries[i].payload;
    assert AttemptOk(sh, x) && p.status != RRejected;
    var y :| TellsOf(sh, r, y, p);
    assert y == x && sh.deliveries[i].payload.hash == Some(tx);
    assert p.status == RSubmitted || IsTerminal(p.status);
  }

  lemma ToldStays(sh: Shared, sh': Shared, r: ReqId, fate: Fate)
    requires Grows(sh, sh') && WasTold(sh, r, fate)
    ensures WasTold(sh', r, fate)
  {
    if CanNotify(sh.requests[r].notify, fate) {
      var i :| 0 <= i < |sh.deliveries| && sh.deliveries[i].req == r;
      assert sh'.deliveries[i].req == r;
    }
  }

  lemma InsertAnswer(s: State, t: Tid, x: AttId, fate: Fate, o: Write, th: Thread)
    requires Reachable(s) && CanInsertAttempt(s, t, x, o) && NoAttempt(s.sh, s.threads[t].req) && th == s.threads[t]
    requires o == if HashIsNew(s.sh, th.pc.tx) then fate.insertAttempt else Fail
    ensures var s' := DoInsertAttempt(s, t, x, fate.at, o);
            if o.Ok? then IsRowOf(s'.sh, s'.threads[t], fate.at)
            else && IsCause(InsertAttemptFailed, fate, t, th, s)
                 && AttemptsAre(s'.sh, th.req, Remains(InsertAttemptFailed, fate, t, s))
  {
    var sh' := DoInsertAttempt(s, t, x, fate.at, o).sh;
    if o.Fail? {
      assert OwnAttempts(sh', th.req) == map[];
    } else {
      assert OwnAttempts(sh', th.req).Keys == {x};
    }
  }

  lemma ReceiveStep(s: State, t: Tid)
    requires CanReceive(s, t)
    ensures var s' := Apply(s, Setup(t, AReceive));
            && t in s'.threads && s'.threads[t].pc == AfterCheckout(s.threads[t].call)
            && Takes(s.sh, s'.sh, s'.threads[t])
  {
    var idle := s.sh.pools[s.threads[t].app].idle;
    assert idle == [idle[0]] + idle[1..];
  }

  lemma EnqueueStep(s: State, t: Tid, o: Write)
    requires CanEnqueue(s, t)
    ensures var s', r := Apply(s, Closing(t, AEnqueue(o))), s.threads[t].req;
            Still(s.sh, s'.sh, r) && s'.sh.requests == s.sh.requests && (!o.Fail? ==> HasDelivery(s'.sh, r))
  {
    CloseFrame(s, t, AEnqueue(o));
    StillIfSame(s.sh, DoEnqueue(s, t, o).sh, s.threads[t].req);
    if !o.Fail? {
      assert DoEnqueue(s, t, o).sh.deliveries[|s.sh.deliveries|].req == s.threads[t].req;
    }
  }

  lemma SnapshotStep(s: State, t: Tid, latest: Option<AttId>, ok: bool)
    requires CanSnapshot(s, t, latest)
    ensures var s', r := Apply(s, Closing(t, ASnapshot(latest, ok))), s.threads[t].req;
            && Still(s.sh, s'.sh, r) && s'.sh.requests == s.sh.requests && t in s'.threads
            && if ok && s.sh.requests[r].notify then s'.threads[t].pc.Enqueue? else s'.threads[t].pc.Finish?
  {
    CloseFrame(s, t, ASnapshot(latest, ok));
    StillIfSame(s.sh, DoSnapshot(s, t, latest, ok).sh, s.threads[t].req);
  }

  /** What the answer of a call `th` tells about its request. */
  ghost predicate Answered(s0: State, s: State, t: Tid, th: Thread, fate: Fate, res: SubmitResult, seen: State) {
    && Grows(s0.sh, s.sh) && Abandoned(s, th.req)
    && match res
       case Submitted(r, tx, a) =>
         && r == th.req && tx.call == th.call && a == tx.signer && a in SignersOf(s.sh, th.app)
         && RSubmitted in s.sh.requests[r].log && (exists x :: IsSent(s.sh, r, x, tx)) && WasTold(s.sh, r, fate)
         && HasGas(th.call, fate, TakeNonce(tx.gasLimit, tx.gasPrice))
       case Failed(e) =>
         && e !in {ChainIdMismatch, PastDeadline, InsertRequestFailed} && IsCause(e, fate, t, th, seen)
         && (NeverAccepted(s, th.req) <==> e != MarkSubmittedFailed)
         && (e != MarkSubmittedFailed ==>
               && s.sh.requests[th.req].log == RefusedLog(IsRefusal(e) && !fate.reject.Fail?)
               && AttemptsAre(s.sh, th.req, Remains(e, fate, t, seen)))
         && (IsRefusal(e) && fate.reject.Ok? ==> WasTold(s.sh, th.req, fate))
  }

  function NewRequest(input: SubmitInput): Request {
    Request(input.app, input.call, input.notify, RPending, [RPending])
  }

  function NewCall(input: SubmitInput, r: ReqId): Thread {
    Thread(input.app, r, input.call, None, LoadCheck)
  }

  /** What a caller knows from the answer to a call that made the request `r`. */
  ghost predicate IsAnswer(s: State, t: Tid, input: SubmitInput, fate: Fate, r: ReqId, res: SubmitResult, seen: State) {
    && Abandoned(s, r) && (!input.notify ==> !HasDelivery(s.sh, r))
    && match res
       case Submitted(q, tx, a) =>
         // the transaction is the caller's, is accepted, on record and marked, and reported
         && q == r && tx.call == input.call && a == tx.signer && a in SignersOf(s.sh, input.app)
         && HasGas(input.call, fate, TakeNonce(tx.gasLimit, tx.gasPrice))
         && (exists x :: IsSent(s.sh, r, x, tx)) && RSubmitted in s.sh.requests[r].log
         && (CanNotify(input.notify, fate) ==> ReportsSent(s.sh, r, tx))
       case Failed(e) =>
         // what is blamed did fail; nothing is ever sent, unless it was the marking of what is sent
         && IsCause(e, fate, t, NewCall(input, r), seen)
         && (NeverAccepted(s, r) <==> e != MarkSubmittedFailed)
         && (e != MarkSubmittedFailed ==>
               && NeverChanges(s, r) && s.sh.requests[r].log == RefusedLog(IsRefusal(e) && !fate.reject.Fail?)
               && AttemptsAre(s.sh, r, Remains(e, fate, t, seen)))
         && (IsRefusal(e) && fate.reject.Ok? && CanNotify(input.notify, fate) ==> Delivered(s.sh, r, RRejected))
  }

  lemma FinalAnswer(s1: State, s: State, t: Tid, input: SubmitInput, fate: Fate, r: ReqId, res: SubmitResult,
                    seen: State)
    requires Reachable(s) && r in s1.sh.requests && s1.sh.requests[r].notify == input.notify
    requires Answered(s1, s, t, NewCall(input, r), fate, res, seen)
    ensures IsAnswer(s, t, input, fate, r, res, seen)
  {
    Reports(s, r);
    if res.Failed? && res.error != MarkSubmittedFailed {
      UnsentNeverChanges(s, r);
    }
  }

  lemma LostAnswer(s: State, t: Tid, input: SubmitInput, fate: Fate, r: ReqId)
    requires Reachable(s) && Abandoned(s, r) && NeverAccepted(s, r) && AttemptsAre(s.sh, r, None)
    requires r in s.sh.requests && s.sh.requests[r] == NewRequest(input)
    ensures IsAnswer(s, t, input, fate, r, Failed(InsertRequestFailed), s)
  {
    Reports(s, r);
    UnsentNeverChanges(s, r);
  }

  lemma AbortedAnswer(s0: State, s: State, t: Tid, th: Thread, fate: Fate, e: SubmitError, seen: State)
    requires Grows(s0.sh, s.sh) && Quiet(s0.sh, s.sh, th.req) && Abandoned(s, th.req)
    requires NeverAccepted(s, th.req) && s.sh.requests[th.req].log == RefusedLog(IsRejected(s.sh, th.req))
    requires e in {SignFailed, InsertAttemptFailed, SendFailed} && !IsRejected(s0.sh, th.req)
    requires IsCause(e, fate, t, th, seen) && AttemptsAre(s.sh, th.req, Remains(e, fate, t, seen))
    ensures Answered(s0, s, t, th, fate, Failed(e), seen)
  {
  }

  lemma SentAnswer(s0: State, s1: State, s2: State, t: Tid, fate: Fate, x: AttId, res: SubmitResult, tx: Tx)
    requires Reachable(s2) && Onward(s0, s1, t) && Over(s1, s2, s1.threads[t])
    requires IsSent(s2.sh, s1.threads[t].req, x, tx)
    requires if fate.markSubmitted.Ok? then RSubmitted in s2.sh.requests[s1.threads[t].req].log
                                            && WasTold(s2.sh, s1.threads[t].req, fate)
                                            && res == Submitted(s1.threads[t].req, tx, tx.signer)
             else res == Failed(MarkSubmittedFailed)
    requires HasGas(s1.threads[t].call, fate, TakeNonce(tx.gasLimit, tx.gasPrice))
    ensures Answered(s0, s2, t, s1.threads[t], fate, res, s2)
  {
    GrowsTransitive(s0.sh, s1.sh, s2.sh);
    SentBySigner(s2, s1.threads[t].req, x, tx);
    SentIsAccepted(s2, s1.threads[t].req, x, tx);
  }

  // ---- The call

  class Relayer {
    const chainId: nat
    var w: State

    constructor (chainId: nat, w: State)
      ensures this.chainId == chainId && this.w == w
    {
      this.chainId, this.w := chainId, w;
    }

    /** Others run: those of the given steps that can be taken and are not the call's own. */
    method Yield(t: Tid, others: Others, ghost s0: State)
      requires Running(s0, w, t)
      modifies this
      ensures Running(s0, w, t) && w.threads[t] == old(w).threads[t]
      ensures Still(old(w).sh, w.sh, w.threads[t].req)
      ensures w == AfterOthers(old(w), others(w.threads[t].pc), t)
    {
      var env := others(w.threads[t].pc);
      for i := 0 to |env|
        invariant Running(s0, w, t) && w.threads[t] == old(w).threads[t]
        invariant Still(old(w).sh, w.sh, w.threads[t].req)
        invariant w == AfterOthers(old(w), env[..i], t)
      {
        OneMoreOther(old(w), env, i, t);
        Intervene(t, env[i], s0);
      }
      assert env[..|env|] == env;
    }

    /** One step of somebody else, if it can be taken. */
    method Intervene(t: Tid, e: Step, ghost s0: State)
      requires Running(s0, w, t)
      modifies this
      ensures Running(s0, w, t) && w.threads[t] == old(w).threads[t] && Still(old(w).sh, w.sh, w.threads[t].req)
      ensures w == AfterOther(old(w), e, t)
    {
      if IsForeign(e, t) && Enabled(w, e) {
        ghost var mid := w;
        ForeignOnward(w, e, t);
        w := Apply(w, e);
        OnwardTransitive(s0, mid, w, t);
      }
    }

    /** One statement of the call. */
    method Do(t: Tid, e: Step, ghost s0: State)
      requires Running(s0, w, t) && Enabled(w, e) && IsStepOf(e, t) && !IsDecisive(e)
      modifies this
      ensures Running(s0, w, t) && w == Apply(old(w), e)
    {
      ghost var mid := w;
      OwnOnward(w, e, t);
      w := Apply(w, e);
      OnwardTransitive(s0, mid, w, t);
    }

    // ---- `Pool.Load`: look, list, hydrate one address after the other, look again and install

    method CheckLoaded(t: Tid, others: Others, ghost s0: State) returns (loaded: bool)
      requires Running(s0, w, t) && w.threads[t].pc.LoadCheck?
      modifies this
      ensures Running(s0, w, t) && w.threads[t].pc == (if loaded then Lookup else LoadList)
    {
      Yield(t, others, s0);
      loaded := w.threads[t].app in w.sh.pools;
      Do(t, Setup(t, ALoadCheck), s0);
    }

    method ListSigners(t: Tid, others: Others, ok: bool, ghost s0: State)
      returns (addrs: seq<Addr>, ghost seen: State)
      requires Running(s0, w, t) && w.threads[t].pc.LoadList?
      modifies this
      ensures Running(s0, w, t)
      ensures IsMoment(seen, t, old(w).threads[t]) && addrs == SignersOf(seen.sh, seen.threads[t].app)
      ensures w.threads[t].pc == if !ok || addrs == [] then Reject else Hydrate(addrs, 0, map[])
    {
      Yield(t, others, s0);
      addrs, seen := SignersOf(w.sh, w.threads[t].app), w;
      Do(t, Setup(t, ALoadList(ok)), s0);
    }

    method HydrateNext(t: Tid, others: Others, ok: bool, addrs: seq<Addr>, i: nat, ghost s0: State)
      requires Running(s0, w, t) && i < |addrs| && IsHydrating(w.threads[t].pc, addrs, i)
      modifies this
      ensures Running(s0, w, t)
      ensures if ok then IsHydrating(w.threads[t].pc, addrs, i + 1) else w.threads[t].pc == Reject
    {
      Yield(t, others, s0);
      Do(t, Setup(t, AHydrate(ok)), s0);
    }

    method HydrateAll(t: Tid, others: Others, readable: seq<bool>, addrs: seq<Addr>, ghost s0: State)
      returns (ok: bool)
      requires Running(s0, w, t) && IsHydrating(w.threads[t].pc, addrs, 0)
      modifies this
      ensures Running(s0, w, t)
      ensures if ok then IsHydrating(w.threads[t].pc, addrs, |addrs|) else w.threads[t].pc == Reject
      ensures ok <==> AllReadable(readable, |addrs|)
    {
      var i := 0;
      ok := true;
      while ok && i < |addrs|
        invariant i <= |addrs| && Running(s0, w, t) && AllReadable(readable, i)
        invariant if ok then IsHydrating(w.threads[t].pc, addrs, i)
                  else w.threads[t].pc == Reject && i < |addrs| && !IsReadable(readable, i)
        decreases |addrs| - i, ok
      {
        ok := IsReadable(readable, i);
        HydrateNext(t, others, ok, addrs, i, s0);
        if ok {
          i := i + 1;
        }
      }
    }

    method Install(t: Tid, others: Others, ghost s0: State)
      requires Running(s0, w, t) && w.threads[t].pc.Hydrate? && w.threads[t].pc.done == |w.threads[t].pc.addrs|
      modifies this
      ensures Running(s0, w, t) && w.threads[t].pc == Lookup
    {
      Yield(t, others, s0);
      Do(t, Setup(t, AInstall), s0);
    }

    method Load(t: Tid, others: Others, fate: Fate, ghost s0: State) returns (ok: bool, ghost seen: State)
      requires Running(s0, w, t) && w.threads[t].pc.LoadCheck?
      modifies this
      ensures Running(s0, w, t) && w.threads[t].pc == if ok then Lookup else Reject
      ensures !ok ==> IsCause(LoadFailed, fate, t, old(w).threads[t], seen)
    {
      seen := w;
      var loaded := CheckLoaded(t, others, s0);
      if loaded {
        return true, seen;
      }
      var addrs;
      addrs, seen := ListSigners(t, others, fate.listOk, s0);
      if !fate.listOk || addrs == [] {
        return false, seen;
      }
      ok := HydrateAll(t, others, fate.hydrateOk, addrs, s0);
      if ok {
        Install(t, others, s0);
      }
    }

    // ---- `Pool.Checkout`: look the pool up, then wait for a signer or for the context

    method FindPool(t: Tid, others: Others, ghost s0: State)
      requires Running(s0, w, t) && w.threads[t].pc.Lookup?
      modifies this
      ensures Running(s0, w, t) && w.threads[t].pc == Wait
    {
      Yield(t, others, s0);
      LoadedAtLookup(w, t);
      Do(t, Setup(t, ALookup), s0);
    }

    method Receive(t: Tid, others: Others, fate: Fate, ghost s0: State) returns (ok: bool, ghost seen: State)
      requires Running(s0, w, t) && w.threads[t].pc.Wait?
      modifies this
      ensures Running(s0, w, t) && w.threads[t].pc == if ok then AfterCheckout(w.threads[t].call) else Reject
      ensures ok ==> !fate.ctxDone && Takes(seen.sh, w.sh, w.threads[t])
      ensures !ok ==> IsCause(CheckoutFailed, fate, t, old(w).threads[t], seen)
    {
      Yield(t, others, s0);
      LoadedAtWait(w, t);
      seen := w;
      ok := !fate.ctxDone && CanReceive(w, t);
      if ok {
        TakeSigner(t, s0);
      } else {
        GiveUp(t, fate, s0);
      }
    }

    method TakeSigner(t: Tid, ghost s0: State)
      requires Running(s0, w, t) && CanReceive(w, t)
      modifies this
      ensures Running(s0, w, t) && w.threads[t].pc == AfterCheckout(w.threads[t].call)
      ensures Takes(old(w).sh, w.sh, w.threads[t])
    {
      ReceiveStep(w, t);
      Do(t, Setup(t, AReceive), s0);
    }

    method GiveUp(t: Tid, fate: Fate, ghost s0: State)
      requires Running(s0, w, t) && w.threads[t].pc.Wait? && w.threads[t].app in w.sh.pools
      requires fate.ctxDone || !CanReceive(w, t)
      modifies this
      ensures Running(s0, w, t) && w.threads[t].pc == Reject
      ensures IsCause(CheckoutFailed, fate, t, old(w).threads[t], old(w))
    {
      Do(t, Setup(t, ACancel), s0);
    }

    // ---- Gas

    method EstimateGas(t: Tid, others: Others, estimate: Option<nat>, ghost s0: State)
      requires Running(s0, w, t) && w.threads[t].pc.Estimate?
      modifies this
      ensures Running(s0, w, t)
      ensures if estimate.Some? then w.threads[t].pc.Price? && IsBuffered(w.threads[t].pc.gasLimit, estimate.value)
              else w.threads[t].pc == Reject
    {
      if estimate.Some? {
        BufferedIsBuffered(estimate.value);
      }
      Yield(t, others, s0);
      Do(t, Setup(t, AEstimate(estimate)), s0);
    }

    method SuggestGasPrice(t: Tid, others: Others, price: Option<nat>, ghost s0: State)
      requires Running(s0, w, t) && w.threads[t].pc.Price?
      modifies this
      ensures Running(s0, w, t)
      ensures w.threads[t].pc == if price.Some? then TakeNonce(old(w).threads[t].pc.gasLimit, price.value) else Reject
    {
      Yield(t, others, s0);
      Do(t, Setup(t, APrice(price)), s0);
    }

    /** Everything before the nonce: on an error the request is still to be rejected. */
    method Prepare(t: Tid, others: Others, fate: Fate, ghost s0: State)
      returns (error: Option<SubmitError>, ghost seen: State)
      requires Running(s0, w, t) && w.threads[t].pc.LoadCheck?
      modifies this
      ensures Running(s0, w, t)
      ensures if error.None? then HasGas(w.threads[t].call, fate, w.threads[t].pc) else w.threads[t].pc.Reject?
      ensures error.Some? ==> IsRefusal(error.value) && IsCause(error.value, fate, t, old(w).threads[t], seen)
    {
      var ok;
      ok, seen := Load(t, others, fate, s0);
      if !ok {
        return Some(LoadFailed), seen;
      }
      FindPool(t, others, s0);
      ok, seen := Receive(t, others, fate, s0);
      if !ok {
        return Some(CheckoutFailed), seen;
      }
      error := PriceGas(t, others, fate, s0);
    }

    method PriceGas(t: Tid, others: Others, fate: Fate, ghost s0: State) returns (error: Option<SubmitError>)
      requires Running(s0, w, t) && w.threads[t].pc == AfterCheckout(w.threads[t].call)
      modifies this
      ensures Running(s0, w, t)
      ensures if error.None? then HasGas(w.threads[t].call, fate, w.threads[t].pc) else w.threads[t].pc.Reject?
      ensures error.Some? ==> || (error.value == EstimateFailed && fate.estimate.None?)
                              || (error.value == PriceFailed && fate.price.None?)
    {
      if w.threads[t].call.gasLimit == 0 {
        EstimateGas(t, others, fate.estimate, s0);
        if fate.estimate.None? {
          return Some(EstimateFailed);
        }
      }
      SuggestGasPrice(t, others, fate.price, s0);
      return if fate.price.None? then Some(PriceFailed) else None;
    }

    // ---- Nonce, write-ahead row, broadcast

    method UseNonce(t: Tid, others: Others, ghost s0: State)
      requires Running(s0, w, t) && w.threads[t].pc.TakeNonce?
      modifies this
      ensures Running(s0, w, t) && w.threads[t].pc.SignTx? && SameGas(old(w).threads[t].pc, w.threads[t].pc.tx)
    {
      Yield(t, others, s0);
      HolderKnowsNonce(w, t);
      Do(t, Sending(t, ATakeNonce), s0);
    }

    method SignTransaction(t: Tid, others: Others, ok: bool, ghost s0: State)
      requires Running(s0, w, t) && w.threads[t].pc.SignTx?
      modifies this
      ensures Running(s0, w, t)
      ensures w.threads[t].pc == if ok then InsertAttempt(old(w).threads[t].pc.tx) else Rewind(None)
      ensures AttemptsAre(w.sh, w.threads[t].req, None)
    {
      Yield(t, others, s0);
      NoAttemptYet(w, t);
      Do(t, Sending(t, ASign(ok)), s0);
    }

    method InsertRow(t: Tid, others: Others, fate: Fate, ghost s0: State) returns (ok: bool, ghost seen: State)
      requires Running(s0, w, t) && w.threads[t].pc.InsertAttempt?
      modifies this
      ensures Running(s0, w, t)
      ensures var tx := old(w).threads[t].pc.tx;
              if ok then w.threads[t].pc.Send? && w.threads[t].pc.tx == tx && IsRowOf(w.sh, w.threads[t], fate.at)
              else w.threads[t].pc == Rewind(None)
      ensures !ok ==> IsCause(InsertAttemptFailed, fate, t, old(w).threads[t], seen)
      ensures !ok ==> AttemptsAre(w.sh, w.threads[t].req, Remains(InsertAttemptFailed, fate, t, seen))
    {
      Yield(t, others, s0);
      NoAttemptYet(w, t);
      seen := w;
      var o := if HashIsNew(w.sh, w.threads[t].pc.tx) then fate.insertAttempt else Fail;
      ghost var free := FreshKey(w.sh.attempts);
      var x: AttId :| x !in w.sh.attempts;
      InsertAnswer(w, t, x, fate, o, w.threads[t]);
      Do(t, Sending(t, AInsertAttempt(x, fate.at, o)), s0);
      assert w == DoInsertAttempt(seen, t, x, fate.at, o);
      ok := o.Ok?;
    }

    method SendTransaction(t: Tid, others: Others, ok: bool, ghost s0: State)
      requires Running(s0, w, t) && w.threads[t].pc.Send?
      modifies this
      ensures Reachable(w) && Onward(s0, w, t)
      ensures if ok then w.threads[t].pc.MarkSubmitted? && IsOnRecord(w.sh, w.threads[t], old(w).threads[t].pc.tx)
              else Running(s0, w, t) && w.threads[t].pc.Rewind? && w.threads[t].pc.failed.Some?
    {
      Yield(t, others, s0);
      if ok {
        SendStep(w, t);
        ghost var mid := w;
        w := Apply(w, Sending(t, ASend(true)));
        OnwardTransitive(s0, mid, w, t);
      } else {
        Do(t, Sending(t, ASend(false)), s0);
      }
    }

    /** `RewindNonce`, and after a refused broadcast `markAttemptStatus(failed)`, its error ignored. */
    method Undo(t: Tid, others: Others, markFailed: Write, ghost s0: State)
      requires Running(s0, w, t) && w.threads[t].pc.Rewind? && NothingAccepted(w.sh, w.threads[t].req)
      modifies this
      ensures Running(s0, w, t) && w.threads[t].pc == Finish
      ensures var r := w.threads[t].req;
              if old(w).threads[t].pc.failed.None? then OwnAttempts(w.sh, r) == OwnAttempts(old(w).sh, r)
              else AttemptsAre(w.sh, r, Some(if markFailed.Fail? then ASubmitting else AFailed))
    {
      Yield(t, others, s0);
      HolderKnowsNonce(w, t);
      Do(t, Sending(t, ARewind), s0);
      if w.threads[t].pc.MarkFailed? {
        MarkFailedRow(t, others, markFailed, s0);
      }
    }

    method MarkFailedRow(t: Tid, others: Others, o: Write, ghost s0: State)
      requires Running(s0, w, t) && w.threads[t].pc.MarkFailed?
      modifies this
      ensures Running(s0, w, t) && w.threads[t].pc == Finish
      ensures AttemptsAre(w.sh, w.threads[t].req, Some(if o.Fail? then ASubmitting else AFailed))
    {
      Yield(t, others, s0);
      MarkFailedLeaves(w, t, o);
      Do(t, Sending(t, AMarkFailed(o)), s0);
    }

    /** Nonce, signature and write-ahead row. */
    method RecordAttempt(t: Tid, others: Others, fate: Fate, ghost s0: State)
      returns (error: Option<SubmitError>, ghost seen: State)
      requires Running(s0, w, t) && w.threads[t].pc.TakeNonce?
      modifies this
      ensures Running(s0, w, t)
      ensures if error.None? then w.threads[t].pc.Send? && SameGas(old(w).threads[t].pc, w.threads[t].pc.tx)
              else w.threads[t].pc == Rewind(None)
      ensures error.Some? ==> error.value in {SignFailed, InsertAttemptFailed}
      ensures error.Some? ==> IsCause(error.value, fate, t, old(w).threads[t], seen)
      ensures error.Some? ==> AttemptsAre(w.sh, w.threads[t].req, Remains(error.value, fate, t, seen))
    {
      seen := w;
      UseNonce(t, others, s0);
      SignTransaction(t, others, fate.signOk, s0);
      if !fate.signOk {
        return Some(SignFailed), seen;
      }
      var inserted;
      inserted, seen := InsertRow(t, others, fate, s0);
      error := if inserted then None else Some(InsertAttemptFailed);
    }

    /** Nonce to broadcast. On an error everything is undone but the rows. */
    method Broadcast(t: Tid, others: Others, fate: Fate, ghost s0: State)
      returns (error: Option<SubmitError>, tx: Option<Tx>, ghost seen: State)
      requires Running(s0, w, t) && w.threads[t].pc.TakeNonce? && NothingAccepted(s0.sh, w.threads[t].req)
      modifies this
      ensures if error.None? then
                Reachable(w) && Onward(s0, w, t) && tx.Some? && IsOnRecord(w.sh, w.threads[t], tx.value)
              else Running(s0, w, t) && w.threads[t].pc == Finish
      ensures error.None? ==> SameGas(old(w).threads[t].pc, tx.value)
      ensures error.Some? ==> error.value in {SignFailed, InsertAttemptFailed, SendFailed}
      ensures error.Some? ==> IsCause(error.value, fate, t, old(w).threads[t], seen)
      ensures error.Some? ==> AttemptsAre(w.sh, w.threads[t].req, Remains(error.value, fate, t, seen))
    {
      error, seen := RecordAttempt(t, others, fate, s0);
      tx := None;
      if error.Some? {
        Undo(t, others, fate.markFailed, s0);
        return;
      }
      tx := Some(w.threads[t].pc.tx);
      SendOrUndo(t, others, fate, s0);
      if !fate.sendOk {
        error := Some(SendFailed);
      }
    }

    method SendOrUndo(t: Tid, others: Others, fate: Fate, ghost s0: State)
      requires Running(s0, w, t) && w.threads[t].pc.Send? && NothingAccepted(s0.sh, w.threads[t].req)
      modifies this
      ensures if fate.sendOk then
                Reachable(w) && Onward(s0, w, t) && IsOnRecord(w.sh, w.threads[t], old(w).threads[t].pc.tx)
              else
                && Running(s0, w, t) && w.threads[t].pc == Finish
                && AttemptsAre(w.sh, w.threads[t].req, Some(if fate.markFailed.Fail? then ASubmitting else AFailed))
    {
      SendTransaction(t, others, fate.sendOk, s0);
      if !fate.sendOk {
        Undo(t, others, fate.markFailed, s0);
      }
    }

    // ---- Final status, webhook, return

    /** `markRequestStatus(rejected)`, its error ignored. */
    method RejectRequest(t: Tid, others: Others, o: Write, ghost s0: State)
      requires Running(s0, w, t) && w.threads[t].pc.Reject? && NothingAccepted(s0.sh, w.threads[t].req)
      modifies this
      ensures Reachable(w) && Onward(s0, w, t) && NothingAccepted(w.sh, w.threads[t].req)
      ensures w.threads[t].pc == if o.Ok? then Snapshot(true) else Finish
      ensures !o.Fail? ==> IsRejected(w.sh, w.threads[t].req)
      ensures IsRejected(w.sh, w.threads[t].req) ==> !o.Fail? || IsRejected(s0.sh, w.threads[t].req)
      ensures AttemptsAre(w.sh, w.threads[t].req, None)
    {
      Yield(t, others, s0);
      NoAttemptYet(w, t);
      ghost var mid := w;
      RejectStep(w, t, o);
      w := Apply(w, Closing(t, AReject(o)));
      OnwardTransitive(s0, mid, w, t);
    }

    /** Reject and notify. */
    method RejectAndTell(t: Tid, others: Others, fate: Fate, ghost s0: State)
      requires Running(s0, w, t) && w.threads[t].pc.Reject?
      requires NothingAccepted(s0.sh, w.threads[t].req) && !IsRejected(s0.sh, w.threads[t].req)
      modifies this
      ensures Reachable(w) && Onward(s0, w, t) && w.threads[t].pc == Finish
      ensures NothingAccepted(w.sh, w.threads[t].req) && AttemptsAre(w.sh, w.threads[t].req, None)
      ensures IsRejected(w.sh, w.threads[t].req) <==> !fate.reject.Fail?
      ensures fate.reject.Ok? ==> WasTold(w.sh, w.threads[t].req, fate)
    {
      RejectRequest(t, others, fate.reject, s0);
      if fate.reject.Ok? {
        ghost var s1 := w;
        FireWebhook(t, others, fate, s1);
        OnwardTransitive(s0, s1, w, t);
        LogStays(s1.sh, w.sh, w.threads[t].req, RRejected);
      }
    }

    /** Reject, notify, return. */
    method Refuse(t: Tid, others: Others, fate: Fate, ghost s0: State)
      requires Running(s0, w, t) && w.threads[t].pc.Reject?
      requires NothingAccepted(s0.sh, w.threads[t].req) && !IsRejected(s0.sh, w.threads[t].req)
      modifies this
      ensures var th := old(w).threads[t];
              && Reachable(w) && t !in w.threads && Grows(s0.sh, w.sh) && Abandoned(w, th.req)
              && NeverAccepted(w, th.req) && w.sh.requests[th.req].log == RefusedLog(!fate.reject.Fail?)
              && AttemptsAre(w.sh, th.req, None) && (fate.reject.Ok? ==> WasTold(w.sh, th.req, fate))
    {
      ghost var r := w.threads[t].req;
      RejectAndTell(t, others, fate, s0);
      ghost var s1 := w;
      Abort(t, others, s1);
      GrowsTransitive(s0.sh, s1.sh, w.sh);
      if IsRejected(s1.sh, r) {
        LogStays(s1.sh, w.sh, r, RRejected);
      }
      if fate.reject.Ok? {
        ToldStays(s1.sh, w.sh, r, fate);
      }
    }

    method MarkRowsSubmitted(t: Tid, others: Others, o: Write, ghost tx: Tx) returns (ghost x: AttId)
      requires Reachable(w) && t in w.threads && IsOnRecord(w.sh, w.threads[t], tx)
      modifies this
      ensures Running(old(w), w, t) && w.threads[t].pc == if o.Ok? then Snapshot(false) else Finish
      ensures IsSent(w.sh, w.threads[t].req, x, tx) && (!o.Fail? ==> w.sh.attempts[x].status == ASubmitted)
      ensures RSubmitted in w.sh.requests[w.threads[t].req].log <==> !o.Fail?
    {
      ghost var s0 := w;
      x := w.threads[t].pc.att;
      OwnRequestExists(w, t);
      Yield(t, others, s0);
      RowsToMark(w, t);
      Do(t, Closing(t, AMarkSubmitted(o)), s0);
      SentStays(s0.sh, w.sh, w.threads[t].req, x, tx);
    }

    /** `Enqueue`: a snapshot of the request and its attempt, then a row, errors ignored. */
    method FireWebhook(t: Tid, others: Others, fate: Fate, ghost s0: State)
      requires Running(s0, w, t) && w.threads[t].pc.Snapshot?
      modifies this
      ensures Running(s0, w, t) && w.threads[t].pc == Finish && Still(old(w).sh, w.sh, w.threads[t].req)
      ensures WasTold(w.sh, w.threads[t].req, fate)
    {
      TakeSnapshot(t, others, fate.snapshotOk, s0);
      if w.threads[t].pc.Enqueue? {
        InsertDelivery(t, others, fate.enqueue, s0);
      }
    }

    method InsertDelivery(t: Tid, others: Others, o: Write, ghost s0: State)
      requires Running(s0, w, t) && w.threads[t].pc.Enqueue?
      modifies this
      ensures Running(s0, w, t) && w.threads[t].pc == Finish && Still(old(w).sh, w.sh, w.threads[t].req)
      ensures !o.Fail? ==> HasDelivery(w.sh, w.threads[t].req)
      ensures old(w).threads[t].req in old(w).sh.requests ==>
                var r := w.threads[t].req;
                r in w.sh.requests && w.sh.requests[r].notify == old(w).sh.requests[r].notify
    {
      ghost var s1 := w;
      Yield(t, others, s1);
      ghost var mid := w;
      EnqueueStep(w, t, o);
      Do(t, Closing(t, AEnqueue(o)), s1);
      OnwardTransitive(s0, s1, w, t);
    }

    method TakeSnapshot(t: Tid, others: Others, ok: bool, ghost s0: State)
      requires Running(s0, w, t) && w.threads[t].pc.Snapshot?
      modifies this
      ensures Running(s0, w, t) && Still(old(w).sh, w.sh, w.threads[t].req)
      ensures var r := w.threads[t].req;
              && r in w.sh.requests
              && if ok && w.sh.requests[r].notify then w.threads[t].pc.Enqueue? else w.threads[t].pc.Finish?
    {
      Yield(t, others, s0);
      var r := w.threads[t].req;
      var latest: Option<AttId> := None;
      if exists y :: y in w.sh.attempts && w.sh.attempts[y].req == r {
        var y :| y in w.sh.attempts && w.sh.attempts[y].req == r;
        latest := Some(y);
      }
      LatestIsUnique(w, t, latest);
      SnapshotStep(w, t, latest, ok);
      Do(t, Closing(t, ASnapshot(latest, ok)), s0);
    }

    /** The deferred `Release` and the return. */
    method Return(t: Tid, others: Others, ghost s0: State)
      requires Running(s0, w, t) && w.threads[t].pc.Finish?
      modifies this
      ensures Reachable(w) && t !in w.threads && Over(s0, w, old(w).threads[t])
      ensures Still(old(w).sh, w.sh, old(w).threads[t].req)
      ensures old(w).threads[t].held.Some? ==> IsBack(w.sh, old(w).threads[t].app, old(w).threads[t].held.value)
    {
      Yield(t, others, s0);
      SignerIsBack(w, t);
      FinishStep(w, t);
      ghost var mid := w.sh;
      w := Apply(w, Closing(t, AFinish));
      GrowsTransitive(s0.sh, mid, w.sh);
    }

    /** The call failed before anything was accepted. */
    method Abort(t: Tid, others: Others, ghost s0: State)
      requires Running(s0, w, t) && w.threads[t].pc.Finish? && NothingAccepted(s0.sh, w.threads[t].req)
      modifies this
      ensures Reachable(w) && t !in w.threads && Over(s0, w, old(w).threads[t])
      ensures var r := old(w).threads[t].req;
              && NeverAccepted(w, r) && w.sh.requests[r].log == RefusedLog(IsRejected(w.sh, r))
              && OwnAttempts(w.sh, r) == OwnAttempts(old(w).sh, r)
    {
      ghost var r := w.threads[t].req;
      Return(t, others, s0);
      SilentForever(w, r);
      SilentLog(w, r);
    }

    /** Mark the rows and notify. */
    method MarkAndTell(t: Tid, others: Others, fate: Fate, tx: Tx) returns (ghost x: AttId)
      requires Reachable(w) && t in w.threads && IsOnRecord(w.sh, w.threads[t], tx)
      modifies this
      ensures Running(old(w), w, t) && w.threads[t].pc == Finish && IsSent(w.sh, w.threads[t].req, x, tx)
      ensures fate.markSubmitted.Ok? ==>
                RSubmitted in w.sh.requests[w.threads[t].req].log && WasTold(w.sh, w.threads[t].req, fate)
    {
      ghost var s0 := w;
      x := MarkRowsSubmitted(t, others, fate.markSubmitted, tx);
      if fate.markSubmitted.Ok? {
        ghost var s1 := w;
        FireWebhook(t, others, fate, s1);
        OnwardTransitive(s0, s1, w, t);
        SentStays(s1.sh, w.sh, w.threads[t].req, x, tx);
        LogStays(s1.sh, w.sh, w.threads[t].req, RSubmitted);
      }
    }

    /** The chain accepted `tx`: mark the rows, notify, return. */
    method Conclude(t: Tid, others: Others, fate: Fate, tx: Tx) returns (ghost x: AttId)
      requires Reachable(w) && t in w.threads && IsOnRecord(w.sh, w.threads[t], tx)
      modifies this
      ensures Reachable(w) && t !in w.threads && Over(old(w), w, old(w).threads[t])
      ensures var r := old(w).threads[t].req;
              && IsSent(w.sh, r, x, tx)
              && (fate.markSubmitted.Ok? ==> RSubmitted in w.sh.requests[r].log && WasTold(w.sh, r, fate))
    {
      ghost var s0, r := w, w.threads[t].req;
      x := MarkAndTell(t, others, fate, tx);
      ghost var s1 := w;
      Return(t, others, s1);
      OverTransitive(s0, s1, w, t);
      SentStays(s1.sh, w.sh, r, x, tx);
      if fate.markSubmitted.Ok? {
        LogStays(s1.sh, w.sh, r, RSubmitted);
        ToldStays(s1.sh, w.sh, r, fate);
      }
    }

    /** `Submit` from the nonce on. */
    method Transmit(t: Tid, others: Others, fate: Fate, ghost s0: State)
      returns (res: SubmitResult, ghost seen: State)
      requires Running(s0, w, t) && HasGas(w.threads[t].call, fate, w.threads[t].pc)
      requires NothingAccepted(s0.sh, w.threads[t].req) && !IsRejected(s0.sh, w.threads[t].req)
      modifies this
      ensures Reachable(w) && t !in w.threads && Answered(s0, w, t, old(w).threads[t], fate, res, seen)
    {
      var r := w.threads[t].req;
      ghost var th := w.threads[t];
      var error, tx;
      error, tx, seen := Broadcast(t, others, fate, s0);
      if error.Some? {
        Abort(t, others, s0);
        AbortedAnswer(s0, w, t, th, fate, error.value, seen);
        return Failed(error.value), seen;
      }
      ghost var s1 := w;
      ghost var x := Conclude(t, others, fate, tx.value);
      res := if fate.markSubmitted.Ok? then Submitted(r, tx.value, tx.value.signer) else Failed(MarkSubmittedFailed);
      seen := w;
      SentAnswer(s0, s1, w, t, fate, x, res, tx.value);
    }

    /** `Submit` after its request row: the rest of the call, from `Load` to the return. */
    method Proceed(t: Tid, others: Others, fate: Fate) returns (res: SubmitResult, ghost seen: State)
      requires Reachable(w) && t in w.threads && w.threads[t].pc.LoadCheck?
      modifies this
      ensures Reachable(w) && t !in w.threads && Answered(old(w), w, t, old(w).threads[t], fate, res, seen)
    {
      ghost var s0 := w;
      StartsSilent(w, t);
      var error;
      error, seen := Prepare(t, others, fate, s0);
      if error.Some? {
        Refuse(t, others, fate, s0);
        return Failed(error.value), seen;
      }
      res, seen := Transmit(t, others, fate, s0);
    }

    /** `insertRequest`, which is where a call first shows. */
    method InsertRequest(t: Tid, input: SubmitInput, outcome: Write) returns (o: Write, r: ReqId)
      requires Reachable(w) && t !in w.threads
      modifies this
      ensures o == if input.app in old(w).sh.signers then outcome else Fail
      ensures Reachable(w) && r !in old(w).sh.requests && (o.Fail? ==> w == old(w))
      ensures !o.Fail? ==>
                && Grows(old(w).sh, w.sh) && AttemptsAre(w.sh, r, None)
                && w.sh.requests == old(w).sh.requests[r := NewRequest(input)]
                && w.threads == if o.Ok? then old(w).threads[t := NewCall(input, r)] else old(w).threads
      ensures o.Lost? ==> Abandoned(w, r) && NeverAccepted(w, r)
    {
      ghost var free := FreshKey(w.sh.requests);
      r :| r !in w.sh.requests;
      o := if input.app in w.sh.signers then outcome else Fail;
      var e := Begin(t, r, input.app, input.call, input.notify, o);
      BeginStep(w, e);
      w := Apply(w, e);
    }

    /** `Service.Submit`. An error other than the last one means that the transaction is never sent. `own` is the
        request the call made, if it made one. */
    method Submit(t: Tid, others: Others, input: SubmitInput, fate: Fate)
      returns (res: SubmitResult, ghost own: Option<ReqId>, ghost seen: State)
      requires Reachable(w) && t !in w.threads
      modifies this
      ensures Reachable(w) && t !in w.threads && Grows(old(w).sh, w.sh)
      ensures res == Failed(ChainIdMismatch) <==> input.chainId != chainId
      ensures res == Failed(PastDeadline) <==> input.chainId == chainId && 0 < input.deadline < fate.now
      ensures res == Failed(InsertRequestFailed) <==>
                && input.chainId == chainId && !(0 < input.deadline < fate.now)
                && !(input.app in old(w).sh.signers && fate.insertRequest.Ok?)
      ensures own.None? ==>
                w == old(w) && res.Failed? && res.error in {ChainIdMismatch, PastDeadline, InsertRequestFailed}
      ensures own.Some? ==> own.value !in old(w).sh.requests && IsAnswer(w, t, input, fate, own.value, res, seen)
    {
      if input.chainId != chainId {
        return Failed(ChainIdMismatch), None, w;
      }
      if input.deadline > 0 && fate.now > input.deadline {
        return Failed(PastDeadline), None, w;
      }
      res, own, seen := Handle(t, others, input, fate);
    }

    /** A call whose chain and deadline are right. */
    method Handle(t: Tid, others: Others, input: SubmitInput, fate: Fate)
      returns (res: SubmitResult, ghost own: Option<ReqId>, ghost seen: State)
      requires Reachable(w) && t !in w.threads
      modifies this
      ensures Reachable(w) && t !in w.threads && Grows(old(w).sh, w.sh)
      ensures res.Failed? ==> res.error !in {ChainIdMismatch, PastDeadline}
      ensures res == Failed(InsertRequestFailed) <==> !(input.app in old(w).sh.signers && fate.insertRequest.Ok?)
      ensures own.None? ==> w == old(w) && res == Failed(InsertRequestFailed)
      ensures own.Some? ==> own.value !in old(w).sh.requests && IsAnswer(w, t, input, fate, own.value, res, seen)
    {
      var o, r := InsertRequest(t, input, fate.insertRequest);
      if !o.Ok? {
        if o.Lost? {
          LostAnswer(w, t, input, fate, r);
        }
        return Failed(InsertRequestFailed), if o.Lost? then Some(r) else None, w;
      }
      ghost var s1 := w;
      res, seen := Proceed(t, others, fate);
      own := Some(r);
      GrowsTransitive(old(w).sh, s1.sh, w.sh);
      FinalAnswer(s1, w, t, input, fate, r, res, seen);
    }
  }
}
