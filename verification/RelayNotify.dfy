/** What the webhook queue receives: how many deliveries, carrying what. */
module RelayNotify {
  import opened Common
  import opened RelayState
  import opened RelaySteps
  import opened RelayInv

  // ---- Invariants

  /** How many deliveries a request has. */
  ghost function Count(ds: seq<Delivery>, r: ReqId): nat {
    if ds == [] then 0
    else Count(ds[..|ds| - 1], r) + (if ds[|ds| - 1].req == r then 1 else 0)
  }

  lemma CountAppend(ds: seq<Delivery>, d: Delivery, r: ReqId)
    ensures Count(ds + [d], r) == Count(ds, r) + (if d.req == r then 1 else 0)
  {
    assert (ds + [d])[..|ds|] == ds;
  }

  ghost predicate CallNotifies(s: State, t: Tid, r: ReqId) {
    t in s.threads && s.threads[t].req == r && Notifying(s.threads[t].pc)
  }

  predicate WatcherNotifies(w: Watcher, r: ReqId) {
    (w.WSnapshot? || w.WEnqueue?) && w.req == r
  }

  /** Enqueue operations under way for a request. */
  ghost function Underway(s: State, r: ReqId): nat {
    (if exists t :: CallNotifies(s, t, r) then 1 else 0) + (if WatcherNotifies(s.watcher, r) then 1 else 0)
  }

  /** No more deliveries than status changes after `pending`. */
  ghost predicate CountOk(s: State, r: ReqId)
    requires r in s.sh.requests
  {
    Count(s.sh.deliveries, r) + Underway(s, r) <= |s.sh.requests[r].log| - 1
  }

  ghost predicate Delivered(sh: Shared, r: ReqId, st: ReqStatus) {
    exists i :: 0 <= i < |sh.deliveries| && sh.deliveries[i].req == r && sh.deliveries[i].payload.status == st
  }

  /** The rejecting call is about to deliver the rejection. */
  ghost predicate CallWillReport(s: State, t: Tid, r: ReqId) {
    CallNotifies(s, t, r) && s.threads[t].pc.rejected
    && (s.threads[t].pc.Enqueue? ==> s.threads[t].pc.payload.status == RRejected)
  }

  /** The watcher is about to deliver the status it has just written. */
  predicate WatcherWillReport(s: State, r: ReqId, st: ReqStatus) {
    WatcherNotifies(s.watcher, r) && (s.watcher.WEnqueue? ==> s.watcher.payload.status == st)
  }

  /** The final status of a request is delivered, or about to be, unless its notification was lost. */
  ghost predicate CoverOk(s: State, r: ReqId)
    requires r in s.sh.requests
  {
    var q := s.sh.requests[r];
    q.notify && r !in s.sh.dropped ==>
      && (IsTerminal(q.status) ==> Delivered(s.sh, r, q.status) || WatcherWillReport(s, r, q.status))
      && (q.status.RRejected? ==> Delivered(s.sh, r, q.status) || exists t :: CallWillReport(s, t, r))
  }

  /** A payload tells of attempt `x`: its transaction, the columns of its receipt if there are any, and a final
      status only if that is how the transaction ended. */
  ghost predicate TellsOf(sh: Shared, r: ReqId, x: AttId, p: Payload) {
    && x in sh.attempts && sh.attempts[x].req == r && p.hash == Some(sh.attempts[x].hash)
    && (p.recorded.Some? ==>
          && sh.attempts[x].hash in sh.receipts
          && Shows(p.recorded.value, sh.receipts[sh.attempts[x].hash])
          && (p.status == RConfirmed ==> sh.receipts[sh.attempts[x].hash].success)
          && (p.status == RReverted ==> !sh.receipts[sh.attempts[x].hash].success))
    && (IsTerminal(p.status) ==> p.recorded.Some?)
  }

  /** A payload goes to a caller who wants it and reports a status the request really had: rejected and nothing
      else, or what became of its attempt. */
  ghost predicate PayloadOk(sh: Shared, r: ReqId, p: Payload) {
    && r in sh.requests && sh.requests[r].notify && p.status in sh.requests[r].log && p.status != RPending
    && (if p.status == RRejected then p.hash == None && p.recorded == None else exists x :: TellsOf(sh, r, x, p))
  }

  ghost predicate PayloadsOk(s: State) {
    && (forall i {:trigger PayloadOk(s.sh, s.sh.deliveries[i].req, s.sh.deliveries[i].payload)} ::
          0 <= i < |s.sh.deliveries| ==> PayloadOk(s.sh, s.sh.deliveries[i].req, s.sh.deliveries[i].payload))
    && (forall t {:trigger PayloadOk(s.sh, s.threads[t].req, s.threads[t].pc.payload)} ::
          t in s.threads && s.threads[t].pc.Enqueue? ==> PayloadOk(s.sh, s.threads[t].req, s.threads[t].pc.payload))
    && (s.watcher.WEnqueue? ==> PayloadOk(s.sh, s.watcher.req, s.watcher.payload))
  }

  ghost predicate NotifyOk(s: State) {
    forall r {:trigger CountOk(s, r)} {:trigger CoverOk(s, r)} :: r in s.sh.requests ==> CountOk(s, r) && CoverOk(s, r)
  }

  // ---- Nothing is ever taken back

  /** Histories are extended, rows keep their identity, acceptance and receipts are final. */
  ghost predicate Grows(sh: Shared, sh': Shared) {
    && (forall r :: r in sh.requests ==> r in sh'.requests && sh.requests[r].log <= sh'.requests[r].log
                                         && sh'.requests[r].notify == sh.requests[r].notify)
    && (forall x :: x in sh.attempts ==> x in sh'.attempts && sh'.attempts[x].req == sh.attempts[x].req
                                         && sh'.attempts[x].hash == sh.attempts[x].hash)
    && (forall tx :: tx in sh.receipts ==> tx in sh'.receipts && sh'.receipts[tx] == sh.receipts[tx])
    && sh.deliveries <= sh'.deliveries
  }

  lemma GrowsStep(s: State, e: Step)
    requires Enabled(s, e)
    ensures Grows(s.sh, Apply(s, e).sh)
  {
    match e
    case Begin(t, r, app, call, notify, o) =>
    case Setup(t, a) => SetupKeepsRows(s, t, a);
    case Sending(t, a) => GrowsSending(s, t, a);
    case Closing(t, a) => GrowsClosing(s, t, a);
    case Watching(a) => GrowsWatch(s, a);
    case Mine(tx, rc) =>
    case CreateApp(app, addrs) =>
    case Crash =>
  }

  lemma GrowsSending(s: State, t: Tid, a: SendAct)
    requires CanSending(s, t, a)
    ensures Grows(s.sh, DoSending(s, t, a).sh)
  {
    match a
    case ATakeNonce =>
    case ASign(ok) =>
    case AInsertAttempt(x, at, o) =>
    case ASend(ok) =>
    case ARewind =>
    case AMarkFailed(o) =>
  }

  lemma GrowsClosing(s: State, t: Tid, a: CloseAct)
    requires CanClosing(s, t, a)
    ensures Grows(s.sh, DoClosing(s, t, a).sh)
  {
    match a
    case AMarkSubmitted(o) =>
      if !o.Fail? {
        GrowsByStatus(s.sh, DoMarkSubmitted(s, t, o).sh, s.threads[t].req, RSubmitted);
      }
    case AReject(o) =>
      if !o.Fail? {
        GrowsByStatus(s.sh, DoReject(s, t, o).sh, s.threads[t].req, RRejected);
      }
    case ASnapshot(x, ok) =>
    case AEnqueue(o) =>
    case AFinish =>
  }

  /** A status update extends one history. */
  lemma GrowsByStatus(sh: Shared, sh': Shared, r: ReqId, st: ReqStatus)
    requires r in sh.requests && sh'.requests == SetRequest(sh, r, st).requests
    requires forall x :: x in sh.attempts ==> x in sh'.attempts && sh'.attempts[x].req == sh.attempts[x].req
                                              && sh'.attempts[x].hash == sh.attempts[x].hash
    requires sh'.receipts == sh.receipts && sh'.deliveries == sh.deliveries
    ensures Grows(sh, sh')
  {
  }

  lemma GrowsWatch(s: State, a: WatchAct)
    requires CanWatch(s, a)
    ensures Grows(s.sh, DoWatch(s, a).sh)
  {
    if a.ASettle? {
      GrowsSettle(s, a.o);
    } else {
      WatchFrame(s, a);
      if a.AWatcherEnqueue? {
        EnqueueGrows(s, a.o);
      }
    }
  }

  lemma EnqueueGrows(s: State, o: Write)
    requires CanWatcherEnqueue(s)
    ensures s.sh.deliveries <= DoWatcherEnqueue(s, o).sh.deliveries
  {
  }

  lemma GrowsSettle(s: State, o: Write)
    requires CanSettle(s)
    ensures Grows(s.sh, DoSettle(s, o).sh)
  {
    if !o.Fail? {
      GrowsByStatus(s.sh, DoSettle(s, o).sh, s.sh.attempts[s.watcher.att].req, Outcome(s.watcher.receipt));
    }
  }

  // ---- Payloads

  lemma PayloadStable(sh: Shared, sh': Shared, r: ReqId, p: Payload)
    requires PayloadOk(sh, r, p) && Grows(sh, sh')
    ensures PayloadOk(sh', r, p)
  {
    if p.status != RRejected {
      var x :| TellsOf(sh, r, x, p);
      assert TellsOf(sh', r, x, p);
    }
    var log := sh.requests[r].log;
    var i :| 0 <= i < |log| && log[i] == p.status;
    assert sh'.requests[r].log[i] == p.status;
  }

  /** The snapshot taken by `Enqueue` tells the truth. */
  lemma SnapshotOk(sh: Shared, r: ReqId, x: Option<AttId>)
    requires DbOk(sh) && r in sh.requests && IsLatestAttempt(sh, r, x)
    requires sh.requests[r].notify && sh.requests[r].log != [RPending]
    ensures PayloadOk(sh, r, MakePayload(sh, r, x))
  {
    assert RequestOk(sh, r);
    if x.Some? {
      assert AttemptOk(sh, x.value);
      assert TellsOf(sh, r, x.value, MakePayload(sh, r, x));
    }
  }

  lemma PayloadsStay(s: State, s': State)
    requires PayloadsOk(s) && Grows(s.sh, s'.sh)
    requires forall i :: |s.sh.deliveries| <= i < |s'.sh.deliveries| ==>
               PayloadOk(s.sh, s'.sh.deliveries[i].req, s'.sh.deliveries[i].payload)
    requires forall t :: t in s'.threads && s'.threads[t].pc.Enqueue? ==>
               || (t in s.threads && s'.threads[t] == s.threads[t])
               || PayloadOk(s.sh, s'.threads[t].req, s'.threads[t].pc.payload)
    requires s'.watcher.WEnqueue? ==>
               || s'.watcher == s.watcher
               || PayloadOk(s.sh, s'.watcher.req, s'.watcher.payload)
    ensures PayloadsOk(s')
  {
    forall i | 0 <= i < |s'.sh.deliveries|
      ensures PayloadOk(s'.sh, s'.sh.deliveries[i].req, s'.sh.deliveries[i].payload)
    {
      assert i < |s.sh.deliveries| ==> PayloadOk(s.sh, s.sh.deliveries[i].req, s.sh.deliveries[i].payload);
      PayloadStable(s.sh, s'.sh, s'.sh.deliveries[i].req, s'.sh.deliveries[i].payload);
    }
    forall t | t in s'.threads && s'.threads[t].pc.Enqueue?
      ensures PayloadOk(s'.sh, s'.threads[t].req, s'.threads[t].pc.payload)
    {
      PayloadStable(s.sh, s'.sh, s'.threads[t].req, s'.threads[t].pc.payload);
    }
    if s'.watcher.WEnqueue? {
      PayloadStable(s.sh, s'.sh, s'.watcher.req, s'.watcher.payload);
    }
  }

  lemma PayloadsClosing(s: State, t: Tid, a: CloseAct)
    requires PayloadsOk(s) && DbOk(s.sh) && CanClosing(s, t, a)
    requires a.ASnapshot? ==> s.sh.requests[s.threads[t].req].log != [RPending]
    ensures PayloadsOk(DoClosing(s, t, a))
  {
    GrowsClosing(s, t, a);
    match a
    case AMarkSubmitted(o) => PayloadsStay(s, DoMarkSubmitted(s, t, o));
    case AReject(o) => PayloadsStay(s, DoReject(s, t, o));
    case ASnapshot(x, ok) => PayloadsSnapshot(s, t, x, ok);
    case AEnqueue(o) => PayloadsEnqueue(s, t, o);
    case AFinish => PayloadsStay(s, DoFinish(s, t));
  }

  lemma PayloadsSnapshot(s: State, t: Tid, x: Option<AttId>, ok: bool)
    requires PayloadsOk(s) && DbOk(s.sh) && CanSnapshot(s, t, x) && Grows(s.sh, DoSnapshot(s, t, x, ok).sh)
    requires s.sh.requests[s.threads[t].req].log != [RPending]
    ensures PayloadsOk(DoSnapshot(s, t, x, ok))
  {
    if s.sh.requests[s.threads[t].req].notify {
      SnapshotOk(s.sh, s.threads[t].req, x);
    }
    PayloadsStay(s, DoSnapshot(s, t, x, ok));
  }

  lemma PayloadsEnqueue(s: State, t: Tid, o: Write)
    requires PayloadsOk(s) && CanEnqueue(s, t) && Grows(s.sh, DoEnqueue(s, t, o).sh)
    ensures PayloadsOk(DoEnqueue(s, t, o))
  {
    assert PayloadOk(s.sh, s.threads[t].req, s.threads[t].pc.payload);
    PayloadsStay(s, DoEnqueue(s, t, o));
  }

  lemma PayloadsWatch(s: State, a: WatchAct)
    requires PayloadsOk(s) && DbOk(s.sh) && NotifyOk(s) && CanWatch(s, a)
    ensures PayloadsOk(DoWatch(s, a))
  {
    GrowsWatch(s, a);
    if a.AWatcherSnapshot? {
      assert CountOk(s, s.watcher.req);
      PayloadsWatcherSnapshot(s, a.latest, a.ok);
    } else if a.AWatcherEnqueue? {
      PayloadsWatcherEnqueue(s, a.o);
    } else {
      WatchFrame(s, a);
      WatchReportsNothing(s, a);
      PayloadsStay(s, DoWatch(s, a));
    }
  }

  lemma PayloadsWatcherEnqueue(s: State, o: Write)
    requires PayloadsOk(s) && CanWatcherEnqueue(s) && Grows(s.sh, DoWatcherEnqueue(s, o).sh)
    ensures PayloadsOk(DoWatcherEnqueue(s, o))
  {
    PayloadsStay(s, DoWatcherEnqueue(s, o));
  }

  lemma WatchReportsNothing(s: State, a: WatchAct)
    requires CanWatch(s, a) && !a.AWatcherSnapshot? && !a.AWatcherEnqueue?
    ensures DoWatch(s, a).sh.deliveries == s.sh.deliveries && !DoWatch(s, a).watcher.WEnqueue?
  {
    match a
    case ASelect(todo) =>
    case AReadReceipt(ok) =>
    case ASettle(o) =>
    case AEndTick =>
  }

  lemma PayloadsWatcherSnapshot(s: State, x: Option<AttId>, ok: bool)
    requires PayloadsOk(s) && DbOk(s.sh) && CanWatcherSnapshot(s, x) && Grows(s.sh, DoWatcherSnapshot(s, x, ok).sh)
    requires CountOk(s, s.watcher.req)
    ensures PayloadsOk(DoWatcherSnapshot(s, x, ok))
  {
    if s.sh.requests[s.watcher.req].notify {
      SnapshotOk(s.sh, s.watcher.req, x);
    }
    PayloadsStay(s, DoWatcherSnapshot(s, x, ok));
  }

  /** A call notifies after it has written a status. */
  lemma NotifierHasWritten(s: State, t: Tid)
    requires OwnersOk(s) && t in s.threads
    ensures Notifying(s.threads[t].pc) && s.threads[t].req in s.sh.requests ==>
              s.sh.requests[s.threads[t].req].log != [RPending]
  {
    assert RowThread(s.sh, s.threads[t]);
  }

  lemma PayloadsKept(s: State, e: Step)
    requires PayloadsOk(s) && DbOk(s.sh) && OwnersOk(s) && NotifyOk(s) && Enabled(s, e)
    ensures PayloadsOk(Apply(s, e))
  {
    if e.Closing? {
      NotifierHasWritten(s, e.t);
      PayloadsClosing(s, e.t, e.close);
    } else if e.Watching? {
      PayloadsWatch(s, e.watch);
    } else {
      GrowsStep(s, e);
      QuietForWebhooks(s, e);
      PayloadsStay(s, Apply(s, e));
    }
  }

  /** A call that starts nothing and ends nothing for the webhooks. */
  ghost predicate SameCalls(s: State, s': State) {
    && (forall t :: t in s'.threads && Notifying(s'.threads[t].pc) ==> t in s.threads && s'.threads[t] == s.threads[t])
    && (forall t :: t in s.threads && Notifying(s.threads[t].pc) ==> t in s'.threads && s'.threads[t] == s.threads[t])
  }

  /** Outside the closing part of `Submit` and the watcher, only a crash concerns the webhooks. */
  lemma QuietForWebhooks(s: State, e: Step)
    requires Enabled(s, e) && !e.Closing? && !e.Watching?
    ensures var s' := Apply(s, e);
            && s'.sh.deliveries == s.sh.deliveries
            && (forall r :: r in s.sh.requests ==> r in s'.sh.requests && s'.sh.requests[r] == s.sh.requests[r])
            && (!e.Crash? ==> SameCalls(s, s') && s'.watcher == s.watcher && s'.sh.dropped == s.sh.dropped)
            && (e.Crash? ==> s'.threads == map[] && s'.watcher == WIdle)
            && (!e.Begin? ==> s'.sh.requests == s.sh.requests)
  {
    match e
    case Begin(t, r, app, call, notify, o) =>
    case Setup(t, a) => QuietSetup(s, t, a);
    case Sending(t, a) => QuietSending(s, t, a);
    case Mine(tx, rc) =>
    case CreateApp(app, addrs) =>
    case Crash =>
  }

  lemma QuietSetup(s: State, t: Tid, a: SetupAct)
    requires CanSetup(s, t, a)
    ensures var s' := DoSetup(s, t, a);
            && SameCalls(s, s') && s'.watcher == s.watcher && s'.sh.deliveries == s.sh.deliveries
            && s'.sh.requests == s.sh.requests && s'.sh.dropped == s.sh.dropped
  {
    if !a.AInstall? && !a.AReceive? {
      SetupFrame(s, t, a);
    }
  }

  lemma QuietSending(s: State, t: Tid, a: SendAct)
    requires CanSending(s, t, a)
    ensures var s' := DoSending(s, t, a);
            && SameCalls(s, s') && s'.watcher == s.watcher && s'.sh.deliveries == s.sh.deliveries
            && s'.sh.requests == s.sh.requests && s'.sh.dropped == s.sh.dropped
  {
    match a
    case ATakeNonce =>
    case ASign(ok) =>
    case AInsertAttempt(x, at, o) =>
    case ASend(ok) =>
    case ARewind =>
    case AMarkFailed(o) =>
  }

  // ---- Counting and coverage

  /** Nothing about the notifications of request `r` changed. */
  ghost predicate SameFor(s: State, s': State, r: ReqId) {
    && r in s.sh.requests && r in s'.sh.requests && s'.sh.requests[r] == s.sh.requests[r]
    && s.sh.deliveries <= s'.sh.deliveries && Count(s'.sh.deliveries, r) == Count(s.sh.deliveries, r)
    && (r in s'.sh.dropped <==> r in s.sh.dropped)
    && (forall t :: CallNotifies(s', t, r) ==> CallNotifies(s, t, r))
    && (forall t :: CallNotifies(s, t, r) ==> CallNotifies(s', t, r) && s'.threads[t].pc == s.threads[t].pc)
    && (WatcherNotifies(s.watcher, r) || WatcherNotifies(s'.watcher, r) ==> s'.watcher == s.watcher)
  }

  lemma DeliveredStays(sh: Shared, sh': Shared, r: ReqId, st: ReqStatus)
    requires Delivered(sh, r, st) && sh.deliveries <= sh'.deliveries
    ensures Delivered(sh', r, st)
  {
    var i :| 0 <= i < |sh.deliveries| && sh.deliveries[i].req == r && sh.deliveries[i].payload.status == st;
    assert sh'.deliveries[i] == sh.deliveries[i];
  }

  lemma NotifyStable(s: State, s': State, r: ReqId)
    requires SameFor(s, s', r) && CountOk(s, r) && CoverOk(s, r)
    ensures CountOk(s', r) && CoverOk(s', r)
  {
    var q := s.sh.requests[r];
    if Delivered(s.sh, r, q.status) {
      DeliveredStays(s.sh, s'.sh, r, q.status);
    } else if exists t :: CallWillReport(s, t, r) {
      var t :| CallWillReport(s, t, r);
      assert CallWillReport(s', t, r);
    }
  }

  /** A step for request `r` alone. */
  lemma NotifyChange(s: State, s': State, r: ReqId)
    requires NotifyOk(s)
    requires forall q :: q in s'.sh.requests && q != r ==> SameFor(s, s', q)
    requires r in s'.sh.requests ==> CountOk(s', r) && CoverOk(s', r)
    ensures NotifyOk(s')
  {
    forall q | q in s'.sh.requests ensures CountOk(s', q) && CoverOk(s', q) {
      if q != r {
        assert SameFor(s, s', q);
        assert CountOk(s, q) && CoverOk(s, q);
        NotifyStable(s, s', q);
      }
    }
  }

  /** A request has one call; it alone notifies for it. */
  lemma OwnerNotifies(s: State, t: Tid)
    requires OneOwner(s) && t in s.threads
    ensures forall u :: CallNotifies(s, u, s.threads[t].req) ==> u == t
    ensures (exists u :: CallNotifies(s, u, s.threads[t].req)) <==> Notifying(s.threads[t].pc)
  {
    if Notifying(s.threads[t].pc) {
      assert CallNotifies(s, t, s.threads[t].req);
    }
  }

  /** Requests other than the one call `t` works for. */
  lemma OthersSame(s: State, s': State, t: Tid, q: ReqId)
    requires Moved(s, s', t) && s.threads[t].req != q
    requires q in s.sh.requests && q in s'.sh.requests && s'.sh.requests[q] == s.sh.requests[q]
    requires s'.sh.deliveries == s.sh.deliveries
             || exists d: Delivery :: d.req == s.threads[t].req && s'.sh.deliveries == s.sh.deliveries + [d]
    requires q in s'.sh.dropped <==> q in s.sh.dropped
    ensures SameFor(s, s', q)
  {
    if s'.sh.deliveries != s.sh.deliveries {
      var d: Delivery :| d.req == s.threads[t].req && s'.sh.deliveries == s.sh.deliveries + [d];
      CountAppend(s.sh.deliveries, d, q);
    }
  }

  lemma OwnerMoved(s: State, s': State, t: Tid)
    requires OneOwner(s) && Moved(s, s', t)
    ensures OneOwner(s')
  {
    forall u, v | u in s'.threads && v in s'.threads && s'.threads[u].req == s'.threads[v].req
      ensures u == v
    {
      assert s.threads[u].req == s.threads[v].req;
    }
  }

  /** A status write by a call, which then notifies or not. */
  lemma NotifyWrite(s: State, s': State, t: Tid, st: ReqStatus, o: Write)
    requires NotifyOk(s) && OneOwner(s) && Moved(s, s', t) && !Notifying(s.threads[t].pc)
    requires st == RSubmitted || st == RRejected
    requires var r := s.threads[t].req;
             && r in s.sh.requests
             && s'.sh.requests == (if o.Fail? then s.sh.requests
                                   else s.sh.requests[r := SetStatus(s.sh.requests[r], st)])
             && s'.sh.dropped == (if o.Lost? && st == RRejected then s.sh.dropped + {r} else s.sh.dropped)
    requires s'.sh.deliveries == s.sh.deliveries
    requires s'.threads[t].pc == if o.Ok? then Snapshot(st == RRejected) else Finish
    ensures NotifyOk(s')
  {
    var r := s.threads[t].req;
    forall q | q in s'.sh.requests && q != r ensures SameFor(s, s', q) {
      OthersSame(s, s', t, q);
    }
    OwnerMoved(s, s', t);
    OwnerNotifies(s, t);
    OwnerNotifies(s', t);
    assert CountOk(s, r) && CoverOk(s, r);
    assert CountOk(s', r);
    if o.Ok? && st == RRejected {
      assert CallWillReport(s', t, r);
    }
    if o.Fail? {
      assert SameFor(s, s', r);
      NotifyStable(s, s', r);
    }
    NotifyChange(s, s', r);
  }

  lemma NotifySnapshot(s: State, t: Tid, x: Option<AttId>, ok: bool)
    requires NotifyOk(s) && OwnersOk(s) && DbOk(s.sh) && CanSnapshot(s, t, x)
    ensures NotifyOk(DoSnapshot(s, t, x, ok))
  {
    var s' := DoSnapshot(s, t, x, ok);
    var r := s.threads[t].req;
    assert RowThread(s.sh, s.threads[t]) && RequestOk(s.sh, r);
    forall q | q in s'.sh.requests && q != r ensures SameFor(s, s', q) {
      OthersSame(s, s', t, q);
    }
    OwnerMoved(s, s', t);
    OwnerNotifies(s, t);
    OwnerNotifies(s', t);
    assert CountOk(s, r) && CoverOk(s, r);
    assert CountOk(s', r);
    assert CoverOk(s', r) by {
      RejectedOwner(s, t);
      if Notifying(s'.threads[t].pc) && s.sh.requests[r].status.RRejected? {
        assert CallWillReport(s', t, r);
      }
      if Delivered(s.sh, r, s.sh.requests[r].status) {
        DeliveredStays(s.sh, s'.sh, r, s.sh.requests[r].status);
      }
    }
    NotifyChange(s, s', r);
  }

  /** A call notifying about a rejected request is the rejecting one. */
  lemma RejectedOwner(s: State, t: Tid)
    requires t in s.threads && RowThread(s.sh, s.threads[t]) && Notifying(s.threads[t].pc)
    requires RequestOk(s.sh, s.threads[t].req) && DbOk(s.sh)
    ensures s.sh.requests[s.threads[t].req].status.RRejected? ==> s.threads[t].pc.rejected
  {
    var r := s.threads[t].req;
    if s.sh.requests[r].status.RRejected? && !NoAttempt(s.sh, r) {
      var x :| x in s.sh.attempts && s.sh.attempts[x].req == r;
      assert AttemptOk(s.sh, x);
    }
  }

  lemma NotifyEnqueue(s: State, t: Tid, o: Write)
    requires NotifyOk(s) && OwnersOk(s) && DbOk(s.sh) && CanEnqueue(s, t)
    ensures NotifyOk(DoEnqueue(s, t, o))
  {
    var s' := DoEnqueue(s, t, o);
    var r := s.threads[t].req;
    var d := Delivery(r, s.threads[t].pc.payload);
    assert RowThread(s.sh, s.threads[t]) && RequestOk(s.sh, r);
    assert o.Fail? || s'.sh.deliveries == s.sh.deliveries + [d];
    forall q | q in s'.sh.requests && q != r ensures SameFor(s, s', q) {
      OthersSame(s, s', t, q);
    }
    OwnerMoved(s, s', t);
    OwnerNotifies(s, t);
    OwnerNotifies(s', t);
    CountAppend(s.sh.deliveries, d, r);
    assert CountOk(s, r) && CoverOk(s, r);
    assert CountOk(s', r);
    var st := s.sh.requests[r].status;
    RejectedOwner(s, t);
    if Delivered(s.sh, r, st) {
      DeliveredStays(s.sh, s'.sh, r, st);
    } else if !o.Fail? && d.payload.status == st {
      assert s'.sh.deliveries[|s.sh.deliveries|] == d;
      assert Delivered(s'.sh, r, st);
    }
    NotifyChange(s, s', r);
  }

  lemma NotifyFinish(s: State, t: Tid)
    requires NotifyOk(s) && CanFinish(s, t)
    ensures NotifyOk(DoFinish(s, t))
  {
    var s' := DoFinish(s, t);
    forall q | q in s'.sh.requests ensures CountOk(s', q) && CoverOk(s', q) {
      assert CountOk(s, q) && CoverOk(s, q);
      assert SameFor(s, s', q);
      NotifyStable(s, s', q);
    }
  }

  lemma NotifyClosing(s: State, t: Tid, a: CloseAct)
    requires NotifyOk(s) && OwnersOk(s) && DbOk(s.sh) && CanClosing(s, t, a)
    ensures NotifyOk(DoClosing(s, t, a))
  {
    match a
    case AMarkSubmitted(o) => NotifyWrite(s, DoMarkSubmitted(s, t, o), t, RSubmitted, o);
    case AReject(o) => NotifyWrite(s, DoReject(s, t, o), t, RRejected, o);
    case ASnapshot(x, ok) => NotifySnapshot(s, t, x, ok);
    case AEnqueue(o) => NotifyEnqueue(s, t, o);
    case AFinish => NotifyFinish(s, t);
  }

  /** A watcher step that concerns request `r`. */
  lemma NotifyWatcher(s: State, s': State, r: ReqId)
    requires NotifyOk(s) && s'.threads == s.threads
    requires s'.sh.requests.Keys == s.sh.requests.Keys
    requires forall q :: q in s.sh.requests && q != r ==> s'.sh.requests[q] == s.sh.requests[q]
                                                          && (q in s'.sh.dropped <==> q in s.sh.dropped)
    requires forall q :: q != r ==> !WatcherNotifies(s.watcher, q) && !WatcherNotifies(s'.watcher, q)
    requires s'.sh.deliveries == s.sh.deliveries
             || exists d: Delivery :: d.req == r && s'.sh.deliveries == s.sh.deliveries + [d]
    requires r in s'.sh.requests ==> CountOk(s', r) && CoverOk(s', r)
    ensures NotifyOk(s')
  {
    forall q | q in s'.sh.requests && q != r ensures SameFor(s, s', q) {
      if s'.sh.deliveries != s.sh.deliveries {
        var d: Delivery :| d.req == r && s'.sh.deliveries == s.sh.deliveries + [d];
        CountAppend(s.sh.deliveries, d, q);
      }
    }
    NotifyChange(s, s', r);
  }

  /** Calls are as before, so what they notify is. */
  lemma SameThreads(s: State, s': State, r: ReqId)
    requires s'.threads == s.threads
    ensures forall t :: CallNotifies(s', t, r) <==> CallNotifies(s, t, r)
    ensures forall t :: CallWillReport(s', t, r) <==> CallWillReport(s, t, r)
  {
  }

  lemma NotifySettle(s: State, o: Write)
    requires NotifyOk(s) && CanSettle(s)
    ensures NotifyOk(DoSettle(s, o))
  {
    var s' := DoSettle(s, o);
    var r := s.sh.attempts[s.watcher.att].req;
    assert CountOk(s, r) && CoverOk(s, r);
    SameThreads(s, s', r);
    if o.Fail? {
      assert SameFor(s, s', r);
      NotifyStable(s, s', r);
    }
    NotifyWatcher(s, s', r);
  }

  lemma NotifyWatcherSnapshot(s: State, x: Option<AttId>, ok: bool)
    requires NotifyOk(s) && CanWatcherSnapshot(s, x)
    ensures NotifyOk(DoWatcherSnapshot(s, x, ok))
  {
    var s' := DoWatcherSnapshot(s, x, ok);
    var r := s.watcher.req;
    assert CountOk(s, r) && CoverOk(s, r);
    SameThreads(s, s', r);
    var st := s.sh.requests[r].status;
    if Delivered(s.sh, r, st) {
      DeliveredStays(s.sh, s'.sh, r, st);
    } else if exists t :: CallWillReport(s, t, r) {
      var t :| CallWillReport(s, t, r);
      assert CallWillReport(s', t, r);
    }
    NotifyWatcher(s, s', r);
  }

  lemma NotifyWatcherEnqueue(s: State, o: Write)
    requires NotifyOk(s) && CanWatcherEnqueue(s)
    ensures NotifyOk(DoWatcherEnqueue(s, o))
  {
    var s' := DoWatcherEnqueue(s, o);
    var r := s.watcher.req;
    var d := Delivery(r, s.watcher.payload);
    if r in s.sh.requests {
      assert CountOk(s, r) && CoverOk(s, r);
      SameThreads(s, s', r);
      CountAppend(s.sh.deliveries, d, r);
      var st := s.sh.requests[r].status;
      if Delivered(s.sh, r, st) {
        DeliveredStays(s.sh, s'.sh, r, st);
      } else if !o.Fail? && d.payload.status == st {
        assert s'.sh.deliveries[|s.sh.deliveries|] == d;
        assert Delivered(s'.sh, r, st);
      } else if exists t :: CallWillReport(s, t, r) {
        var t :| CallWillReport(s, t, r);
        assert CallWillReport(s', t, r);
      }
    }
    assert o.Fail? || s'.sh.deliveries == s.sh.deliveries + [d];
    NotifyWatcher(s, s', r);
  }

  /** Steps of the watcher outside its three writes. */
  lemma NotifyWatcherQuiet(s: State, s': State)
    requires NotifyOk(s) && s'.threads == s.threads && s'.sh == s.sh
    requires forall q :: !WatcherNotifies(s.watcher, q) && !WatcherNotifies(s'.watcher, q)
    ensures NotifyOk(s')
  {
    forall q | q in s'.sh.requests ensures CountOk(s', q) && CoverOk(s', q) {
      assert CountOk(s, q) && CoverOk(s, q);
      assert SameFor(s, s', q);
      NotifyStable(s, s', q);
    }
  }

  lemma NotifyWatch(s: State, a: WatchAct)
    requires NotifyOk(s) && CanWatch(s, a)
    ensures NotifyOk(DoWatch(s, a))
  {
    match a
    case ASelect(todo) => NotifyWatcherQuiet(s, DoSelect(s, todo));
    case AReadReceipt(ok) => NotifyWatcherQuiet(s, DoReadReceipt(s, ok));
    case ASettle(o) => NotifySettle(s, o);
    case AWatcherSnapshot(x, ok) => NotifyWatcherSnapshot(s, x, ok);
    case AWatcherEnqueue(o) => NotifyWatcherEnqueue(s, o);
    case AEndTick => NotifyWatcherQuiet(s, DoEndTick(s));
  }

  lemma NotifyBegin(s: State, t: Tid, r: ReqId, app: AppId, call: Call, notify: bool, o: Write)
    requires NotifyOk(s) && PayloadsOk(s) && OwnersOk(s) && CanBegin(s, t, r, app, o)
    requires WatcherOk(s.sh, s.watcher)
    ensures NotifyOk(DoBegin(s, t, r, app, call, notify, o))
  {
    var s' := DoBegin(s, t, r, app, call, notify, o);
    forall q | q in s'.sh.requests && q != r ensures SameFor(s, s', q) {}
    if !o.Fail? {
      NoDeliveryYet(s, r, s.sh.deliveries);
      forall u ensures !CallNotifies(s', u, r) {
        assert u in s.threads ==> RowThread(s.sh, s.threads[u]);
      }
      assert CountOk(s', r);
    }
    NotifyChange(s, s', r);
  }

  lemma {:induction false} NoDeliveryYet(s: State, r: ReqId, ds: seq<Delivery>)
    requires PayloadsOk(s) && r !in s.sh.requests && ds <= s.sh.deliveries
    ensures Count(ds, r) == 0
  {
    if ds != [] {
      var i := |ds| - 1;
      assert PayloadOk(s.sh, s.sh.deliveries[i].req, s.sh.deliveries[i].payload);
      NoDeliveryYet(s, r, ds[..i]);
    }
  }

  lemma NotifyCrash(s: State)
    requires NotifyOk(s)
    ensures NotifyOk(DoCrash(s))
  {
    var s' := DoCrash(s);
    forall q | q in s'.sh.requests ensures CountOk(s', q) && CoverOk(s', q) {
      assert CountOk(s, q) && CoverOk(s, q);
      if q !in s'.sh.dropped {
        assert !WatcherNotifies(s.watcher, q);
        assert forall t :: !CallWillReport(s, t, q);
        var st := s.sh.requests[q].status;
        if Delivered(s.sh, q, st) {
          DeliveredStays(s.sh, s'.sh, q, st);
        }
      }
    }
  }

  lemma NotifyQuiet(s: State, e: Step)
    requires NotifyOk(s) && Enabled(s, e) && (e.Setup? || e.Sending? || e.Mine? || e.CreateApp?)
    ensures NotifyOk(Apply(s, e))
  {
    var s' := Apply(s, e);
    QuietForWebhooks(s, e);
    forall q | q in s'.sh.requests ensures CountOk(s', q) && CoverOk(s', q) {
      assert CountOk(s, q) && CoverOk(s, q);
      assert SameFor(s, s', q);
      NotifyStable(s, s', q);
    }
  }

  /** Every step keeps the number of deliveries bounded and the final status covered. */
  lemma NotifyKept(s: State, e: Step)
    requires NotifyOk(s) && PayloadsOk(s) && RowsOk(s) && Enabled(s, e)
    ensures NotifyOk(Apply(s, e))
  {
    match e
    case Begin(t, r, app, call, notify, o) => NotifyBegin(s, t, r, app, call, notify, o);
    case Setup(t, a) => NotifyQuiet(s, e);
    case Sending(t, a) => NotifyQuiet(s, e);
    case Closing(t, a) => NotifyClosing(s, t, a);
    case Watching(a) => NotifyWatch(s, a);
    case Mine(tx, rc) => NotifyQuiet(s, e);
    case CreateApp(app, addrs) => NotifyQuiet(s, e);
    case Crash => NotifyCrash(s);
  }
}
