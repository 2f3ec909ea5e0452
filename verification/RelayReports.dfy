/** What callers are told: the deliveries of every run. */
module RelayReports {
  import opened Common
  import opened RelayState
  import opened RelaySteps
  import opened RelayInv
  import opened RelayNotify
  import opened RelayTheorems

  /** A request never gets more than three deliveries, a rejected one never more than one. */
  lemma AtMostThreeDeliveries(s: State, r: ReqId)
    requires Reachable(s) && r in s.sh.requests
    ensures Count(s.sh.deliveries, r) <= 3
    ensures s.sh.requests[r].status == RRejected ==> Count(s.sh.deliveries, r) <= 1
  {
    InvReachable(s);
    assert CountOk(s, r);
    var T := StatusHistory(s, r);
  }

  /** Every delivery reports a status its request really had, and a final one exactly the receipt. */
  lemma DeliveriesTellTheTruth(s: State, i: nat)
    requires Reachable(s) && i < |s.sh.deliveries|
    ensures PayloadOk(s.sh, s.sh.deliveries[i].req, s.sh.deliveries[i].payload)
  {
    InvReachable(s);
  }

  /** The steps that can lose the notification of a final status. */
  predicate LosesNotification(e: Step) {
    match e
    case Crash => true
    case Closing(_, a) => a == AReject(Lost) || (a.ASnapshot? && !a.ok) || a == AEnqueue(Fail)
    case Watching(a) => a == ASettle(Lost) || (a.AWatcherSnapshot? && !a.ok) || a == AWatcherEnqueue(Fail)
    case _ => false
  }

  lemma DropsOnlyByLoss(s: State, e: Step)
    requires Enabled(s, e) && !LosesNotification(e)
    ensures Apply(s, e).sh.dropped <= s.sh.dropped
  {
    if e.Closing? {
      match e.close
      case AMarkSubmitted(o) =>
      case AReject(o) =>
      case ASnapshot(x, ok) =>
      case AEnqueue(o) =>
      case AFinish =>
    } else if e.Watching? {
      match e.watch
      case ASelect(todo) =>
      case AReadReceipt(ok) =>
      case ASettle(o) =>
      case AWatcherSnapshot(x, ok) =>
      case AWatcherEnqueue(o) =>
      case AEndTick =>
    } else {
      QuietForWebhooks(s, e);
    }
  }

  lemma {:induction false} NothingDropped(s: State, steps: seq<Step>)
    requires IsRun(s, steps) && s.sh.dropped == {}
    requires forall i :: 0 <= i < |steps| ==> !LosesNotification(steps[i])
    ensures After(s, steps).sh.dropped == {}
    decreases |steps|
  {
    if steps != [] {
      DropsOnlyByLoss(s, steps[0]);
      NothingDropped(Apply(s, steps[0]), steps[1..]);
    }
  }

  /** A request is closed: its status is final or rejected and nobody is about to report it. */
  ghost predicate Reported(s: State, r: ReqId)
    requires r in s.sh.requests
  {
    && !WatcherNotifies(s.watcher, r)
    && (forall t :: !CallNotifies(s, t, r))
    && (IsTerminal(s.sh.requests[r].status) || s.sh.requests[r].status == RRejected)
  }

  /** In a run without crash and without a failing enqueue, a closed request with a callback has a
      delivery carrying its final status, although status write and snapshot are not atomic. */
  lemma FinalStatusIsDelivered(s0: State, steps: seq<Step>, r: ReqId)
    requires Init(s0) && IsRun(s0, steps)
    requires forall i :: 0 <= i < |steps| ==> !LosesNotification(steps[i])
    requires var s := After(s0, steps);
             r in s.sh.requests && s.sh.requests[r].notify && Reported(s, r)
    ensures var s := After(s0, steps); Delivered(s.sh, r, s.sh.requests[r].status)
  {
    InvInit(s0);
    InvRun(s0, steps);
    NothingDropped(s0, steps);
    assert CoverOk(After(s0, steps), r);
  }
}
