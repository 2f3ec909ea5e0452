/** The startup report of internal/relay/recovery.go, and what it leaves out. */
module Recovery {
  import opened Common
  import opened RelayState
  import opened RelaySteps
  import opened RelayInv
  import opened RelayTheorems
  import opened RelayAbandon
  import Webhook

  datatype Report = Report(inflight: nat, pendingDeliveries: nat, stuck: seq<ReqId>)

  /** Which of the three queries, and which row of the last one, the database answers. */
  datatype Queries = Queries(attempts: bool, deliveries: bool, requests: bool, badRow: Option<nat>)

  function OpenAttempts(sh: Shared): set<AttId> {
    set x | x in sh.attempts && IsOpen(sh.attempts[x])
  }

  ghost function FailedAttempts(sh: Shared): set<AttId> {
    set x | x in sh.attempts && sh.attempts[x].status == AFailed
  }

  ghost function StuckRequests(sh: Shared): set<ReqId> {
    set r | r in sh.requests && IsStuck(sh, r)
  }

  /** Requests that are neither rejected nor settled. */
  ghost function UnfinishedRequests(sh: Shared): set<ReqId> {
    set r | r in sh.requests && (sh.requests[r].status == RPending || sh.requests[r].status == RSubmitted)
  }

  /** The stuck requests among `ids`, in the order of `ids`. */
  function StuckAmong(sh: Shared, ids: seq<ReqId>): seq<ReqId>
    requires forall r :: r in ids ==> r in sh.requests
  {
    if ids == [] then []
    else
      var n := |ids| - 1;
      StuckAmong(sh, ids[..n]) + if IsStuck(sh, ids[n]) then [ids[n]] else []
  }

  /** `Recover`. `byAge` lists all requests by `created_at`; the last query and its row loop are one loop here. */
  method Recover(sh: Shared, queue: Webhook.Rows, byAge: seq<ReqId>, queries: Queries) returns (report: Option<Report>)
    requires Distinct(byAge) && forall r :: r in byAge <==> r in sh.requests
    ensures report.None? <==>
              || !queries.attempts || !queries.deliveries || !queries.requests
              || (queries.badRow.Some? && queries.badRow.value < |StuckAmong(sh, byAge)|)
    ensures report.Some? ==>
              && report.value.inflight == |OpenAttempts(sh)|
              && report.value.pendingDeliveries == |set d | d in queue && queue[d].status.Pending?|
              && report.value.stuck == StuckAmong(sh, byAge)
              && |report.value.stuck| == |StuckRequests(sh)|
  {
    if !queries.attempts || !queries.deliveries || !queries.requests {
      return None;
    }
    var inflight := |OpenAttempts(sh)|;
    var pendingDeliveries := |set d | d in queue && queue[d].status.Pending?|;
    var stuck: seq<ReqId> := [];
    for i := 0 to |byAge|
      invariant stuck == StuckAmong(sh, byAge[..i])
      invariant queries.badRow.Some? ==> |stuck| <= queries.badRow.value
    {
      assert byAge[..i + 1][..i] == byAge[..i];
      if IsStuck(sh, byAge[i]) {
        if queries.badRow == Some(|stuck|) {
          StuckAmongGrows(sh, byAge, i + 1);
          return None;
        }
        stuck := stuck + [byAge[i]];
      }
    }
    assert byAge[..|byAge|] == byAge;
    StuckAmongIsStuck(sh, byAge);
    DistinctSize(stuck);
    assert Elements(stuck) == StuckRequests(sh);
    report := Some(Report(inflight, pendingDeliveries, stuck));
  }

  lemma {:induction false} StuckAmongGrows(sh: Shared, ids: seq<ReqId>, k: nat)
    requires k <= |ids| && forall r :: r in ids ==> r in sh.requests
    ensures |StuckAmong(sh, ids[..k])| <= |StuckAmong(sh, ids)|
    decreases |ids|
  {
    if k == |ids| {
      assert ids[..k] == ids;
    } else {
      var n := |ids| - 1;
      assert ids[..n][..k] == ids[..k];
      StuckAmongGrows(sh, ids[..n], k);
    }
  }

  /** The report lists every stuck request once and nothing else ... */
  lemma {:induction false} StuckAmongIsStuck(sh: Shared, ids: seq<ReqId>)
    requires Distinct(ids) && forall r :: r in ids ==> r in sh.requests
    ensures Distinct(StuckAmong(sh, ids))
    ensures forall r :: r in StuckAmong(sh, ids) <==> r in ids && IsStuck(sh, r)
  {
    if ids != [] {
      var n := |ids| - 1;
      StuckAmongIsStuck(sh, ids[..n]);
      assert ids == ids[..n] + [ids[n]];
    }
  }

  /** ... and older ones first. */
  lemma {:induction false} StuckAmongIsByAge(sh: Shared, ids: seq<ReqId>, i: nat, j: nat) returns (k: nat, l: nat)
    requires Distinct(ids) && forall r :: r in ids ==> r in sh.requests
    requires i < j < |StuckAmong(sh, ids)|
    ensures k < l < |ids| && ids[k] == StuckAmong(sh, ids)[i] && ids[l] == StuckAmong(sh, ids)[j]
  {
    var n := |ids| - 1;
    var before := StuckAmong(sh, ids[..n]);
    if j < |before| {
      k, l := StuckAmongIsByAge(sh, ids[..n], i, j);
    } else {
      StuckAmongIsStuck(sh, ids[..n]);
      assert before[i] in ids[..n];
      k :| 0 <= k < n && ids[k] == before[i];
      l := n;
    }
  }

  /** What the report leaves out: of the unfinished requests, exactly those with a failed attempt are in
      neither number. */
  lemma ReportMissesFailedAttempts(s: State)
    requires Reachable(s)
    ensures |OpenAttempts(s.sh)| + |StuckRequests(s.sh)| + |FailedAttempts(s.sh)| == |UnfinishedRequests(s.sh)|
  {
    InvReachable(s);
    EveryUnfinishedCounts(s.sh);
  }

  lemma EveryUnfinishedCounts(sh: Shared)
    requires DbOk(sh)
    ensures |OpenAttempts(sh)| + |StuckRequests(sh)| + |FailedAttempts(sh)| == |UnfinishedRequests(sh)|
  {
    var open, failed := Owners(sh, OpenAttempts(sh)), Owners(sh, FailedAttempts(sh));
    OwnersDiffer(sh, OpenAttempts(sh));
    OwnersDiffer(sh, FailedAttempts(sh));
    OwnersAreUnfinished(sh);
    UnfinishedIsTheirUnion(sh);
    assert |open + StuckRequests(sh)| == |open| + |StuckRequests(sh)|;
  }

  ghost function ReqOf(sh: Shared): AttId -> ReqId {
    x => if x in sh.attempts then sh.attempts[x].req else 0
  }

  ghost function Owners(sh: Shared, xs: set<AttId>): set<ReqId> {
    set x | x in xs :: ReqOf(sh)(x)
  }

  lemma OwnersDiffer(sh: Shared, xs: set<AttId>)
    requires UniqueRows(sh) && forall x :: x in xs ==> x in sh.attempts
    ensures |Owners(sh, xs)| == |xs|
  {
    ImageSize(xs, ReqOf(sh), Owners(sh, xs));
  }

  lemma OwnersAreUnfinished(sh: Shared)
    requires DbOk(sh)
    ensures Owners(sh, OpenAttempts(sh)) <= UnfinishedRequests(sh)
    ensures Owners(sh, FailedAttempts(sh)) <= UnfinishedRequests(sh)
    ensures Owners(sh, OpenAttempts(sh)) !! StuckRequests(sh) && Owners(sh, FailedAttempts(sh)) !! StuckRequests(sh)
    ensures Owners(sh, OpenAttempts(sh)) !! Owners(sh, FailedAttempts(sh))
    ensures StuckRequests(sh) <= UnfinishedRequests(sh)
  {
    forall x | x in sh.attempts && !IsSettled(sh.attempts[x])
      ensures sh.attempts[x].req in UnfinishedRequests(sh)
    {
      assert AttemptOk(sh, x) && RequestOk(sh, sh.attempts[x].req);
    }
  }

  lemma UnfinishedIsTheirUnion(sh: Shared)
    requires DbOk(sh)
    ensures UnfinishedRequests(sh)
            == Owners(sh, OpenAttempts(sh)) + StuckRequests(sh) + Owners(sh, FailedAttempts(sh))
  {
    OwnersAreUnfinished(sh);
    forall r | r in UnfinishedRequests(sh)
      ensures r in Owners(sh, OpenAttempts(sh)) || r in StuckRequests(sh) || r in Owners(sh, FailedAttempts(sh))
    {
      UnfinishedIsAccounted(sh, r);
    }
  }

  lemma UnfinishedIsAccounted(sh: Shared, r: ReqId)
    requires DbOk(sh) && r in UnfinishedRequests(sh)
    ensures r in Owners(sh, OpenAttempts(sh)) || r in StuckRequests(sh) || r in Owners(sh, FailedAttempts(sh))
  {
    UnfinishedRows(sh, r);
    if IsInFlight(sh, r) {
      var x :| x in sh.attempts && sh.attempts[x].req == r && IsOpen(sh.attempts[x]);
      assert x in OpenAttempts(sh) && ReqOf(sh)(x) == r;
    } else if HasFailedAttempt(sh, r) {
      var x :| x in sh.attempts && sh.attempts[x].req == r && sh.attempts[x].status == AFailed;
      assert x in FailedAttempts(sh) && ReqOf(sh)(x) == r;
    }
  }
}
