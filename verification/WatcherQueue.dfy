/** The receipt watcher of internal/relay/watcher.go as the program it is: what one tick does to the rows. */
module WatcherQueue {
  import opened Common
  import opened RelayState

  type Attempts = map<AttId, Attempt>
  type Requests = map<ReqId, Request>
  type Receipts = map<Tx, Receipt>

  function Settled(a: Attempt, rc: Receipt): Attempt {
    a.(status := AttemptOutcome(rc), recorded := Some(Record(rc)))
  }

  /** The attempts after a batch was processed; `good` are those that met no error. */
  function AfterTick(attempts: Attempts, todo: seq<AttId>, receipts: Receipts, good: set<AttId>): Attempts {
    map x | x in attempts :: if x in todo && x in good && attempts[x].hash in receipts
                             then Settled(attempts[x], receipts[attempts[x].hash]) else attempts[x]
  }

  class Watcher {
    var attempts: Attempts
    var requests: Requests

    constructor ()
      ensures attempts == map[] && requests == map[]
    {
      attempts, requests := map[], map[];
    }

    /** `process`: nothing without a receipt, otherwise attempt and request in one transaction. */
    method Process(x: AttId, receipts: Receipts, rpcOk: bool, dbOk: bool) returns (ok: bool)
      requires x in attempts && attempts[x].req in requests
      modifies this
      ensures ok <==> rpcOk && (old(attempts)[x].hash in receipts ==> dbOk)
      ensures var a := old(attempts)[x];
              if rpcOk && dbOk && a.hash in receipts then
                && attempts == old(attempts)[x := Settled(a, receipts[a.hash])]
                && requests == old(requests)[a.req := SetStatus(old(requests)[a.req], Outcome(receipts[a.hash]))]
              else attempts == old(attempts) && requests == old(requests)
      ensures var a := old(attempts)[x];
              rpcOk && dbOk && a.hash in receipts ==>
                && attempts[x].status == (if receipts[a.hash].success then AConfirmed else AReverted)
                && requests[a.req].status == (if receipts[a.hash].success then RConfirmed else RReverted)
                && attempts[x].recorded.Some? && Shows(attempts[x].recorded.value, receipts[a.hash])
    {
      var a := attempts[x];
      if !rpcOk {
        return false;
      }
      if a.hash !in receipts {
        return true;
      }
      var rc := receipts[a.hash];
      if !dbOk {
        return false;
      }
      attempts := attempts[x := Settled(a, rc)];
      requests := requests[a.req := SetStatus(requests[a.req], Outcome(rc))];
      return true;
    }

    /** One tick: an attempt whose RPC or transaction fails is logged and left for the next tick. */
    method Tick(todo: seq<AttId>, receipts: Receipts, rpc: set<AttId>, db: set<AttId>) returns (processed: nat)
      requires Distinct(todo) && InTables(attempts, requests, todo)
      modifies this
      ensures processed == Handled(old(attempts), todo, receipts, rpc, db)
      ensures attempts == AfterTick(old(attempts), todo, receipts, rpc * db)
      ensures requests == RequestsAfter(old(attempts), old(requests), todo, receipts, rpc * db)
    {
      processed := 0;
      for i := 0 to |todo|
        invariant processed == Handled(old(attempts), todo[..i], receipts, rpc, db)
        invariant attempts == AfterTick(old(attempts), todo[..i], receipts, rpc * db)
        invariant requests == RequestsAfter(old(attempts), old(requests), todo[..i], receipts, rpc * db)
      {
        var x := todo[i];
        assert todo[..i + 1] == todo[..i] + [x];
        TickTurn(old(attempts), old(requests), todo[..i], x, receipts, rpc * db);
        assert todo[..i + 1][..i] == todo[..i];
        var ok := Process(x, receipts, x in rpc, x in db);
        if ok {
          processed := processed + 1;
        }
      }
      assert todo[..|todo|] == todo;
    }
  }

  /** One more attempt of a batch. */
  lemma TickTurn(attempts: Attempts, requests: Requests, todo: seq<AttId>, x: AttId, receipts: Receipts,
                 good: set<AttId>)
    requires InTables(attempts, requests, todo) && InTables(attempts, requests, todo + [x]) && x !in todo
    requires x in attempts && attempts[x].req in requests
    ensures var a, before := attempts[x], AfterTick(attempts, todo, receipts, good);
            && before[x] == a
            && AfterTick(attempts, todo + [x], receipts, good)
               == if x in good && a.hash in receipts then before[x := Settled(a, receipts[a.hash])] else before
    ensures var a := attempts[x];
            var before := RequestsAfter(attempts, requests, todo, receipts, good);
            RequestsAfter(attempts, requests, todo + [x], receipts, good)
            == if x in good && a.hash in receipts
               then before[a.req := SetStatus(before[a.req], Outcome(receipts[a.hash]))] else before
  {
    assert (todo + [x])[|todo|] == x && (todo + [x])[..|todo|] == todo;
    assert forall i :: 0 <= i < |todo| ==> (todo + [x])[i] == todo[i];
  }

  /** How many attempts of a batch `process` returns no error for: where there is no receipt, the database is
      not asked. */
  ghost function Handled(attempts: Attempts, todo: seq<AttId>, receipts: Receipts,
                         rpc: set<AttId>, db: set<AttId>): nat
    requires forall i :: 0 <= i < |todo| ==> todo[i] in attempts
  {
    if todo == [] then 0
    else
      var n := |todo| - 1;
      Handled(attempts, todo[..n], receipts, rpc, db)
      + (if todo[n] in rpc && (attempts[todo[n]].hash in receipts ==> todo[n] in db) then 1 else 0)
  }

  predicate InTables(attempts: Attempts, requests: Requests, todo: seq<AttId>) {
    forall i :: 0 <= i < |todo| ==> todo[i] in attempts && attempts[todo[i]].req in requests
  }

  /** The requests after a batch was processed. */
  function RequestsAfter(attempts: Attempts, requests: Requests, todo: seq<AttId>, receipts: Receipts,
                         good: set<AttId>): (q: Requests)
    requires InTables(attempts, requests, todo)
    ensures q.Keys == requests.Keys
    decreases |todo|
  {
    if todo == [] then requests
    else
      var n := |todo| - 1;
      var before := RequestsAfter(attempts, requests, todo[..n], receipts, good);
      var a := attempts[todo[n]];
      if todo[n] in good && a.hash in receipts
      then before[a.req := SetStatus(before[a.req], Outcome(receipts[a.hash]))] else before
  }

  /** A request of a batch gets the outcome of its receipt, once; without receipt, or after an error, it is
      not touched. */
  lemma {:induction false} TickSettlesRequests(attempts: Attempts, requests: Requests, todo: seq<AttId>,
                                               receipts: Receipts, good: set<AttId>, r: ReqId)
    requires InTables(attempts, requests, todo) && Distinct(todo) && r in requests
    requires forall x, y :: x in attempts && y in attempts && attempts[x].req == attempts[y].req ==> x == y
    ensures var q := RequestsAfter(attempts, requests, todo, receipts, good)[r];
            && (forall x :: x in todo && attempts[x].req == r && x in good && attempts[x].hash in receipts ==>
                  && q.status == (if receipts[attempts[x].hash].success then RConfirmed else RReverted)
                  && q == requests[r].(status := q.status, log := requests[r].log + [q.status]))
            && ((forall x :: x in todo && attempts[x].req == r && x in good ==> attempts[x].hash !in receipts) ==>
                  q == requests[r])
    decreases |todo|
  {
    if todo != [] {
      var n := |todo| - 1;
      var rest := todo[..n];
      TickSettlesRequests(attempts, requests, rest, receipts, good, r);
      assert todo == rest + [todo[n]] && todo[n] !in rest;
    }
  }
}
