/** The watcher's program does what the watcher's steps do. */
module RelayTick {
  import opened Common
  import opened RelayState
  import opened RelaySteps
  import opened RelayInv
  import opened RelayTheorems
  import opened RelaySettle
  import opened WatcherQueue

  /** `process` of one attempt, on rows. */
  ghost predicate Processed(s: State, s': State, y: AttId, good: bool) {
    && y in s.sh.attempts && s.sh.attempts[y].req in s.sh.requests
    && s'.threads == s.threads && s'.sh.receipts == s.sh.receipts
    && var a := s.sh.attempts[y];
       if good && a.hash in s.sh.receipts then
         && s'.sh.attempts == s.sh.attempts[y := Settled(a, s.sh.receipts[a.hash])]
         && s'.sh.requests
            == s.sh.requests[a.req := SetStatus(s.sh.requests[a.req], Outcome(s.sh.receipts[a.hash]))]
       else s'.sh.attempts == s.sh.attempts && s'.sh.requests == s.sh.requests
  }

  /** The watcher's steps for the next attempt of its batch. */
  lemma ProcessNext(s0: State, s: State, rpc: bool, db: bool) returns (s': State)
    requires Leads(s0, s) && Reachable(s) && s.watcher.WBatch? && s.watcher.todo != []
    ensures Leads(s0, s') && Reachable(s') && s'.watcher == WBatch(s.watcher.todo[1..])
    ensures Processed(s, s', s.watcher.todo[0], rpc && db)
  {
    var y := s.watcher.todo[0];
    RowsOfBatch(s);
    LeadsOn(s0, s, Watching(AReadReceipt(rpc)));
    s' := Apply(s, Watching(AReadReceipt(rpc)));
    assert s' == DoReadReceipt(s, rpc);
    if s'.watcher.WSettle? {
      s' := SettleNext(s0, s', db);
    }
  }

  lemma RowsOfBatch(s: State)
    requires Reachable(s) && s.watcher.WBatch?
    ensures InTables(s.sh.attempts, s.sh.requests, s.watcher.todo)
  {
    InvReachable(s);
    forall i | 0 <= i < |s.watcher.todo|
      ensures s.watcher.todo[i] in s.sh.attempts && s.sh.attempts[s.watcher.todo[i]].req in s.sh.requests
    {
      assert AttemptOk(s.sh, s.watcher.todo[i]);
    }
  }

  lemma SettleNext(s0: State, s: State, db: bool) returns (s': State)
    requires Leads(s0, s) && Reachable(s) && s.watcher.WSettle? && CanSettle(s)
    ensures Leads(s0, s') && Reachable(s') && s'.watcher == WBatch(s.watcher.todo)
    ensures s'.threads == s.threads && s'.sh.receipts == s.sh.receipts
    ensures var a, rc := s.sh.attempts[s.watcher.att], s.watcher.receipt;
            && s'.sh.attempts == (if db then s.sh.attempts[s.watcher.att := Settled(a, rc)] else s.sh.attempts)
            && s'.sh.requests == (if db then SetRequest(s.sh, a.req, Outcome(rc)).requests else s.sh.requests)
  {
    var e := Watching(ASettle(if db then Ok else Fail));
    LeadsOn(s0, s, e);
    s' := Apply(s, e);
    assert s' == DoSettle(s, if db then Ok else Fail);
    if db {
      s' := NotifyNext(s0, s');
    }
  }

  /** The notification changes neither attempts nor requests. */
  lemma NotifyNext(s0: State, s: State) returns (s': State)
    requires Leads(s0, s) && Reachable(s) && s.watcher.WSnapshot?
    ensures Leads(s0, s') && Reachable(s') && s'.watcher == WBatch(s.watcher.todo)
    ensures s'.threads == s.threads && s'.sh.receipts == s.sh.receipts
    ensures s'.sh.attempts == s.sh.attempts && s'.sh.requests == s.sh.requests
  {
    InvReachable(s);
    var latest := Latest(s.sh, s.watcher.req);
    LeadsOn(s0, s, Watching(AWatcherSnapshot(latest, true)));
    s' := Apply(s, Watching(AWatcherSnapshot(latest, true)));
    if s'.watcher.WEnqueue? {
      LeadsOn(s0, s', Watching(AWatcherEnqueue(Ok)));
      s' := Apply(s', Watching(AWatcherEnqueue(Ok)));
    }
  }

  /** The tick that began in `s` has processed the first `i` attempts of its batch. */
  ghost predicate InTick(s: State, s': State, todo: seq<AttId>, i: nat, good: set<AttId>) {
    && i <= |todo| && Leads(s, s') && Reachable(s')
    && s'.watcher == WBatch(todo[i..]) && s'.threads == s.threads && s'.sh.receipts == s.sh.receipts
    && s'.sh.attempts == AfterTick(s.sh.attempts, todo[..i], s.sh.receipts, good)
    && InTables(s.sh.attempts, s.sh.requests, todo[..i])
    && s'.sh.requests == RequestsAfter(s.sh.attempts, s.sh.requests, todo[..i], s.sh.receipts, good)
  }

  lemma TickOn(s: State, s1: State, todo: seq<AttId>, i: nat, rpc: set<AttId>, db: set<AttId>) returns (s': State)
    requires Distinct(todo) && InTables(s.sh.attempts, s.sh.requests, todo)
    requires i < |todo| && InTick(s, s1, todo, i, rpc * db)
    ensures InTick(s, s', todo, i + 1, rpc * db)
  {
    var x := todo[i];
    assert todo[i..][0] == x && todo[i..][1..] == todo[i + 1..] && todo[..i + 1] == todo[..i] + [x];
    TickTurn(s.sh.attempts, s.sh.requests, todo[..i], x, s.sh.receipts, rpc * db);
    s' := ProcessNext(s, s1, x in rpc, x in db);
  }

  lemma TickBegins(s: State, todo: seq<AttId>, good: set<AttId>) returns (s': State)
    requires Reachable(s) && CanSelect(s, todo)
    ensures InTick(s, s', todo, 0, good) && InTables(s.sh.attempts, s.sh.requests, todo)
  {
    LeadsNowhere(s);
    LeadsOn(s, s, Watching(ASelect(todo)));
    s' := Apply(s, Watching(ASelect(todo)));
    RowsOfBatch(s');
    assert todo[0..] == todo;
  }

  /** For every pattern of RPC and database errors there is a run of the relayer in which the watcher takes a
      batch from its query to the end of the tick and leaves the rows exactly as `Watcher.Tick` does. */
  lemma TickIsARun(s: State, todo: seq<AttId>, rpc: set<AttId>, db: set<AttId>) returns (s': State)
    requires Reachable(s) && CanSelect(s, todo)
    ensures Leads(s, s') && Reachable(s') && s'.watcher == WIdle && s'.threads == s.threads
    ensures s'.sh.receipts == s.sh.receipts && InTables(s.sh.attempts, s.sh.requests, todo)
    ensures s'.sh.attempts == AfterTick(s.sh.attempts, todo, s.sh.receipts, rpc * db)
    ensures s'.sh.requests == RequestsAfter(s.sh.attempts, s.sh.requests, todo, s.sh.receipts, rpc * db)
  {
    s' := TickBegins(s, todo, rpc * db);
    for i := 0 to |todo|
      invariant InTick(s, s', todo, i, rpc * db)
    {
      s' := TickOn(s, s', todo, i, rpc, db);
    }
    assert todo[..|todo|] == todo && todo[|todo|..] == [];
    LeadsOn(s, s', Watching(AEndTick));
    s' := Apply(s', Watching(AEndTick));
  }
}
