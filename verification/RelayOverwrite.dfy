/** A concrete run in which a final status is overwritten and then written again: the histories and
    the three deliveries the general theorems allow do occur. */
module RelayOverwrite {
  import opened Common
  import opened RelayState
  import opened RelaySteps
  import opened RelayInv
  import opened RelayNotify
  import opened RelayTheorems

  const CALL := Call(9, 0, [], 21000)
  const TX := Tx(7, 0, CALL, 21000, 5)
  const RECEIPT := Receipt(true, 100, 21000, Some(5))
  const RECORDED := Some(Recorded(100, 21000, 5))

  function BaseShared(): Shared {
    Shared(map[1 := [7]], map[1 := Request(1, CALL, true, RPending, [RPending])], map[], [],
           map[], map[], map[], map[], map[], {})
  }

  ghost predicate At(s: State, sh: Shared, th: Thread, w: Watcher) {
    Reachable(s) && s.sh == sh && s.threads == map[1 := th] && s.watcher == w && s.batchSize == 1
  }

  function Submitter(held: Option<Addr>, pc: Pc): Thread {
    Thread(1, 1, CALL, held, pc)
  }

  /** One application with one signer, one request, its call about to load the pool. */
  lemma Loading() returns (s: State)
    ensures At(s, BaseShared(), Submitter(None, LoadCheck), WIdle)
  {
    s := State(Shared(map[], map[], map[], [], map[], map[], map[], map[], map[], {}), map[], WIdle, 1);
    assert IsRun(s, []) && After(s, []) == s && Reachable(s);
    ReachableStep(s, CreateApp(1, [7]));
    s := DoCreateApp(s, 1, [7]);
    ReachableStep(s, Begin(1, 1, 1, CALL, true, Ok));
    s := DoBegin(s, 1, 1, 1, CALL, true, Ok);
  }

  lemma Hydrated() returns (s: State)
    ensures At(s, BaseShared(), Submitter(None, Hydrate([7], 1, map[7 := 0])), WIdle)
  {
    s := Loading();
    ReachableStep(s, Setup(1, ALoadCheck));
    s := DoLoadCheck(s, 1);
    ReachableStep(s, Setup(1, ALoadList(true)));
    s := DoLoadList(s, 1, true);
    ReachableStep(s, Setup(1, AHydrate(true)));
    s := DoHydrate(s, 1, true);
    assert s.threads[1].pc.got == map[7 := 0];
  }

  function Loaded(idle: seq<Addr>, nonce: nat): Shared {
    BaseShared().(pools := map[1 := AppPool([7], idle)], nonces := map[7 := nonce])
  }

  /** The pool is installed and the call waits for a signer. */
  lemma Waiting() returns (s: State)
    ensures At(s, Loaded([7], 0), Submitter(None, Wait), WIdle)
  {
    s := Hydrated();
    ReachableStep(s, Setup(1, AInstall));
    s := DoInstall(s, 1);
    assert s.sh.nonces == map[7 := 0];
    ReachableStep(s, Setup(1, ALookup));
    s := DoLookup(s, 1);
  }

  lemma Priced() returns (s: State)
    ensures At(s, Loaded([], 0), Submitter(Some(7), TakeNonce(21000, 5)), WIdle)
  {
    s := Waiting();
    ReachableStep(s, Setup(1, AReceive));
    s := DoReceive(s, 1);
    assert [7][1..] == [] && s.sh.pools == map[1 := AppPool([7], [])];
    ReachableStep(s, Setup(1, APrice(Some(5))));
    s := DoPrice(s, 1, Some(5));
  }

  lemma Signed() returns (s: State)
    ensures At(s, Loaded([], 1), Submitter(Some(7), InsertAttempt(TX)), WIdle)
  {
    s := Priced();
    ReachableStep(s, Sending(1, ATakeNonce));
    s := DoTakeNonce(s, 1);
    ReachableStep(s, Sending(1, ASign(true)));
    s := DoSign(s, 1, true);
  }

  function Row(status: AttStatus, recorded: Option<Recorded>): Attempt {
    Attempt(1, 7, 0, TX, status, recorded, 0)
  }

  function Sent(a: Attempt, q: Request, ds: seq<Delivery>): Shared {
    Loaded([], 1).(attempts := map[1 := a], requests := map[1 := q], deliveries := ds,
                   accepted := map[7 := [TX]], receipts := map[TX := RECEIPT])
  }

  function Req(log: seq<ReqStatus>): Request
    requires log != []
  {
    Request(1, CALL, true, log[|log| - 1], log)
  }

  lemma OnRecord() returns (s: State)
    ensures At(s, Loaded([], 1).(attempts := map[1 := Row(ASubmitting, None)]), Submitter(Some(7), Send(TX, 1)), WIdle)
  {
    s := Signed();
    ReachableStep(s, Sending(1, AInsertAttempt(1, 0, Ok)));
    s := DoInsertAttempt(s, 1, 1, 0, Ok);
    assert ToInt64(0) == 0;
    assert s.sh.attempts[1] == Row(ASubmitting, None);
    assert s.sh.attempts == map[1 := Row(ASubmitting, None)];
  }

  /** The broadcast was accepted and mined before the call could mark it. */
  lemma Mined() returns (s: State)
    ensures At(s, Sent(Row(ASubmitting, None), Req([RPending]), []), Submitter(Some(7), MarkSubmitted(1)), WIdle)
  {
    s := OnRecord();
    ReachableStep(s, Sending(1, ASend(true)));
    s := DoSend(s, 1, true);
    assert [] + [TX] == [TX] && s.sh.accepted == map[7 := [TX]];
    ReachableStep(s, Mine(TX, RECEIPT));
    s := DoMine(s, TX, RECEIPT);
    assert s.sh.receipts == map[TX := RECEIPT];
  }

  /** The watcher reads the receipt of the one open attempt. */
  lemma ReadOne(s: State, a: Attempt, q: Request, ds: seq<Delivery>, th: Thread) returns (s': State)
    requires At(s, Sent(a, q, ds), th, WIdle) && IsOpen(a) && a.hash == TX && a.req == 1
    ensures At(s', Sent(a, q, ds), th, WSettle(1, RECEIPT, []))
  {
    assert IsOpenBatch(s.sh.attempts, 1, [1]);
    ReachableStep(s, Watching(ASelect([1])));
    s' := DoSelect(s, [1]);
    ReachableStep(s', Watching(AReadReceipt(true)));
    s' := DoReadReceipt(s', true);
    assert [1][1..] == [];
  }

  /** Confirmed by the watcher while the call has not yet marked its broadcast. */
  lemma ConfirmedFirst() returns (s: State)
    ensures At(s, Sent(Row(AConfirmed, RECORDED), Req([RPending, RConfirmed]), []),
               Submitter(Some(7), MarkSubmitted(1)), WSnapshot(1, []))
  {
    s := Mined();
    s := ReadOne(s, Row(ASubmitting, None), Req([RPending]), [], Submitter(Some(7), MarkSubmitted(1)));
    ReachableStep(s, Watching(ASettle(Ok)));
    s := DoSettle(s, Ok);
    assert Record(RECEIPT) == RECORDED.value && s.sh.dropped == {};
    assert s.sh.attempts[1] == Row(AConfirmed, RECORDED);
    assert s.sh.attempts == map[1 := Row(AConfirmed, RECORDED)];
    assert [RPending] + [RConfirmed] == [RPending, RConfirmed];
    assert s.sh.requests[1] == Req([RPending, RConfirmed]);
    assert s.sh.requests == map[1 := Req([RPending, RConfirmed])];
  }

  /** The call now overwrites the final status. */
  lemma Overwritten() returns (s: State)
    ensures At(s, Sent(Row(ASubmitted, RECORDED), Req([RPending, RConfirmed, RSubmitted]), []),
               Submitter(Some(7), Snapshot(false)), WSnapshot(1, []))
  {
    s := ConfirmedFirst();
    ReachableStep(s, Closing(1, AMarkSubmitted(Ok)));
    s := DoMarkSubmitted(s, 1, Ok);
    assert s.sh.attempts[1] == Row(ASubmitted, RECORDED);
    assert s.sh.attempts == map[1 := Row(ASubmitted, RECORDED)];
    assert [RPending, RConfirmed] + [RSubmitted] == [RPending, RConfirmed, RSubmitted];
    assert s.sh.requests[1] == Req([RPending, RConfirmed, RSubmitted]);
    assert s.sh.requests == map[1 := Req([RPending, RConfirmed, RSubmitted])];
  }

  const REPORT := Delivery(1, Payload(RSubmitted, Some(TX), RECORDED))

  /** The watcher's notification of the confirmation reports `submitted`, with the receipt's fields. */
  lemma FirstReport() returns (s: State)
    ensures At(s, Sent(Row(ASubmitted, RECORDED), Req([RPending, RConfirmed, RSubmitted]), [REPORT]),
               Submitter(Some(7), Snapshot(false)), WIdle)
  {
    s := Overwritten();
    assert IsLatestAttempt(s.sh, 1, Some(1));
    ReachableStep(s, Watching(AWatcherSnapshot(Some(1), true)));
    s := DoWatcherSnapshot(s, Some(1), true);
    ReachableStep(s, Watching(AWatcherEnqueue(Ok)));
    s := DoWatcherEnqueue(s, Ok);
    ReachableStep(s, Watching(AEndTick));
    s := DoEndTick(s);
  }

  lemma SecondReport() returns (s: State)
    ensures At(s, Sent(Row(ASubmitted, RECORDED), Req([RPending, RConfirmed, RSubmitted]), [REPORT, REPORT]),
               Submitter(Some(7), Finish), WIdle)
  {
    s := FirstReport();
    assert IsLatestAttempt(s.sh, 1, Some(1));
    ReachableStep(s, Closing(1, ASnapshot(Some(1), true)));
    s := DoSnapshot(s, 1, Some(1), true);
    ReachableStep(s, Closing(1, AEnqueue(Ok)));
    s := DoEnqueue(s, 1, Ok);
  }

  /** The next tick of the watcher repairs the status. */
  lemma Repaired() returns (s: State)
    ensures At(s, Sent(Row(AConfirmed, RECORDED), Req([RPending, RConfirmed, RSubmitted, RConfirmed]),
                       [REPORT, REPORT]),
               Submitter(Some(7), Finish), WSnapshot(1, []))
  {
    s := SecondReport();
    s := ReadOne(s, Row(ASubmitted, RECORDED), Req([RPending, RConfirmed, RSubmitted]), [REPORT, REPORT],
                 Submitter(Some(7), Finish));
    ReachableStep(s, Watching(ASettle(Ok)));
    s := DoSettle(s, Ok);
    assert Record(RECEIPT) == RECORDED.value && s.sh.dropped == {};
    assert s.sh.attempts[1] == Row(AConfirmed, RECORDED);
    assert s.sh.attempts == map[1 := Row(AConfirmed, RECORDED)];
    assert [RPending, RConfirmed, RSubmitted] + [RConfirmed] == [RPending, RConfirmed, RSubmitted, RConfirmed];
    assert s.sh.requests[1] == Req([RPending, RConfirmed, RSubmitted, RConfirmed]);
    assert s.sh.requests == map[1 := Req([RPending, RConfirmed, RSubmitted, RConfirmed])];
  }

  const FINAL_REPORT := Delivery(1, Payload(RConfirmed, Some(TX), RECORDED))

  lemma ThirdReport() returns (s: State)
    ensures Reachable(s) && s.sh.deliveries == [REPORT, REPORT, FINAL_REPORT]
    ensures s.sh.requests == map[1 := Req([RPending, RConfirmed, RSubmitted, RConfirmed])]
  {
    s := Repaired();
    assert IsLatestAttempt(s.sh, 1, Some(1));
    ReachableStep(s, Watching(AWatcherSnapshot(Some(1), true)));
    s := DoWatcherSnapshot(s, Some(1), true);
    ReachableStep(s, Watching(AWatcherEnqueue(Ok)));
    s := DoWatcherEnqueue(s, Ok);
  }

  /** "Confirmed is final" is false of the code: here is a request that is confirmed, then submitted, then
      confirmed again, and gets three deliveries, the first two reporting `submitted` with a receipt. */
  lemma ConfirmedThenSubmittedThenConfirmed() returns (s1: State, s2: State, s3: State)
    ensures Reachable(s1) && 1 in s1.sh.requests && s1.sh.requests[1].status == RConfirmed
    ensures Reachable(s2) && 1 in s2.sh.requests && s2.sh.requests[1].log == s1.sh.requests[1].log + [RSubmitted]
    ensures Reachable(s3) && 1 in s3.sh.requests && s3.sh.requests[1].log == s2.sh.requests[1].log + [RConfirmed]
    ensures Count(s3.sh.deliveries, 1) == 3
  {
    s1 := ConfirmedFirst();
    s2 := Overwritten();
    s3 := ThirdReport();
    ThreeReports();
  }

  lemma ThreeReports()
    ensures Count([REPORT, REPORT, FINAL_REPORT], 1) == 3
  {
    CountAppend([REPORT, REPORT], FINAL_REPORT, 1);
    CountAppend([REPORT], REPORT, 1);
    CountAppend([], REPORT, 1);
    assert [REPORT, REPORT] + [FINAL_REPORT] == [REPORT, REPORT, FINAL_REPORT];
    assert [REPORT] + [REPORT] == [REPORT, REPORT] && [] + [REPORT] == [REPORT];
  }
}
