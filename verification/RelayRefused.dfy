/** Concrete runs of attempts that go wrong: one doomed by a crash, one refused by the unique index. */
module RelayRefused {
  import opened Common
  import opened RelayState
  import opened RelaySteps
  import opened RelayTheorems
  import opened RelayWall
  import opened RelayOverwrite

  /** A crash between the attempt row and the broadcast. With a batch size of one, this attempt is the only one
      examined from then on, unless others are as old: the watcher has stopped for everything younger. */
  lemma OneCrashStopsTheWatcher() returns (s: State)
    ensures Reachable(s) && s.batchSize == 1 && IsDoomed(s, 1)
    ensures forall steps, todo :: IsRun(s, steps) && CanSelect(After(s, steps), todo) ==>
              NoneYounger(After(s, steps).sh, todo, s.sh.attempts[1].at)
  {
    var s1 := OnRecord();
    ReachableStep(s1, Crash);
    s := Apply(s1, Crash);
    CrashDooms(s1, 1);
    forall steps, todo | IsRun(s, steps) && CanSelect(After(s, steps), todo)
      ensures NoneYounger(After(s, steps).sh, todo, s.sh.attempts[1].at)
    {
      DoomedStopTheWatcher(s, steps, {1}, todo);
    }
  }

  ghost predicate NoneYounger(sh: Shared, todo: seq<AttId>, at: int) {
    forall x :: x in todo ==> x in sh.attempts && sh.attempts[x].at <= at
  }

  const FAILED := Attempt(1, 7, 0, TX, AFailed, None, 0)

  /** The broadcast is refused and the nonce goes back. */
  lemma SentBack() returns (s: State)
    ensures At(s, Loaded([], 0).(attempts := map[1 := Row(ASubmitting, None)]),
               Submitter(Some(7), MarkFailed(1)), WIdle)
  {
    s := OnRecord();
    ReachableStep(s, Sending(1, ASend(false)));
    s := DoSend(s, 1, false);
    ReachableStep(s, Sending(1, ARewind));
    s := DoRewind(s, 1);
    assert s.sh.nonces == map[7 := 0];
  }

  /** The attempt is marked and the call returns its signer. */
  lemma GivenUp() returns (s: State)
    ensures Reachable(s) && s.sh == Loaded([7], 0).(attempts := map[1 := FAILED]) && s.threads == map[]
  {
    s := SentBack();
    ReachableStep(s, Sending(1, AMarkFailed(Ok)));
    s := DoMarkFailed(s, 1, Ok);
    assert s.sh.attempts[1] == FAILED && s.sh.attempts == map[1 := FAILED];
    ReachableStep(s, Closing(1, AFinish));
    s := DoFinish(s, 1);
    assert [] + [7] == [7] && s.sh.pools == map[1 := AppPool([7], [7])] && s.threads == map[];
  }

  /** The tables after the caller asked for the same once more. */
  function Retried(idle: seq<Addr>, nonce: nat): Shared {
    Loaded(idle, nonce).(attempts := map[1 := FAILED],
                         requests := map[1 := Req([RPending]), 2 := Req([RPending])])
  }

  ghost predicate AtRetry(s: State, sh: Shared, held: Option<Addr>, pc: Pc) {
    Reachable(s) && s.sh == sh && s.threads == map[2 := Thread(1, 2, CALL, held, pc)]
  }

  lemma Retrying() returns (s: State)
    ensures AtRetry(s, Retried([7], 0), None, Wait)
  {
    s := GivenUp();
    ReachableStep(s, Begin(2, 2, 1, CALL, true, Ok));
    s := DoBegin(s, 2, 2, 1, CALL, true, Ok);
    assert s.sh.requests == map[1 := Req([RPending]), 2 := Req([RPending])];
    ReachableStep(s, Setup(2, ALoadCheck));
    s := DoLoadCheck(s, 2);
    ReachableStep(s, Setup(2, ALookup));
    s := DoLookup(s, 2);
  }

  lemma RetryPriced() returns (s: State)
    ensures AtRetry(s, Retried([], 0), Some(7), TakeNonce(21000, 5))
  {
    s := Retrying();
    ReachableStep(s, Setup(2, AReceive));
    s := DoReceive(s, 2);
    assert [7][1..] == [] && s.sh.pools == map[1 := AppPool([7], [])];
    ReachableStep(s, Setup(2, APrice(Some(5))));
    s := DoPrice(s, 2, Some(5));
  }

  /** After a refused broadcast the same call at the same price yields the same transaction, and the unique
      index refuses its row: the insert has no other outcome than an error. */
  lemma IdenticalRetryIsRefused() returns (s: State)
    ensures Reachable(s) && 2 in s.threads && s.threads[2].pc == InsertAttempt(TX) && s.threads[2].req == 2
    ensures 1 in s.sh.attempts && s.sh.attempts[1].hash == TX && s.sh.attempts[1].status == AFailed
    ensures forall x, at, o :: Enabled(s, Sending(2, AInsertAttempt(x, at, o))) ==> o == Fail
  {
    s := RetryPriced();
    ReachableStep(s, Sending(2, ATakeNonce));
    s := DoTakeNonce(s, 2);
    ReachableStep(s, Sending(2, ASign(true)));
    s := DoSign(s, 2, true);
    assert s.sh.attempts[1].hash == TX;
  }
}
