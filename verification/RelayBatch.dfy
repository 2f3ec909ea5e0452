/** The watcher's query always has an answer, and which attempts an answer can hold. */
module RelayBatch {
  import opened Common
  import opened RelayState

  ghost function OlderIn(attempts: map<AttId, Attempt>, ids: set<AttId>, x: AttId): set<AttId>
    requires x in attempts && forall y :: y in ids ==> y in attempts
  {
    set y | y in ids && attempts[y].at < attempts[x].at
  }

  /** An oldest attempt of `ids`; `x` if it is one of them. */
  lemma {:induction false} Oldest(attempts: map<AttId, Attempt>, ids: set<AttId>, x: AttId) returns (y: AttId)
    requires ids != {} && forall z :: z in ids ==> z in attempts
    ensures y in ids && forall z :: z in ids ==> attempts[y].at <= attempts[z].at
    ensures x in ids && attempts[x].at == attempts[y].at ==> y == x
    decreases |ids|
  {
    y :| y in ids;
    var rest := ids - {y};
    assert ids == rest + {y};
    if rest != {} {
      var z := Oldest(attempts, rest, x);
      if attempts[z].at < attempts[y].at || (attempts[z].at == attempts[y].at && z == x) {
        y := z;
      }
    }
  }

  /** The `limit` oldest attempts of `ids`, in order. */
  ghost predicate IsOldest(attempts: map<AttId, Attempt>, ids: set<AttId>, limit: nat, todo: seq<AttId>)
    decreases |todo|
  {
    if todo == [] then limit == 0 || ids == {}
    else
      && limit > 0 && todo[0] in ids
      && (forall z :: z in ids ==> z in attempts && todo[0] in attempts && attempts[todo[0]].at <= attempts[z].at)
      && IsOldest(attempts, ids - {todo[0]}, limit - 1, todo[1..])
  }

  /** There is a batch, and it has `x` if fewer than `limit` attempts are older. */
  lemma {:induction false} FindBatch(attempts: map<AttId, Attempt>, ids: set<AttId>, limit: nat, x: AttId)
    returns (todo: seq<AttId>)
    requires x in attempts && forall y :: y in ids ==> y in attempts
    ensures IsOldest(attempts, ids, limit, todo)
    ensures x in ids && |OlderIn(attempts, ids, x)| < limit ==> x in todo
    decreases limit
  {
    todo := [];
    if limit > 0 && ids != {} {
      var y := Oldest(attempts, ids, x);
      var rest := FindBatch(attempts, ids - {y}, limit - 1, x);
      todo := [y] + rest;
      assert todo[1..] == rest;
      assert OlderIn(attempts, ids - {y}, x) == OlderIn(attempts, ids, x) - {y};
    }
  }

  lemma {:induction false} OldestAreIds(attempts: map<AttId, Attempt>, ids: set<AttId>, limit: nat, todo: seq<AttId>)
    requires IsOldest(attempts, ids, limit, todo)
    ensures |todo| <= limit && forall i :: 0 <= i < |todo| ==> todo[i] in ids
    decreases |todo|
  {
    if todo != [] {
      OldestAreIds(attempts, ids - {todo[0]}, limit - 1, todo[1..]);
      assert forall i :: 0 < i < |todo| ==> todo[i] == todo[1..][i - 1];
    }
  }

  lemma {:induction false} OldestAreDistinct(attempts: map<AttId, Attempt>, ids: set<AttId>, limit: nat,
                                             todo: seq<AttId>)
    requires IsOldest(attempts, ids, limit, todo)
    ensures Distinct(todo)
    decreases |todo|
  {
    if todo != [] {
      var rest := todo[1..];
      OldestAreDistinct(attempts, ids - {todo[0]}, limit - 1, rest);
      OldestAreIds(attempts, ids - {todo[0]}, limit - 1, rest);
      assert forall i :: 0 < i < |todo| ==> todo[i] == rest[i - 1];
    }
  }

  lemma {:induction false} OldestAreSorted(attempts: map<AttId, Attempt>, ids: set<AttId>, limit: nat,
                                           todo: seq<AttId>, i: nat, j: nat)
    requires IsOldest(attempts, ids, limit, todo) && i < j < |todo|
    ensures todo[i] in attempts && todo[j] in attempts && attempts[todo[i]].at <= attempts[todo[j]].at
    decreases |todo|
  {
    OldestAreIds(attempts, ids, limit, todo);
    if i > 0 {
      OldestAreSorted(attempts, ids - {todo[0]}, limit - 1, todo[1..], i - 1, j - 1);
    }
  }

  /** What is left out is no older than what is in, and only when the batch is full. */
  lemma {:induction false} OthersAreYounger(attempts: map<AttId, Attempt>, ids: set<AttId>, limit: nat,
                                            todo: seq<AttId>, y: AttId, i: nat)
    requires IsOldest(attempts, ids, limit, todo) && y in ids && y !in todo
    ensures |todo| == limit
    ensures i < |todo| ==> todo[i] in attempts && y in attempts && attempts[todo[i]].at <= attempts[y].at
    decreases |todo|
  {
    if todo != [] {
      assert todo == [todo[0]] + todo[1..];
      OthersAreYounger(attempts, ids - {todo[0]}, limit - 1, todo[1..], y, if i == 0 then 0 else i - 1);
    }
  }

  ghost function OpenIds(attempts: map<AttId, Attempt>): set<AttId> {
    set y | y in attempts && IsOpen(attempts[y])
  }

  lemma OldestIsBatch(attempts: map<AttId, Attempt>, limit: nat, todo: seq<AttId>)
    requires IsOldest(attempts, OpenIds(attempts), limit, todo)
    ensures IsOpenBatch(attempts, limit, todo)
  {
    var ids := OpenIds(attempts);
    OldestAreIds(attempts, ids, limit, todo);
    OldestAreDistinct(attempts, ids, limit, todo);
    forall i, j | 0 <= i < j < |todo| ensures attempts[todo[i]].at <= attempts[todo[j]].at {
      OldestAreSorted(attempts, ids, limit, todo, i, j);
    }
    forall y | y in attempts && IsOpen(attempts[y]) && y !in todo
      ensures |todo| == limit && forall i :: 0 <= i < |todo| ==> attempts[todo[i]].at <= attempts[y].at
    {
      OthersAreYounger(attempts, ids, limit, todo, y, 0);
      forall i | 0 <= i < |todo| ensures attempts[todo[i]].at <= attempts[y].at {
        OthersAreYounger(attempts, ids, limit, todo, y, i);
      }
    }
  }

  /** Behind at least `limit` older attempts, an attempt that is not picked sees a full batch of older ones. */
  lemma BatchIsOlder(attempts: map<AttId, Attempt>, ids: set<AttId>, limit: nat, x: AttId, todo: seq<AttId>)
    requires IsOldest(attempts, ids, limit, todo) && x in ids && x !in todo && forall y :: y in ids ==> y in attempts
    requires |OlderIn(attempts, ids, x)| >= limit
    ensures |todo| == limit && Distinct(todo) && Elements(todo) <= OlderIn(attempts, ids, x)
  {
    var older, batch := OlderIn(attempts, ids, x), Elements(todo);
    OldestAreIds(attempts, ids, limit, todo);
    OldestAreDistinct(attempts, ids, limit, todo);
    OthersAreYounger(attempts, ids, limit, todo, x, 0);
    DistinctSize(todo);
    if older <= batch {
      assert batch == older + (batch - older);
    } else {
      var z :| z in older && z !in batch;
      forall i | 0 <= i < |todo| ensures attempts[todo[i]].at <= attempts[z].at {
        OthersAreYounger(attempts, ids, limit, todo, z, i);
      }
    }
  }
}
