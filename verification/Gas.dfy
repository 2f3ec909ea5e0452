/** The gas worker of internal/gas/worker.go: one pass over an application's signers, and what any number
    of passes can send. Times are in milliseconds. */
module Gas {
  import opened Common

  type Addr = nat

  /** How long a recorded top-up suppresses another one for the same signer. */
  const RECENT_WINDOW: nat := 60_000

  datatype Policy = Policy(signerMin: nat, refill: nat, treasuryMin: nat)

  /** A `gas_attempts` row. */
  datatype Record = Record(signer: Addr, nonce: int, amount: nat, at: int)

  /** A top-up the chain accepted from the treasury, and when it shows in the signer's balance. */
  datatype Topup = Topup(signer: Addr, nonce: nat, amount: nat, sentAt: int, minedAt: int)

  /** What the environment answers while one signer is visited, and when. */
  datatype Visit = Visit(checkOk: bool, checkedAt: int, balance: Option<int>, readAt: int,
                         signOk: bool, sendOk: bool, sentAt: int, minedAt: int, saveOk: bool, savedAt: int)

  /** What it answers before the loop. */
  datatype Preflight = Preflight(treasuryBalance: Option<int>, listOk: bool, keyOk: bool,
                                 nonce: Option<nat>, priceOk: bool)

  datatype Ledger = Ledger(rows: seq<Record>, sent: seq<Topup>)

  predicate HasRecent(rows: seq<Record>, s: Addr, now: int) {
    exists i :: 0 <= i < |rows| && rows[i].signer == s && rows[i].at > now - RECENT_WINDOW
  }

  /** The signer is topped up during this visit. */
  predicate Refills(p: Policy, rows: seq<Record>, s: Addr, v: Visit) {
    && v.checkOk && !HasRecent(rows, s, v.checkedAt)
    && v.balance.Some? && v.balance.value < p.signerMin
    && v.signOk && v.sendOk
  }

  function AfterVisit(p: Policy, l: Ledger, nonce: nat, s: Addr, v: Visit): Ledger {
    if !Refills(p, l.rows, s, v) then l
    else Ledger(if v.saveOk then l.rows + [Record(s, ToInt64(nonce), p.refill, v.savedAt)] else l.rows,
                l.sent + [Topup(s, nonce, p.refill, v.sentAt, v.minedAt)])
  }

  /** The ledger after visiting signers in order, each accepted refill using up one nonce. */
  function AfterVisits(p: Policy, l: Ledger, nonce: nat, signers: seq<Addr>, visits: seq<Visit>): (l': Ledger)
    requires |visits| <= |signers|
    ensures l.sent <= l'.sent
    decreases |visits|
  {
    if visits == [] then l
    else
      var n := |visits| - 1;
      var before := AfterVisits(p, l, nonce, signers, visits[..n]);
      AfterVisit(p, before, (nonce + (|before.sent| - |l.sent|)) % U64, signers[n], visits[n])
  }

  class Worker {
    var rows: seq<Record>
    var sent: seq<Topup>

    constructor ()
      ensures rows == [] && sent == []
    {
      rows, sent := [], [];
    }

    /** `refill`: sign, broadcast, then record; a failed record does not undo the broadcast. */
    method Refill(p: Policy, nonce: nat, s: Addr, v: Visit) returns (ok: bool)
      modifies this
      ensures ok <==> v.signOk && v.sendOk
      ensures !ok ==> rows == old(rows) && sent == old(sent)
      ensures ok ==> sent == old(sent) + [Topup(s, nonce, p.refill, v.sentAt, v.minedAt)]
      ensures ok ==> rows == if v.saveOk then old(rows) + [Record(s, ToInt64(nonce), p.refill, v.savedAt)]
                             else old(rows)
    {
      if !v.signOk {
        return false;
      }
      if !v.sendOk {
        return false;
      }
      sent := sent + [Topup(s, nonce, p.refill, v.sentAt, v.minedAt)];
      if v.saveOk {
        rows := rows + [Record(s, ToInt64(nonce), p.refill, v.savedAt)];
      }
      return true;
    }

    /** `processApp`: checks first, then one visit per signer, moving on to the next nonce only after a
        refill the chain accepted. */
    method ProcessApp(p: Policy, pre: Preflight, signers: seq<Addr>, visits: seq<Visit>)
      returns (ok: bool, alerted: bool)
      requires |visits| == |signers| && (pre.nonce.Some? ==> pre.nonce.value < U64)
      modifies this
      ensures alerted <==> pre.treasuryBalance.Some? && 0 < p.treasuryMin && pre.treasuryBalance.value < p.treasuryMin
      ensures ok <==> && pre.treasuryBalance.Some? && pre.listOk
                      && (signers == [] || (pre.keyOk && pre.nonce.Some? && pre.priceOk))
      ensures Ledger(rows, sent) == if ok && signers != []
                                    then AfterVisits(p, Ledger(old(rows), old(sent)), pre.nonce.value, signers, visits)
                                    else Ledger(old(rows), old(sent))
    {
      alerted := false;
      if pre.treasuryBalance.None? {
        return false, alerted;
      }
      if p.treasuryMin > 0 && pre.treasuryBalance.value < p.treasuryMin {
        alerted := true;
      }
      if !pre.listOk {
        return false, alerted;
      }
      if |signers| == 0 {
        return true, alerted;
      }
      if !pre.keyOk || pre.nonce.None? || !pre.priceOk {
        return false, alerted;
      }
      VisitSigners(p, pre.nonce.value, signers, visits);
      return true, alerted;
    }

    /** The loop of `processApp`. */
    method VisitSigners(p: Policy, start: nat, signers: seq<Addr>, visits: seq<Visit>)
      requires |visits| == |signers| && start < U64
      modifies this
      ensures Ledger(rows, sent) == AfterVisits(p, Ledger(old(rows), old(sent)), start, signers, visits)
    {
      var nonce := start;
      ghost var l := Ledger(rows, sent);
      for i := 0 to |signers|
        invariant Ledger(rows, sent) == AfterVisits(p, l, start, signers, visits[..i])
        invariant |l.sent| <= |sent| && nonce == (start + (|sent| - |l.sent|)) % U64
      {
        var s, v := signers[i], visits[i];
        assert visits[..i + 1][..i] == visits[..i];
        if !v.checkOk {
          continue;
        }
        if HasRecent(rows, s, v.checkedAt) {
          continue;
        }
        if v.balance.None? {
          continue;
        }
        if v.balance.value >= p.signerMin {
          continue;
        }
        var refilled := Refill(p, nonce, s, v);
        if !refilled {
          continue;
        }
        WrapShift(start, |sent| - 1 - |l.sent|, |sent| - |l.sent|);
        nonce := Inc(nonce);
      }
      assert visits[..|signers|] == visits;
    }
  }
}
