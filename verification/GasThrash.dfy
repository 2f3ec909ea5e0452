/** The gas worker does not thrash: what top-ups of a signer say about its spending, over any run. */
module GasThrash {
  import opened Common
  import opened Gas
  import opened GasBounds

  /** One signer: its first balance, and what it has spent by a given time. */
  datatype Account = Account(signer: Addr, first: int, spent: int -> nat)

  ghost predicate NeverUnspends(a: Account) {
    forall t, u :: t <= u ==> a.spent(t) <= a.spent(u)
  }

  // ---- Counting top-ups of a signer

  ghost function SentTo(sent: seq<Topup>, s: Addr): nat {
    if sent == [] then 0
    else SentTo(sent[..|sent| - 1], s) + (if sent[|sent| - 1].signer == s then 1 else 0)
  }

  /** Those sent by a given time ... */
  ghost function SentBy(sent: seq<Topup>, s: Addr, time: int): nat {
    if sent == [] then 0
    else
      var last := sent[|sent| - 1];
      SentBy(sent[..|sent| - 1], s, time) + (if last.signer == s && last.sentAt <= time then 1 else 0)
  }

  /** ... and those mined by it. */
  ghost function MinedBy(sent: seq<Topup>, s: Addr, time: int): nat {
    if sent == [] then 0
    else
      var last := sent[|sent| - 1];
      MinedBy(sent[..|sent| - 1], s, time) + (if last.signer == s && last.minedAt <= time then 1 else 0)
  }

  lemma {:induction false} CountsAreOrdered(sent: seq<Topup>, s: Addr, time: int)
    ensures SentBy(sent, s, time) <= SentTo(sent, s) && MinedBy(sent, s, time) <= SentTo(sent, s)
  {
    if sent != [] {
      CountsAreOrdered(sent[..|sent| - 1], s, time);
    }
  }

  lemma {:induction false} AllMined(sent: seq<Topup>, s: Addr, time: int)
    requires forall i :: 0 <= i < |sent| && sent[i].signer == s ==> sent[i].minedAt <= time
    ensures MinedBy(sent, s, time) == SentTo(sent, s)
  {
    if sent != [] {
      AllMined(sent[..|sent| - 1], s, time);
    }
  }

  lemma {:induction false} AllSent(sent: seq<Topup>, s: Addr, time: int)
    requires forall i :: 0 <= i < |sent| ==> sent[i].sentAt <= time
    ensures SentBy(sent, s, time) == SentTo(sent, s)
  {
    if sent != [] {
      AllSent(sent[..|sent| - 1], s, time);
    }
  }

  // ---- The chain shows balances

  /** Balance on chain: the first one, the top-ups mined so far, less the spending. No other deposits. */
  ghost function BalanceAt(p: Policy, a: Account, sent: seq<Topup>, time: int): int {
    a.first + Blocks(p.refill, MinedBy(sent, a.signer, time)) - a.spent(time)
  }

  /** A visit of the signer reads its balance on chain, and its top-up is mined inside the dedupe window. */
  ghost predicate Sees(p: Policy, a: Account, l: Ledger, s: Addr, v: Visit) {
    s == a.signer ==>
      && (v.balance.Some? ==> v.balance.value == BalanceAt(p, a, l.sent, v.readAt))
      && v.sentAt <= v.minedAt <= v.sentAt + RECENT_WINDOW
  }

  ghost predicate VisitSees(p: Policy, base: nat, a: Account, l: Ledger, signers: seq<Addr>, visits: seq<Visit>, n: nat)
    requires n < |visits| <= |signers|
  {
    Sees(p, a, Run(p, base, l, signers, visits[..n]), signers[n], visits[n])
  }

  ghost predicate PassSees(p: Policy, base: nat, a: Account, l: Ledger, signers: seq<Addr>, visits: seq<Visit>)
    requires |visits| <= |signers|
  {
    forall n {:trigger VisitSees(p, base, a, l, signers, visits, n)} ::
      0 <= n < |visits| ==> VisitSees(p, base, a, l, signers, visits, n)
  }

  ghost predicate RunSees(p: Policy, base: nat, a: Account, l: Ledger, clock: int, passes: seq<Pass>)
    requires IsRun(p, base, l, clock, passes)
    decreases |passes|
  {
    passes == [] ||
    var Pass(signers, visits) := passes[0];
    && PassSees(p, base, a, l, signers, visits)
    && RunSees(p, base, a, Run(p, base, l, signers, visits), visits[|visits| - 1].savedAt, passes[1..])
  }

  // ---- Every top-up is paid for

  /** When top-up `i` was sent, everything before it was mined and the signer was below the minimum. */
  ghost predicate EntryPaid(p: Policy, a: Account, sent: seq<Topup>, i: nat)
    requires i < |sent|
  {
    sent[i].signer == a.signer ==>
      && sent[i].sentAt <= sent[i].minedAt <= sent[i].sentAt + RECENT_WINDOW
      && a.first + Blocks(p.refill, SentTo(sent[..i], a.signer)) - a.spent(sent[i].sentAt) < p.signerMin
  }

  ghost predicate AllPaid(p: Policy, a: Account, sent: seq<Topup>) {
    forall i {:trigger EntryPaid(p, a, sent, i)} :: 0 <= i < |sent| ==> EntryPaid(p, a, sent, i)
  }

  /** No recent row means that every earlier top-up is mined: this is what the dedupe window is for. */
  lemma NoRecentMeansMined(p: Policy, base: nat, a: Account, l: Ledger, clock: int, now: int, time: int)
    requires LedgerOk(p, base, l, clock) && AllPaid(p, a, l.sent) && !HasRecent(l.rows, a.signer, now) && now <= time
    ensures MinedBy(l.sent, a.signer, time) == SentTo(l.sent, a.signer)
  {
    forall i | 0 <= i < |l.sent| && l.sent[i].signer == a.signer ensures l.sent[i].minedAt <= time {
      assert EntryOk(p, base, l, clock, i) && EntryPaid(p, a, l.sent, i);
      assert l.rows[i].at <= now - RECENT_WINDOW;
    }
    AllMined(l.sent, a.signer, time);
  }

  lemma VisitIsPaid(p: Policy, base: nat, a: Account, l: Ledger, clock: int, nonce: nat, s: Addr, v: Visit)
    requires LedgerOk(p, base, l, clock) && AllPaid(p, a, l.sent) && NeverUnspends(a) && Sees(p, a, l, s, v)
    requires v.checkedAt <= v.readAt <= v.sentAt
    ensures AllPaid(p, a, AfterVisit(p, l, nonce, s, v).sent)
  {
    var sent' := AfterVisit(p, l, nonce, s, v).sent;
    if Refills(p, l.rows, s, v) && s == a.signer {
      NoRecentMeansMined(p, base, a, l, clock, v.checkedAt, v.readAt);
    }
    forall i | 0 <= i < |sent'| ensures EntryPaid(p, a, sent', i) {
      assert sent'[..i] == l.sent[..i];
      assert i < |l.sent| ==> EntryPaid(p, a, l.sent, i);
      assert a.spent(v.readAt) <= a.spent(v.sentAt);
      assert l.sent[..|l.sent|] == l.sent;
    }
  }

  lemma {:induction false} PassIsPaid(p: Policy, base: nat, a: Account, l: Ledger, clock: int, signers: seq<Addr>,
                                      visits: seq<Visit>)
    requires LedgerOk(p, base, l, clock) && AllPaid(p, a, l.sent) && NeverUnspends(a)
    requires |visits| <= |signers| && Timely(visits, clock) && PassSees(p, base, a, l, signers, visits)
    ensures AllPaid(p, a, Run(p, base, l, signers, visits).sent)
    decreases |visits|
  {
    if visits != [] {
      var n := |visits| - 1;
      TimelyPrefix(visits, clock, n);
      forall k | 0 <= k < n ensures VisitSees(p, base, a, l, signers, visits[..n], k) {
        assert VisitSees(p, base, a, l, signers, visits, k) && visits[..n][..k] == visits[..k];
      }
      PassIsPaid(p, base, a, l, clock, signers, visits[..n]);
      PassKeepsLedger(p, base, l, clock, signers, visits[..n]);
      LastVisit(p, base, l, signers, visits, n);
      assert VisitSees(p, base, a, l, signers, visits, n);
      var before := Run(p, base, l, signers, visits[..n]);
      VisitIsPaid(p, base, a, before, if n == 0 then clock else visits[n - 1].savedAt,
                  (base + |before.sent|) % U64, signers[n], visits[n]);
    }
  }

  lemma {:induction false} RunIsPaid(p: Policy, base: nat, a: Account, l: Ledger, clock: int, passes: seq<Pass>)
    requires LedgerOk(p, base, l, clock) && AllPaid(p, a, l.sent) && NeverUnspends(a)
    requires IsRun(p, base, l, clock, passes) && RunSees(p, base, a, l, clock, passes)
    ensures AllPaid(p, a, After(p, base, l, clock, passes).sent)
    decreases |passes|
  {
    if passes != [] {
      var Pass(signers, visits) := passes[0];
      PassIsPaid(p, base, a, l, clock, signers, visits);
      PassKeepsLedger(p, base, l, clock, signers, visits);
      RunIsPaid(p, base, a, Run(p, base, l, signers, visits), visits[|visits| - 1].savedAt, passes[1..]);
    }
  }

  // ---- At every time

  /** With m > 0 top-ups sent, or mined, by some time, m - 1 refills did not lift the signer above the minimum. */
  lemma {:induction false} PaidByThen(p: Policy, a: Account, sent: seq<Topup>, time: int)
    requires AllPaid(p, a, sent) && NeverUnspends(a)
    ensures var m := SentBy(sent, a.signer, time);
            m > 0 ==> a.first + Blocks(p.refill, m - 1) - a.spent(time) < p.signerMin
    ensures var m := MinedBy(sent, a.signer, time);
            m > 0 ==> a.first + Blocks(p.refill, m - 1) - a.spent(time) < p.signerMin
  {
    if sent != [] {
      var n := |sent| - 1;
      var rest := sent[..n];
      forall i | 0 <= i < n ensures EntryPaid(p, a, rest, i) {
        assert EntryPaid(p, a, sent, i) && rest[..i] == sent[..i];
      }
      PaidByThen(p, a, rest, time);
      CountsAreOrdered(rest, a.signer, time);
      assert EntryPaid(p, a, sent, n);
      if sent[n].signer == a.signer && sent[n].sentAt <= time {
        assert a.spent(sent[n].sentAt) <= a.spent(time);
        BlocksMonotone(p.refill, SentBy(rest, a.signer, time), SentTo(rest, a.signer));
        BlocksMonotone(p.refill, MinedBy(rest, a.signer, time), SentTo(rest, a.signer));
      }
    }
  }

  /** No thrashing, over any run with top-ups recorded and mined inside the window and no other deposits. At every
      time: m > 0 top-ups of a signer so far mean that it has spent more than its first balance plus m - 1 refills
      less the minimum, and its balance is at most its first one or below the minimum plus one refill. */
  lemma TopupsArePaidFor(p: Policy, base: nat, a: Account, clock: int, passes: seq<Pass>, time: int)
    requires IsRun(p, base, Ledger([], []), clock, passes) && RunSees(p, base, a, Ledger([], []), clock, passes)
    requires NeverUnspends(a)
    ensures var sent := After(p, base, Ledger([], []), clock, passes).sent;
            var m := SentBy(sent, a.signer, time);
            && (m > 0 ==> a.spent(time) > a.first + (m - 1) * p.refill - p.signerMin)
            && (BalanceAt(p, a, sent, time) <= a.first || BalanceAt(p, a, sent, time) < p.signerMin + p.refill)
  {
    var sent := After(p, base, Ledger([], []), clock, passes).sent;
    RunIsPaid(p, base, a, Ledger([], []), clock, passes);
    PaidByThen(p, a, sent, time);
    if SentBy(sent, a.signer, time) > 0 {
      BlocksIsProduct(p.refill, SentBy(sent, a.signer, time) - 1);
    }
  }

  // ---- Signers that spend nothing

  ghost predicate IsIdle(a: Account) {
    a.first >= 0 && forall t :: a.spent(t) == 0
  }

  /** In every run, a signer that spends nothing is topped up at most once. */
  ghost predicate IdleSignersSettle(p: Policy) {
    forall base, a, clock, passes ::
      IsRun(p, base, Ledger([], []), clock, passes) && RunSees(p, base, a, Ledger([], []), clock, passes) && IsIdle(a)
      ==> SentTo(After(p, base, Ledger([], []), clock, passes).sent, a.signer) <= 1
  }

  /** The exact condition for that: the refill amount is at least the minimum. */
  lemma IdleSignersSettleIff(p: Policy)
    ensures IdleSignersSettle(p) <==> p.refill >= p.signerMin
  {
    if p.refill >= p.signerMin {
      forall base, a, clock, passes |
        IsRun(p, base, Ledger([], []), clock, passes) && RunSees(p, base, a, Ledger([], []), clock, passes) && IsIdle(a)
        ensures SentTo(After(p, base, Ledger([], []), clock, passes).sent, a.signer) <= 1
      {
        IdleSignerSettles(p, base, a, clock, passes);
      }
    } else {
      var a, passes := RefilledTwice(p);
    }
  }

  lemma IdleSignerSettles(p: Policy, base: nat, a: Account, clock: int, passes: seq<Pass>)
    requires IsRun(p, base, Ledger([], []), clock, passes) && RunSees(p, base, a, Ledger([], []), clock, passes)
    requires IsIdle(a) && p.refill >= p.signerMin
    ensures SentTo(After(p, base, Ledger([], []), clock, passes).sent, a.signer) <= 1
  {
    var l := After(p, base, Ledger([], []), clock, passes);
    var end := RunKeepsLedger(p, base, Ledger([], []), clock, passes);
    forall i | 0 <= i < |l.sent| ensures l.sent[i].sentAt <= end {
      assert EntryOk(p, base, l, end, i);
    }
    AllSent(l.sent, a.signer, end);
    RunIsPaid(p, base, a, Ledger([], []), clock, passes);
    PaidByThen(p, a, l.sent, end);
    OneRefillAtLeast(p.refill, SentTo(l.sent, a.signer));
  }

  lemma OneRefillAtLeast(refill: nat, m: nat)
    ensures m > 1 ==> Blocks(refill, m - 1) >= refill
  {
    if m > 1 {
      BlocksMonotone(refill, 1, m - 1);
      assert Blocks(refill, 1) == refill;
    }
  }

  /** A visit in which everything goes well and takes no time. */
  function GoodVisit(balance: int, now: int): Visit {
    Visit(true, now, Some(balance), now, true, true, now, now, true, now)
  }

  /** Below that, two passes a window apart top up a signer twice that has nothing and spends nothing. */
  lemma RefilledTwice(p: Policy) returns (a: Account, passes: seq<Pass>)
    requires p.refill < p.signerMin
    ensures IsIdle(a) && IsRun(p, 0, Ledger([], []), 0, passes) && RunSees(p, 0, a, Ledger([], []), 0, passes)
    ensures SentTo(After(p, 0, Ledger([], []), 0, passes).sent, a.signer) == 2
  {
    a := Account(1, 0, (t: int) => 0);
    var v1, v2 := GoodVisit(0, 0), GoodVisit(p.refill, RECENT_WINDOW);
    var l1 := FirstPass(p, a, v1);
    var l2 := SecondPass(p, a, l1, v2);
    var last := ConsPass(p, a, l1, 0, v2, l2, []);
    passes := ConsPass(p, a, Ledger([], []), 0, v1, l1, last);
  }

  /** The ledger after one top-up. */
  function OneTopup(p: Policy): Ledger {
    Ledger([Record(1, ToInt64(0), p.refill, 0)], [Topup(1, 0, p.refill, 0, 0)])
  }

  lemma FirstPass(p: Policy, a: Account, v: Visit) returns (l: Ledger)
    requires 0 < p.signerMin && v == GoodVisit(0, 0) && a.signer == 1 && a.first == 0 && IsIdle(a)
    ensures l == Run(p, 0, Ledger([], []), [1], [v]) == OneTopup(p) && PassSees(p, 0, a, Ledger([], []), [1], [v])
  {
    l := OnePass(p, a, Ledger([], []), v);
  }

  lemma SecondPass(p: Policy, a: Account, l: Ledger, v: Visit) returns (l': Ledger)
    requires p.refill < p.signerMin && v == GoodVisit(p.refill, RECENT_WINDOW) && l == OneTopup(p)
    requires a.signer == 1 && a.first == 0 && IsIdle(a)
    ensures l' == Run(p, 0, l, [1], [v]) && PassSees(p, 0, a, l, [1], [v]) && SentTo(l'.sent, 1) == 2
  {
    CountOne(p.refill, l.sent[0]);
    l' := OnePass(p, a, l, v);
    assert l'.sent[..1] == l.sent;
  }

  /** A pass before a run. */
  lemma ConsPass(p: Policy, a: Account, l: Ledger, clock: int, v: Visit, l': Ledger, rest: seq<Pass>)
    returns (passes: seq<Pass>)
    requires l' == Run(p, 0, l, [1], [v]) && Timely([v], clock) && PassSees(p, 0, a, l, [1], [v])
    requires IsRun(p, 0, l', v.savedAt, rest) && RunSees(p, 0, a, l', v.savedAt, rest)
    ensures IsRun(p, 0, l, clock, passes) && RunSees(p, 0, a, l, clock, passes)
    ensures After(p, 0, l, clock, passes) == After(p, 0, l', v.savedAt, rest)
  {
    passes := [Pass([1], [v])] + rest;
    assert passes[1..] == rest && passes[0] == Pass([1], [v]);
  }

  lemma CountOne(refill: nat, t: Topup)
    ensures SentTo([t], t.signer) == 1 && (t.minedAt <= RECENT_WINDOW ==> MinedBy([t], t.signer, RECENT_WINDOW) == 1)
    ensures Blocks(refill, 1) == refill
  {
    assert [t][..0] == [];
  }

  /** A pass over the one signer. */
  lemma OnePass(p: Policy, a: Account, l: Ledger, v: Visit) returns (l': Ledger)
    requires a.signer == 1 && Sees(p, a, l, 1, v)
    ensures l' == Run(p, 0, l, [1], [v]) == AfterVisit(p, l, |l.sent| % U64, 1, v)
    ensures PassSees(p, 0, a, l, [1], [v])
  {
    l' := Run(p, 0, l, [1], [v]);
    assert [v][..0] == [];
    LastVisit(p, 0, l, [1], [v], 0);
    assert VisitSees(p, 0, a, l, [1], [v], 0);
  }
}
