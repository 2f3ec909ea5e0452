/** What the gas worker can send, over one pass and over any number of passes. */
module GasBounds {
  import opened Common
  import opened Gas

  // ---- One pass

  /** Signer `i` of the pass got the k-th refill of the pass. */
  ghost predicate IsRefillOf(p: Policy, l: Ledger, l': Ledger, signers: seq<Addr>, visits: seq<Visit>, k: nat, i: nat) {
    && i < |visits| <= |signers| && |l.sent| + k < |l'.sent|
    && l'.sent[|l.sent| + k].signer == signers[i]
    && l'.sent[|l.sent| + k].amount == p.refill
    && visits[i].checkOk && visits[i].balance.Some? && visits[i].balance.value < p.signerMin
    && !HasRecent(l.rows, signers[i], visits[i].checkedAt)
  }

  lemma {:induction false} RowsGrow(p: Policy, l: Ledger, nonce: nat, signers: seq<Addr>, visits: seq<Visit>)
    requires |visits| <= |signers|
    ensures l.rows <= AfterVisits(p, l, nonce, signers, visits).rows
    decreases |visits|
  {
    if visits != [] {
      RowsGrow(p, l, nonce, signers, visits[..|visits| - 1]);
    }
  }

  /** For any pattern of skipped, failed and successful signers, the k-th accepted refill of a pass uses
      the start nonce plus k, goes to a signer below the threshold without a recent top-up, and no signer
      gets two. */
  lemma {:induction false} PassIsGapFree(p: Policy, l: Ledger, nonce: nat, signers: seq<Addr>, visits: seq<Visit>,
                                         k: nat)
    returns (i: nat)
    requires |visits| <= |signers| && Distinct(signers)
    requires var l' := AfterVisits(p, l, nonce, signers, visits); |l.sent| + k < |l'.sent|
    ensures var l' := AfterVisits(p, l, nonce, signers, visits);
            && l'.sent[|l.sent| + k].nonce == (nonce + k) % U64
            && IsRefillOf(p, l, l', signers, visits, k, i)
            && forall j :: |l.sent| <= j < |l.sent| + k ==> l'.sent[j].signer != signers[i]
    decreases |visits|
  {
    var n := |visits| - 1;
    var before := AfterVisits(p, l, nonce, signers, visits[..n]);
    RowsGrow(p, l, nonce, signers, visits[..n]);
    if |l.sent| + k < |before.sent| {
      i := PassIsGapFree(p, l, nonce, signers, visits[..n], k);
    } else {
      i := n;
      NotRecentBefore(l.rows, before.rows, signers[n], visits[n].checkedAt);
      forall j | |l.sent| <= j < |l.sent| + k ensures before.sent[j].signer != signers[n] {
        var m := PassIsGapFree(p, l, nonce, signers, visits[..n], j - |l.sent|);
      }
    }
  }

  lemma NotRecentBefore(rows: seq<Record>, rows': seq<Record>, s: Addr, now: int)
    requires rows <= rows' && !HasRecent(rows', s, now)
    ensures !HasRecent(rows, s, now)
  {
    forall i | 0 <= i < |rows| ensures !(rows[i].signer == s && rows[i].at > now - RECENT_WINDOW) {
      assert rows'[i] == rows[i];
    }
  }

  /** The signer could be reached, is below the minimum, and no row of its own is younger than the window. */
  ghost predicate IsNeedy(p: Policy, rows: seq<Record>, s: Addr, v: Visit) {
    && v.checkOk && v.balance.Some? && v.balance.value < p.signerMin && v.signOk && v.sendOk
    && forall i :: 0 <= i < |rows| && rows[i].signer == s ==> rows[i].at <= v.checkedAt - 60_000
  }

  /** How many of the top-ups from the `from`-th on go to a signer. */
  ghost function TopupsOf(sent: seq<Topup>, from: nat, s: Addr): nat {
    if |sent| <= from then 0
    else TopupsOf(sent[..|sent| - 1], from, s) + (if sent[|sent| - 1].signer == s then 1 else 0)
  }

  /** A pass over other signers leaves a signer's rows and top-ups alone. */
  lemma {:induction false} OthersOnly(p: Policy, l: Ledger, nonce: nat, signers: seq<Addr>, visits: seq<Visit>, s: Addr)
    requires |visits| <= |signers| && forall i :: 0 <= i < |visits| ==> signers[i] != s
    ensures var l' := AfterVisits(p, l, nonce, signers, visits);
            && TopupsOf(l'.sent, |l.sent|, s) == 0
            && l.rows <= l'.rows && forall i :: |l.rows| <= i < |l'.rows| ==> l'.rows[i].signer != s
    decreases |visits|
  {
    if visits != [] {
      var n := |visits| - 1;
      OthersOnly(p, l, nonce, signers, visits[..n], s);
      var before := AfterVisits(p, l, nonce, signers, visits[..n]);
      var after := AfterVisits(p, l, nonce, signers, visits);
      assert after.sent != before.sent ==> after.sent[..|after.sent| - 1] == before.sent;
    }
  }

  /** The visit of a needy signer, and of no other, is a top-up of the policy's amount. */
  lemma VisitTopsUpIff(p: Policy, l: Ledger, nonce: nat, s: Addr, v: Visit)
    ensures var l' := AfterVisit(p, l, nonce, s, v);
            if IsNeedy(p, l.rows, s, v) then
              |l'.sent| == |l.sent| + 1 && l'.sent[..|l.sent|] == l.sent
              && l'.sent[|l.sent|].signer == s && l'.sent[|l.sent|].amount == p.refill
            else l' == l
  {
    if HasRecent(l.rows, s, v.checkedAt) {
      var i :| 0 <= i < |l.rows| && l.rows[i].signer == s && l.rows[i].at > v.checkedAt - RECENT_WINDOW;
      assert !IsNeedy(p, l.rows, s, v);
    }
  }

  /** In one pass the n-th signer gets exactly one top-up if it is needy when visited, judged by its own rows from
      before the pass, and none otherwise: what happens to other signers does not matter. */
  lemma {:induction false} PassTopsUpTheNeedy(p: Policy, l: Ledger, nonce: nat, signers: seq<Addr>,
                                              visits: seq<Visit>, n: nat)
    requires n < |visits| <= |signers| && Distinct(signers)
    ensures TopupsOf(AfterVisits(p, l, nonce, signers, visits).sent, |l.sent|, signers[n])
            == if IsNeedy(p, l.rows, signers[n], visits[n]) then 1 else 0
    decreases |visits|
  {
    var m, s := |visits| - 1, signers[n];
    var before := AfterVisits(p, l, nonce, signers, visits[..m]);
    OneMoreVisit(p, before, |l.sent|, (nonce + (|before.sent| - |l.sent|)) % U64, signers[m], visits[m], s);
    if n < m {
      PassTopsUpTheNeedy(p, l, nonce, signers, visits[..m], n);
    } else {
      NotYetVisited(p, l, nonce, signers, visits, n);
    }
  }

  /** Up to its own visit a signer gets nothing and its need does not change. */
  lemma NotYetVisited(p: Policy, l: Ledger, nonce: nat, signers: seq<Addr>, visits: seq<Visit>, n: nat)
    requires n < |visits| <= |signers| && Distinct(signers)
    ensures var before := AfterVisits(p, l, nonce, signers, visits[..n]);
            && TopupsOf(before.sent, |l.sent|, signers[n]) == 0
            && (IsNeedy(p, l.rows, signers[n], visits[n]) <==> IsNeedy(p, before.rows, signers[n], visits[n]))
  {
    OthersOnly(p, l, nonce, signers, visits[..n], signers[n]);
    SameNeed(p, l.rows, AfterVisits(p, l, nonce, signers, visits[..n]).rows, signers[n], visits[n]);
  }

  lemma OneMoreVisit(p: Policy, l: Ledger, from: nat, nonce: nat, visited: Addr, v: Visit, s: Addr)
    requires from <= |l.sent|
    ensures TopupsOf(AfterVisit(p, l, nonce, visited, v).sent, from, s)
            == TopupsOf(l.sent, from, s) + if visited == s && IsNeedy(p, l.rows, visited, v) then 1 else 0
  {
    VisitTopsUpIff(p, l, nonce, visited, v);
  }

  lemma SameNeed(p: Policy, rows: seq<Record>, rows': seq<Record>, s: Addr, v: Visit)
    requires rows <= rows' && forall i :: |rows| <= i < |rows'| ==> rows'[i].signer != s
    ensures IsNeedy(p, rows, s, v) <==> IsNeedy(p, rows', s, v)
  {
    assert forall i :: 0 <= i < |rows| ==> rows'[i] == rows[i];
  }

  // ---- Any number of passes

  /** One pass that reached its loop, and the visits it made before the process ended, if it did. The start
      nonce is the treasury's pending nonce. */
  datatype Pass = Pass(signers: seq<Addr>, visits: seq<Visit>)

  /** Every visit happens after `clock`, in order, and every accepted refill is recorded. */
  ghost predicate Timely(visits: seq<Visit>, clock: int) {
    && (forall i :: 0 <= i < |visits| ==> visits[i].saveOk && clock <= visits[i].checkedAt
                                           && visits[i].checkedAt <= visits[i].readAt <= visits[i].sentAt
                                           && visits[i].sentAt <= visits[i].savedAt)
    && (forall i, j :: 0 <= i < j < |visits| ==> visits[i].savedAt <= visits[j].checkedAt)
  }

  /** Top-up `i` is recorded, no earlier than it was sent, with the next treasury nonce. */
  ghost predicate EntryOk(p: Policy, base: nat, l: Ledger, clock: int, i: nat)
    requires |l.rows| == |l.sent| && i < |l.sent|
  {
    && l.rows[i].signer == l.sent[i].signer && l.sent[i].sentAt <= l.rows[i].at <= clock
    && l.sent[i].amount == p.refill && l.sent[i].nonce == (base + i) % U64
  }

  /** Top-ups are in order; those of one signer are a whole window apart. */
  ghost predicate Apart(sent: seq<Topup>, i: nat, j: nat)
    requires i < j < |sent|
  {
    && sent[i].sentAt <= sent[j].sentAt
    && (sent[i].signer == sent[j].signer ==> sent[i].sentAt + RECENT_WINDOW <= sent[j].sentAt)
  }

  ghost predicate Spaced(sent: seq<Topup>) {
    forall i, j {:trigger Apart(sent, i, j)} :: 0 <= i < j < |sent| ==> Apart(sent, i, j)
  }

  ghost predicate LedgerOk(p: Policy, base: nat, l: Ledger, clock: int) {
    && |l.rows| == |l.sent| && Spaced(l.sent)
    && forall i {:trigger EntryOk(p, base, l, clock, i)} :: 0 <= i < |l.sent| ==> EntryOk(p, base, l, clock, i)
  }

  lemma VisitKeepsLedger(p: Policy, base: nat, l: Ledger, clock: int, s: Addr, v: Visit)
    requires LedgerOk(p, base, l, clock)
    requires v.saveOk && clock <= v.checkedAt <= v.sentAt <= v.savedAt
    ensures LedgerOk(p, base, AfterVisit(p, l, (base + |l.sent|) % U64, s, v), v.savedAt)
  {
    var l' := AfterVisit(p, l, (base + |l.sent|) % U64, s, v);
    var n := |l.sent|;
    forall i | 0 <= i < |l'.sent| ensures EntryOk(p, base, l', v.savedAt, i) {
      assert i < n ==> EntryOk(p, base, l, clock, i);
    }
    forall i, j | 0 <= i < j < |l'.sent| ensures Apart(l'.sent, i, j) {
      assert EntryOk(p, base, l, clock, i);
      if j < n {
        assert Apart(l.sent, i, j);
      } else {
        assert l.rows[i].signer == s ==> l.rows[i].at <= v.checkedAt - RECENT_WINDOW;
      }
    }
  }

  /** A pass, with its nonces counted from the treasury's first one. */
  ghost function Run(p: Policy, base: nat, l: Ledger, signers: seq<Addr>, visits: seq<Visit>): Ledger
    requires |visits| <= |signers|
  {
    AfterVisits(p, l, (base + |l.sent|) % U64, signers, visits)
  }

  lemma LastVisit(p: Policy, base: nat, l: Ledger, signers: seq<Addr>, visits: seq<Visit>, n: nat)
    requires |visits| == n + 1 <= |signers|
    ensures var before := Run(p, base, l, signers, visits[..n]);
            Run(p, base, l, signers, visits)
            == AfterVisit(p, before, (base + |before.sent|) % U64, signers[n], visits[n])
  {
    WrapShift(base, |l.sent|, |Run(p, base, l, signers, visits[..n]).sent|);
  }

  lemma TimelyPrefix(visits: seq<Visit>, clock: int, n: nat)
    requires Timely(visits, clock) && n < |visits|
    ensures Timely(visits[..n], clock)
    ensures (if n == 0 then clock else visits[n - 1].savedAt) <= visits[n].checkedAt
  {
  }

  lemma {:induction false} PassKeepsLedger(p: Policy, base: nat, l: Ledger, clock: int, signers: seq<Addr>,
                                           visits: seq<Visit>)
    requires LedgerOk(p, base, l, clock) && |visits| <= |signers| && Timely(visits, clock)
    ensures LedgerOk(p, base, Run(p, base, l, signers, visits),
                     if visits == [] then clock else visits[|visits| - 1].savedAt)
    decreases |visits|
  {
    if visits != [] {
      var n := |visits| - 1;
      TimelyPrefix(visits, clock, n);
      PassKeepsLedger(p, base, l, clock, signers, visits[..n]);
      LastVisit(p, base, l, signers, visits, n);
      VisitKeepsLedger(p, base, Run(p, base, l, signers, visits[..n]),
                       if n == 0 then clock else visits[n - 1].savedAt, signers[n], visits[n]);
    }
  }

  ghost predicate IsRun(p: Policy, base: nat, l: Ledger, clock: int, passes: seq<Pass>)
    decreases |passes|
  {
    passes == [] ||
    var Pass(signers, visits) := passes[0];
    && 0 < |visits| <= |signers| && Timely(visits, clock)
    && IsRun(p, base, Run(p, base, l, signers, visits), visits[|visits| - 1].savedAt, passes[1..])
  }

  ghost function After(p: Policy, base: nat, l: Ledger, clock: int, passes: seq<Pass>): Ledger
    requires IsRun(p, base, l, clock, passes)
    decreases |passes|
  {
    if passes == [] then l
    else
      var Pass(signers, visits) := passes[0];
      After(p, base, Run(p, base, l, signers, visits), visits[|visits| - 1].savedAt, passes[1..])
  }

  lemma {:induction false} RunKeepsLedger(p: Policy, base: nat, l: Ledger, clock: int, passes: seq<Pass>)
    returns (clock': int)
    requires LedgerOk(p, base, l, clock) && IsRun(p, base, l, clock, passes)
    ensures LedgerOk(p, base, After(p, base, l, clock, passes), clock')
    decreases |passes|
  {
    clock' := clock;
    if passes != [] {
      var Pass(signers, visits) := passes[0];
      PassKeepsLedger(p, base, l, clock, signers, visits);
      clock' := RunKeepsLedger(p, base, Run(p, base, l, signers, visits), visits[|visits| - 1].savedAt, passes[1..]);
    }
  }

  /** Over any run, two top-ups of one signer are at least 60 seconds apart, and the treasury's nonces
      are consecutive across passes. */
  lemma TopupsAreSpaced(p: Policy, base: nat, clock: int, passes: seq<Pass>, i: nat, j: nat)
    requires IsRun(p, base, Ledger([], []), clock, passes)
    requires i < j < |After(p, base, Ledger([], []), clock, passes).sent|
    ensures var sent := After(p, base, Ledger([], []), clock, passes).sent;
            && (sent[i].signer == sent[j].signer ==> sent[j].sentAt - sent[i].sentAt >= 60_000)
            && sent[j].nonce == (base + j) % U64
  {
    var clock' := RunKeepsLedger(p, base, Ledger([], []), clock, passes);
    var l := After(p, base, Ledger([], []), clock, passes);
    assert EntryOk(p, base, l, clock', j) && Apart(l.sent, i, j);
  }

  /** The spacing rests on the record alone: within the window a signer seen below the minimum again is
      refilled again exactly when the row of its previous top-up could not be inserted. */
  lemma DedupeNeedsTheRecord(p: Policy, l: Ledger, nonce: nat, s: Addr, v1: Visit, v2: Visit)
    requires Gas.Refills(p, l.rows, s, v1)
    requires v1.savedAt <= v2.checkedAt < v1.savedAt + RECENT_WINDOW && !HasRecent(l.rows, s, v2.checkedAt)
    requires v2.checkOk && v2.balance.Some? && v2.balance.value < p.signerMin && v2.signOk && v2.sendOk
    ensures Gas.Refills(p, AfterVisit(p, l, nonce, s, v1).rows, s, v2) <==> !v1.saveOk
  {
    if v1.saveOk {
      var rows := AfterVisit(p, l, nonce, s, v1).rows;
      assert rows[|l.rows|].signer == s && rows[|l.rows|].at == v1.savedAt;
    }
  }

  // ---- The rate bound

  predicate InWindow(t: Topup, from: int, len: nat) {
    from <= t.sentAt <= from + len
  }

  /** Top-ups of one signer within a window. */
  ghost function CountOf(sent: seq<Topup>, s: Addr, from: int, len: nat): nat {
    if sent == [] then 0
    else
      var n := |sent| - 1;
      CountOf(sent[..n], s, from, len) + (if sent[n].signer == s && InWindow(sent[n], from, len) then 1 else 0)
  }

  /** Everything the treasury sent within a window, in wei. */
  ghost function AmountIn(sent: seq<Topup>, from: int, len: nat): nat {
    if sent == [] then 0
    else
      var n := |sent| - 1;
      AmountIn(sent[..n], from, len) + (if InWindow(sent[n], from, len) then sent[n].amount else 0)
  }

  /** The last of c top-ups of a signer in a window comes at least c - 1 dedupe windows after its start. */
  lemma {:induction false} LastOfMany(sent: seq<Topup>, s: Addr, from: int, len: nat) returns (i: nat)
    requires Spaced(sent) && CountOf(sent, s, from, len) > 0
    ensures i < |sent| && sent[i].signer == s && InWindow(sent[i], from, len)
    ensures from + Blocks(RECENT_WINDOW, CountOf(sent, s, from, len) - 1) <= sent[i].sentAt
    decreases |sent|
  {
    var n := |sent| - 1;
    var rest := sent[..n];
    forall g, h | 0 <= g < h < n ensures Apart(rest, g, h) {
      assert Apart(sent, g, h);
    }
    if sent[n].signer == s && InWindow(sent[n], from, len) {
      i := n;
      if CountOf(rest, s, from, len) > 0 {
        var h := LastOfMany(rest, s, from, len);
        assert rest[h] == sent[h] && Apart(sent, h, n);
      }
    } else {
      i := LastOfMany(rest, s, from, len);
      assert rest[i] == sent[i];
    }
  }

  lemma CountBound(sent: seq<Topup>, s: Addr, from: int, len: nat)
    requires Spaced(sent)
    ensures CountOf(sent, s, from, len) <= len / RECENT_WINDOW + 1
  {
    var c := CountOf(sent, s, from, len);
    if c > 0 {
      var i := LastOfMany(sent, s, from, len);
      BlocksIsProduct(RECENT_WINDOW, c - 1);
    }
  }

  /** The sum of the signers' counts. */
  ghost function CountAll(sent: seq<Topup>, signers: seq<Addr>, from: int, len: nat): nat {
    if signers == [] then 0
    else CountAll(sent, signers[..|signers| - 1], from, len) + CountOf(sent, signers[|signers| - 1], from, len)
  }

  lemma {:induction false} CountAllBound(sent: seq<Topup>, signers: seq<Addr>, from: int, len: nat)
    requires Spaced(sent)
    ensures CountAll(sent, signers, from, len) <= Blocks(len / RECENT_WINDOW + 1, |signers|)
    decreases |signers|
  {
    if signers != [] {
      CountAllBound(sent, signers[..|signers| - 1], from, len);
      CountBound(sent, signers[|signers| - 1], from, len);
    }
  }

  /** One more top-up adds one to the sum if its signer is listed, and to no other signer's count. */
  lemma {:induction false} CountAllStep(sent: seq<Topup>, t: Topup, signers: seq<Addr>, from: int, len: nat)
    requires Distinct(signers)
    ensures CountAll(sent + [t], signers, from, len)
            == CountAll(sent, signers, from, len) + (if t.signer in signers && InWindow(t, from, len) then 1 else 0)
    decreases |signers|
  {
    if signers != [] {
      var n := |signers| - 1;
      var last := signers[n];
      CountAllStep(sent, t, signers[..n], from, len);
      assert (sent + [t])[..|sent|] == sent;
      assert last !in signers[..n];
      assert signers == signers[..n] + [last];
    }
  }

  /** With one refill amount, the amount sent is the number of top-ups times that amount. */
  lemma {:induction false} AmountIsCount(sent: seq<Topup>, signers: seq<Addr>, refill: nat, from: int, len: nat)
    requires Distinct(signers)
    requires forall i :: 0 <= i < |sent| ==> sent[i].signer in signers && sent[i].amount == refill
    ensures AmountIn(sent, from, len) == Blocks(refill, CountAll(sent, signers, from, len))
    decreases |sent|
  {
    if sent == [] {
      NothingSent(signers, from, len);
    } else {
      var n := |sent| - 1;
      var rest := sent[..n];
      AmountIsCount(rest, signers, refill, from, len);
      CountAllStep(rest, sent[n], signers, from, len);
      assert rest + [sent[n]] == sent;
    }
  }

  lemma {:induction false} NothingSent(signers: seq<Addr>, from: int, len: nat)
    ensures CountAll([], signers, from, len) == 0
    decreases |signers|
  {
    if signers != [] {
      NothingSent(signers[..|signers| - 1], from, len);
    }
  }

  /** Every signer a run visits is one of `signers`. */
  ghost predicate Visits(passes: seq<Pass>, signers: seq<Addr>) {
    forall i, j :: 0 <= i < |passes| && 0 <= j < |passes[i].signers| ==> passes[i].signers[j] in signers
  }

  ghost predicate GoesTo(sent: seq<Topup>, signers: seq<Addr>) {
    forall i :: 0 <= i < |sent| ==> sent[i].signer in signers
  }

  /** Only visited signers are topped up. */
  lemma {:induction false} RecipientsInPass(p: Policy, l: Ledger, nonce: nat, listed: seq<Addr>, visits: seq<Visit>,
                                            signers: seq<Addr>)
    requires |visits| <= |listed| && forall j :: 0 <= j < |listed| ==> listed[j] in signers
    requires GoesTo(l.sent, signers)
    ensures GoesTo(AfterVisits(p, l, nonce, listed, visits).sent, signers)
    decreases |visits|
  {
    if visits != [] {
      var n := |visits| - 1;
      RecipientsInPass(p, l, nonce, listed, visits[..n], signers);
      assert listed[n] in signers;
    }
  }

  lemma {:induction false} Recipients(p: Policy, base: nat, l: Ledger, clock: int, passes: seq<Pass>,
                                      signers: seq<Addr>)
    requires IsRun(p, base, l, clock, passes) && Visits(passes, signers)
    requires GoesTo(l.sent, signers)
    ensures GoesTo(After(p, base, l, clock, passes).sent, signers)
    decreases |passes|
  {
    if passes != [] {
      var Pass(listed, visits) := passes[0];
      forall j | 0 <= j < |listed| ensures listed[j] in signers {
        assert passes[0].signers[j] in signers;
      }
      assert forall i :: 0 <= i < |passes| - 1 ==> passes[1..][i] == passes[i + 1];
      RecipientsInPass(p, l, (base + |l.sent|) % U64, listed, visits, signers);
      Recipients(p, base, Run(p, base, l, listed, visits), visits[|visits| - 1].savedAt, passes[1..], signers);
    }
  }

  /** Rate bound: over any run and any window of length len, the treasury of an application sends at most
      (len / 60s + 1) refills to each of its signers. */
  lemma RateBound(p: Policy, base: nat, clock: int, passes: seq<Pass>, signers: seq<Addr>, from: int, len: nat)
    requires IsRun(p, base, Ledger([], []), clock, passes) && Distinct(signers) && Visits(passes, signers)
    ensures AmountIn(After(p, base, Ledger([], []), clock, passes).sent, from, len)
            <= p.refill * ((len / 60_000 + 1) * |signers|)
  {
    var sent := After(p, base, Ledger([], []), clock, passes).sent;
    Recipients(p, base, Ledger([], []), clock, passes, signers);
    var clock' := RunKeepsLedger(p, base, Ledger([], []), clock, passes);
    forall i | 0 <= i < |sent| ensures sent[i].amount == p.refill {
      assert EntryOk(p, base, After(p, base, Ledger([], []), clock, passes), clock', i);
    }
    AmountIsCount(sent, signers, p.refill, from, len);
    CountAllBound(sent, signers, from, len);
    var most := Blocks(len / RECENT_WINDOW + 1, |signers|);
    BlocksIsProduct(len / RECENT_WINDOW + 1, |signers|);
    BlocksMonotone(p.refill, CountAll(sent, signers, from, len), most);
    BlocksIsProduct(p.refill, most);
  }
}
