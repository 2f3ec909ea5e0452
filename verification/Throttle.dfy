/** The alert throttle of internal/alert/throttle.go. */
module Throttle {
  import opened Common

  type Key = string

  /** An alert arriving at the throttle, with the clock reading taken under its mutex. */
  datatype Alert = Alert(key: Key, at: int)

  /** When each key was last forwarded. */
  type Sent = map<Key, int>

  predicate Forwards(sent: Sent, interval: int, a: Alert) {
    !(a.key in sent && a.at - sent[a.key] < interval)
  }

  function AfterAlert(sent: Sent, interval: int, a: Alert): Sent {
    if Forwards(sent, interval, a) then sent[a.key := a.at] else sent
  }

  class Throttled {
    const interval: int
    var sent: Sent

    constructor (interval: int)
      ensures this.interval == interval && sent == map[]
    {
      this.interval, this.sent := interval, map[];
    }

    /** The key is marked before the inner notifier is called, so a transport error does not unmark it. */
    method Notify(a: Alert, innerOk: bool) returns (forwarded: bool, ok: bool)
      modifies this
      ensures forwarded <==> Forwards(old(sent), interval, a)
      ensures sent == AfterAlert(old(sent), interval, a)
      ensures ok <==> !forwarded || innerOk
    {
      if a.key in sent && a.at - sent[a.key] < interval {
        return false, true;
      }
      sent := sent[a.key := a.at];
      return true, innerOk;
    }
  }

  // ---- Runs

  function SentAfter(interval: int, alerts: seq<Alert>): Sent {
    if alerts == [] then map[]
    else AfterAlert(SentAfter(interval, alerts[..|alerts| - 1]), interval, alerts[|alerts| - 1])
  }

  /** Which alerts of a run are forwarded. */
  predicate ForwardedAt(interval: int, alerts: seq<Alert>, i: nat)
    requires i < |alerts|
  {
    Forwards(SentAfter(interval, alerts[..i]), interval, alerts[i])
  }

  ghost predicate Monotone(alerts: seq<Alert>) {
    forall i, j :: 0 <= i < j < |alerts| ==> alerts[i].at <= alerts[j].at
  }

  /** `sent` holds the last forwarded alert of every key. */
  lemma {:induction false} SentIsLast(interval: int, alerts: seq<Alert>, key: Key)
    returns (last: Option<nat>)
    ensures last.Some? <==> key in SentAfter(interval, alerts)
    ensures last.Some? ==> last.value < |alerts| && alerts[last.value].key == key
                           && ForwardedAt(interval, alerts, last.value)
                           && alerts[last.value].at == SentAfter(interval, alerts)[key]
    ensures forall j :: 0 <= j < |alerts| && alerts[j].key == key && ForwardedAt(interval, alerts, j) ==>
              last.Some? && j <= last.value
    decreases |alerts|
  {
    last := None;
    if alerts != [] {
      var n := |alerts| - 1;
      var rest := alerts[..n];
      last := SentIsLast(interval, rest, key);
      assert forall j :: 0 <= j < n ==> rest[..j] == alerts[..j];
      if alerts[n].key == key && ForwardedAt(interval, alerts, n) {
        last := Some(n);
      }
    }
  }

  /** Forwarded alerts of one key are at least `interval` apart. */
  lemma ForwardedAlertsAreSpaced(interval: int, alerts: seq<Alert>, i: nat, j: nat)
    requires Monotone(alerts) && i < j < |alerts| && alerts[i].key == alerts[j].key
    requires ForwardedAt(interval, alerts, i) && ForwardedAt(interval, alerts, j)
    ensures alerts[j].at - alerts[i].at >= interval
  {
    var before := alerts[..j];
    var last := SentIsLast(interval, before, alerts[j].key);
    assert before[i] == alerts[i] && before[..i] == alerts[..i];
    assert ForwardedAt(interval, before, i);
  }

  /** An alert is suppressed exactly when one with its key was forwarded less than `interval` before. */
  lemma SuppressedIffRecentlyForwarded(interval: int, alerts: seq<Alert>, j: nat)
    requires Monotone(alerts) && j < |alerts|
    ensures !ForwardedAt(interval, alerts, j) <==>
            exists i :: 0 <= i < j && alerts[i].key == alerts[j].key && ForwardedAt(interval, alerts, i)
                        && alerts[j].at - alerts[i].at < interval
  {
    var before := alerts[..j];
    var last := SentIsLast(interval, before, alerts[j].key);
    assert forall i :: 0 <= i < j ==> before[i] == alerts[i] && before[..i] == alerts[..i];
    assert forall i :: 0 <= i < j ==> ForwardedAt(interval, before, i) == ForwardedAt(interval, alerts, i);
  }

  // ---- Keys do not interfere

  /** The alerts of a run with one key. */
  function Project(alerts: seq<Alert>, key: Key): seq<Alert> {
    if alerts == [] then []
    else
      var n := |alerts| - 1;
      Project(alerts[..n], key) + (if alerts[n].key == key then [alerts[n]] else [])
  }

  /** The forwarded alerts of a run, in order. */
  function Output(interval: int, alerts: seq<Alert>): seq<Alert> {
    if alerts == [] then []
    else
      var n := |alerts| - 1;
      Output(interval, alerts[..n]) + (if ForwardedAt(interval, alerts, n) then [alerts[n]] else [])
  }

  lemma ProjectStep(alerts: seq<Alert>, a: Alert, key: Key)
    ensures Project(alerts + [a], key) == Project(alerts, key) + (if a.key == key then [a] else [])
  {
    assert (alerts + [a])[..|alerts|] == alerts;
  }

  lemma SentStep(interval: int, alerts: seq<Alert>, a: Alert)
    ensures SentAfter(interval, alerts + [a]) == AfterAlert(SentAfter(interval, alerts), interval, a)
  {
    assert (alerts + [a])[..|alerts|] == alerts;
  }

  lemma OutputStep(interval: int, alerts: seq<Alert>, a: Alert)
    ensures Output(interval, alerts + [a])
            == Output(interval, alerts) + (if Forwards(SentAfter(interval, alerts), interval, a) then [a] else [])
  {
    assert (alerts + [a])[..|alerts|] == alerts;
  }

  /** Two memories agree on a key. */
  ghost predicate AgreeOn(m: Sent, m': Sent, key: Key) {
    (key in m <==> key in m') && (key in m ==> m[key] == m'[key])
  }

  lemma AgreeAfter(interval: int, m: Sent, m': Sent, a: Alert, key: Key)
    requires AgreeOn(m, m', key)
    ensures AgreeOn(AfterAlert(m, interval, a), if a.key == key then AfterAlert(m', interval, a) else m', key)
  {
  }

  /** What the throttle remembers of a key is what it would remember had it seen that key only. */
  lemma {:induction false} MemoryProjects(interval: int, alerts: seq<Alert>, key: Key)
    ensures AgreeOn(SentAfter(interval, alerts), SentAfter(interval, Project(alerts, key)), key)
    decreases |alerts|
  {
    if alerts != [] {
      var n := |alerts| - 1;
      var rest, a := alerts[..n], alerts[n];
      var own := Project(rest, key);
      MemoryProjects(interval, rest, key);
      AgreeAfter(interval, SentAfter(interval, rest), SentAfter(interval, own), a, key);
      assert alerts == rest + [a];
      SentStep(interval, rest, a);
      ProjectStep(rest, a, key);
      SentStep(interval, own, a);
      assert own + [] == own;
    }
  }

  /** The run projected to a key is the single-key run on the projected input. */
  lemma {:induction false} OutputProjects(interval: int, alerts: seq<Alert>, key: Key)
    ensures Project(Output(interval, alerts), key) == Output(interval, Project(alerts, key))
    decreases |alerts|
  {
    if alerts != [] {
      var n := |alerts| - 1;
      var rest, a := alerts[..n], alerts[n];
      OutputProjects(interval, rest, key);
      MemoryProjects(interval, rest, key);
      ProjectStep(Output(interval, rest), a, key);
      var out, own := Output(interval, rest), Project(rest, key);
      assert out + [] == out && own + [] == own && Project(out, key) + [] == Project(out, key);
      if a.key == key {
        OutputStep(interval, own, a);
        assert ForwardedAt(interval, alerts, n) == Forwards(SentAfter(interval, own), interval, a);
      }
    }
  }
}
