/** Starvation avoidance: a runnable record that the scheduler keeps passing
    over either gains one unit of counter in its band or rises one band in
    every cycle, and so reaches band 1 within a bound fixed by its band, its
    counter and the aging factor. */
module Aging {
  import opened Process
  import opened SchedSpec

  /** What the selection scan has done so far to slot `j`, which is not IDLE
      and is runnable: before its turn it is untouched and not the candidate;
      after its turn it is either the candidate, aged once, or it has lost and
      carries one counter increment and at most one promotion. */
  predicate Tracked(cfg: Config, p: Proc, s: Scan, j: int, scanned: bool)
    requires 0 <= j < |s.table|
  {
    if !scanned then s.table[j] == p && s.next != j
    else
      (s.next == j && s.table[j] == Aged(cfg, p)) ||
      (s.next != j && (s.table[j] == Aged(cfg, Bump(p)) || s.table[j] == Bump(Aged(cfg, p))))
  }

  lemma {:induction false} SelectTracksWaiting(cfg: Config, t: seq<Proc>, idle: int, lo: int, k: int, j: int)
    requires 0 <= idle < |t| && 0 <= lo <= k <= |t|
    requires lo <= j < |t| && j != idle && t[j].state == Ready
    ensures Tracked(cfg, t[j], SelectScan(cfg, t, idle, lo, k), j, j < k)
  {
    if k > lo {
      SelectTracksWaiting(cfg, t, idle, lo, k - 1, j);
      var s := SelectScan(cfg, t, idle, lo, k - 1);
      SelectStepRule(cfg, s, k - 1);
      if k - 1 != j && s.table[k - 1].state == Ready && Displaces(s.table[k - 1], s.table[s.next]) {
        var r := SelectStep(cfg, s, k - 1);
        assert r.table[j] == if s.next == j then Bump(s.table[j]) else s.table[j];
      }
    }
  }

  /** How a waiting record `p` can look after a cycle that passed it over:
      still runnable, and either in the same band with its counter one higher
      (then it had not yet reached its aging threshold), or exactly one band
      higher with a counter of 0 or 1 (then its counter, with the increment
      for losing, had reached the threshold). */
  predicate PassedOver(cfg: Config, p: Proc, r: Proc)
  {
    r.state == Ready &&
    ((r.queue == p.queue && r.counter == p.counter + 1 &&
      (p.queue == 1 || p.counter < AgingThreshold(cfg, p.queue))) ||
     (p.queue != 1 && p.counter + 1 >= AgingThreshold(cfg, p.queue) &&
      r.queue == p.queue - 1 && 0 <= r.counter <= 1))
  }

  /** The effect of one cycle on a runnable record of the range that is
      neither IDLE nor the outgoing process and is not switched to. */
  lemma YieldAgesWaiting(cfg: Config, t: seq<Proc>, curr: int, idle: int, lo: int, hi: int, ticks: nat, j: int)
    requires Layout(|t|, curr, idle, lo, hi)
    requires lo <= j <= hi && j != idle && j != curr && t[j].state == Ready
    ensures var o := Yield(cfg, t, curr, idle, lo, hi, ticks);
      o.next != j ==> PassedOver(cfg, t[j], o.table[j])
  {
    var t1 := ReclassifyTable(cfg, t, curr, idle);
    var a := AlarmScan(t1, lo, hi + 1, ticks);
    var x := a.table[j];
    assert x.state == Ready && x.queue == t[j].queue && x.counter == t[j].counter;
    SelectTracksWaiting(cfg, a.table, idle, lo, hi + 1, j);
    var s := SelectScan(cfg, a.table, idle, lo, hi + 1);
    assert s.next != j ==> Yield(cfg, t, curr, idle, lo, hi, ticks).table[j] == s.table[j];
  }

  /** A bound on the cycles a record in band `queue` with counter `counter`
      can be passed over before it reaches band 1: in each band above 1 it
      needs at most the threshold's worth of counter increments and one more
      cycle to rise. */
  function Wait(cfg: Config, queue: int, counter: int): (w: int)
    decreases queue
    ensures w >= 0 && (w == 0 <==> queue <= 1)
  {
    if queue <= 1 then 0
    else
      var threshold := AgingThreshold(cfg, queue);
      (threshold + 1 - Min(counter, threshold)) + Wait(cfg, queue - 1, 0)
  }

  /** Every cycle that passes a waiting record over brings it at least one step closer
      to band 1 as measured by `Wait`, and keeps it within the bands. */
  lemma WaitShrinks(cfg: Config, p: Proc, r: Proc)
    requires ValidConfig(cfg) && InBand(cfg, p) && PassedOver(cfg, p, r)
    ensures InBand(cfg, r)
    ensures Wait(cfg, r.queue, r.counter) <= Max(0, Wait(cfg, p.queue, p.counter) - 1)
  {
    if r.queue == p.queue - 1 && r.queue > 1 {
      assert Wait(cfg, r.queue, r.counter) <= Wait(cfg, r.queue, 0);
    }
  }

  /** The scheduler between two cycles: the process table and the current
      process. */
  datatype Snapshot = Snapshot(table: seq<Proc>, curr: int)

  /** One scheduling cycle seen from outside: the table and the current
      process before and after it. */
  function Cycle(cfg: Config, idle: int, lo: int, hi: int, s: Snapshot, ticks: nat): (r: Snapshot)
    requires Layout(|s.table|, s.curr, idle, lo, hi)
    ensures |r.table| == |s.table| && Layout(|r.table|, r.curr, idle, lo, hi)
  {
    var o := Yield(cfg, s.table, s.curr, idle, lo, hi, ticks);
    Snapshot(o.table, o.next)
  }

  /** `states` is a run of consecutive cycles, one per clock reading in
      `ticks`: each state is the cycle applied to the one before it. */
  predicate IsRun(cfg: Config, idle: int, lo: int, hi: int, ticks: seq<nat>, states: seq<Snapshot>)
  {
    |states| == |ticks| + 1 &&
    (forall n :: 0 <= n < |states| ==> Layout(|states[n].table|, states[n].curr, idle, lo, hi)) &&
    (forall n :: 0 <= n < |ticks| ==> Cycle(cfg, idle, lo, hi, states[n], ticks[n]) == states[n + 1])
  }

  /** Aging bounds starvation: a runnable record of the range, other than
      IDLE and the running process, that no cycle of a run switches to has
      its `Wait` shortened by at least one per cycle, so after `Wait` cycles it is in
      band 1. */
  lemma {:induction false} WaitingReachesTopBand(cfg: Config, idle: int, lo: int, hi: int,
                                                 ticks: seq<nat>, states: seq<Snapshot>, j: int)
    requires ValidConfig(cfg) && IsRun(cfg, idle, lo, hi, ticks, states)
    requires lo <= j <= hi && j != idle
    requires states[0].table[j].state == Ready && InBand(cfg, states[0].table[j])
    requires forall n :: 0 <= n < |states| ==> states[n].curr != j
    decreases |ticks|
    ensures var p := states[0].table[j];
      var r := states[|ticks|].table[j];
      r.state == Ready && InBand(cfg, r) &&
      Wait(cfg, r.queue, r.counter) <= Max(0, Wait(cfg, p.queue, p.counter) - |ticks|) &&
      (|ticks| >= Wait(cfg, p.queue, p.counter) ==> r.queue == 1)
  {
    if ticks != [] {
      var s := states[0];
      var s1 := states[1];
      assert Cycle(cfg, idle, lo, hi, s, ticks[0]) == s1;
      YieldAgesWaiting(cfg, s.table, s.curr, idle, lo, hi, ticks[0], j);
      WaitShrinks(cfg, s.table[j], s1.table[j]);
      assert IsRun(cfg, idle, lo, hi, ticks[1..], states[1..]) by {
        forall n | 0 <= n < |ticks| - 1
          ensures Cycle(cfg, idle, lo, hi, states[1..][n], ticks[1..][n]) == states[1..][n + 1]
        {
          assert Cycle(cfg, idle, lo, hi, states[n + 1], ticks[n + 1]) == states[n + 2];
        }
      }
      WaitingReachesTopBand(cfg, idle, lo, hi, ticks[1..], states[1..], j);
    }
  }
}
