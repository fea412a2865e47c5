/** Three equal processes A, B and C (slots 1 .. 3) in band 3 of a four-band
    configuration, with IDLE in slot 0 below them (band 4, priority 100), are
    dispatched in table order over three cycles; each loser gains one unit of
    counter per cycle it loses. */
module Scenario {
  import opened Process
  import opened SchedSpec

  const Cfg := Config(4, 10, 1, 0)

  function Idle(state: State, counter: int): Proc
  {
    Proc(true, state, 4, counter, 100, 0, 0, 0)
  }

  function User(state: State, queue: int, counter: int): Proc
  {
    Proc(true, state, queue, counter, 0, 0, 0, 0)
  }

  /** The cycle that runs on the table `t` with `curr` outgoing, IDLE in slot 0,
      the range 1 .. 3 and the clock at 0. */
  function Step(t: seq<Proc>, curr: int): (o: Outcome)
    requires |t| == 4 && 0 <= curr < 4
    ensures |o.table| == 4 && 0 <= o.next < 4
  {
    Yield(Cfg, t, curr, 0, 1, 3, 0)
  }

  /** At boot IDLE is running and A, B and C are ready with counter 0. */
  const Boot := [Idle(Running, 0), User(Ready, 3, 0), User(Ready, 3, 0), User(Ready, 3, 0)]

  // The tables of the three cycles: `Pre` after reclassification, `Mid` after
  // the first and second iteration of the selection loop, `Post` after the
  // third, and `After` after dispatch.
  const Pre1 := [Idle(Ready, 0), User(Ready, 3, 0), User(Ready, 3, 0), User(Ready, 3, 0)]
  const Mid1a := [Idle(Ready, 1), User(Ready, 3, 0), User(Ready, 3, 0), User(Ready, 3, 0)]
  const Mid1b := [Idle(Ready, 1), User(Ready, 3, 0), User(Ready, 3, 1), User(Ready, 3, 0)]
  const Post1 := [Idle(Ready, 1), User(Ready, 3, 0), User(Ready, 3, 1), User(Ready, 3, 1)]
  const After1 := [Idle(Ready, 1), User(Running, 3, 3), User(Ready, 3, 1), User(Ready, 3, 1)]

  const Pre2 := [Idle(Ready, 1), User(Ready, 4, 0), User(Ready, 3, 1), User(Ready, 3, 1)]
  const Mid2a := [Idle(Ready, 2), User(Ready, 4, 0), User(Ready, 3, 1), User(Ready, 3, 1)]
  const Mid2b := [Idle(Ready, 2), User(Ready, 4, 1), User(Ready, 3, 1), User(Ready, 3, 1)]
  const Post2 := [Idle(Ready, 2), User(Ready, 4, 1), User(Ready, 3, 1), User(Ready, 3, 2)]
  const After2 := [Idle(Ready, 2), User(Ready, 4, 1), User(Running, 3, 3), User(Ready, 3, 2)]

  const Pre3 := [Idle(Ready, 2), User(Ready, 4, 1), User(Ready, 4, 0), User(Ready, 3, 2)]
  const Mid3a := [Idle(Ready, 3), User(Ready, 4, 1), User(Ready, 4, 0), User(Ready, 3, 2)]
  const Mid3b := [Idle(Ready, 3), User(Ready, 4, 1), User(Ready, 4, 1), User(Ready, 3, 2)]
  const Post3 := [Idle(Ready, 3), User(Ready, 4, 2), User(Ready, 4, 1), User(Ready, 3, 2)]
  const After3 := [Idle(Ready, 3), User(Ready, 4, 2), User(Ready, 4, 1), User(Running, 3, 3)]

  /** No record of the table has an alarm armed, so the alarm scan changes
      nothing and raises nothing. */
  lemma NoAlarms(t: seq<Proc>)
    requires |t| == 4 && forall j :: 0 <= j < 4 ==> t[j].alarm == 0
    ensures AlarmScan(t, 1, 4, 0) == Alarms(t, [])
  {
    AlarmScanEvents(t, 1, 4, 0);
    assert AlarmEvents(t, 1, 4, 0) == [];
  }

  /** One iteration of the selection loop on a READY scanned record whose
      comparison result is known and that is not old enough to age. */
  lemma Iteration(s: Scan, i: int, r: Scan)
    requires 0 <= s.next < |s.table| && 0 <= i < |s.table| && s.table[i].state == Ready
    requires Compare(s.table, s.next, i) == r && Aged(Cfg, r.table[i]) == r.table[i]
    ensures SelectStep(Cfg, s, i) == r
  {
  }

  /** The selection loop of a cycle, given its three iterations. */
  lemma Selection(t: seq<Proc>, s1: Scan, s2: Scan, s3: Scan)
    requires |t| == 4
    requires SelectStep(Cfg, Scan(t, 0), 1) == s1
    requires 0 <= s1.next < |s1.table| == 4 && SelectStep(Cfg, s1, 2) == s2
    requires 0 <= s2.next < |s2.table| == 4 && SelectStep(Cfg, s2, 3) == s3
    ensures SelectScan(Cfg, t, 0, 1, 4) == s3
  {
    assert SelectScan(Cfg, t, 0, 1, 1) == Scan(t, 0);
    assert SelectScan(Cfg, t, 0, 1, 2) == s1;
    assert SelectScan(Cfg, t, 0, 1, 3) == s2;
  }

  // The nine iterations of the three selection loops, one lemma each.

  lemma FromPre1()
    ensures SelectStep(Cfg, Scan(Pre1, 0), 1) == Scan(Mid1a, 1)
  {
    Iteration(Scan(Pre1, 0), 1, Scan(Mid1a, 1));
  }

  lemma FromMid1a()
    ensures SelectStep(Cfg, Scan(Mid1a, 1), 2) == Scan(Mid1b, 1)
  {
    Iteration(Scan(Mid1a, 1), 2, Scan(Mid1b, 1));
  }

  lemma FromMid1b()
    ensures SelectStep(Cfg, Scan(Mid1b, 1), 3) == Scan(Post1, 1)
  {
    Iteration(Scan(Mid1b, 1), 3, Scan(Post1, 1));
  }

  lemma FromPre2()
    ensures SelectStep(Cfg, Scan(Pre2, 0), 1) == Scan(Mid2a, 1)
  {
    Iteration(Scan(Pre2, 0), 1, Scan(Mid2a, 1));
  }

  lemma FromMid2a()
    ensures SelectStep(Cfg, Scan(Mid2a, 1), 2) == Scan(Mid2b, 2)
  {
    Iteration(Scan(Mid2a, 1), 2, Scan(Mid2b, 2));
  }

  lemma FromMid2b()
    ensures SelectStep(Cfg, Scan(Mid2b, 2), 3) == Scan(Post2, 2)
  {
    Iteration(Scan(Mid2b, 2), 3, Scan(Post2, 2));
  }

  lemma FromPre3()
    ensures SelectStep(Cfg, Scan(Pre3, 0), 1) == Scan(Mid3a, 1)
  {
    Iteration(Scan(Pre3, 0), 1, Scan(Mid3a, 1));
  }

  lemma FromMid3a()
    ensures SelectStep(Cfg, Scan(Mid3a, 1), 2) == Scan(Mid3b, 1)
  {
    Iteration(Scan(Mid3a, 1), 2, Scan(Mid3b, 1));
  }

  lemma FromMid3b()
    ensures SelectStep(Cfg, Scan(Mid3b, 1), 3) == Scan(Post3, 3)
  {
    Iteration(Scan(Mid3b, 1), 3, Scan(Post3, 3));
  }

  /** The selection loop of cycle 1. The tables are parameters pinned by
      the preconditions, so that the recursive scan is unfolded one step at a
      time. */
  lemma FirstLoop(t: seq<Proc>)
    requires t == Pre1
    ensures SelectScan(Cfg, t, 0, 1, 4) == Scan(Post1, 1)
  {
    FromPre1();
    FromMid1a();
    FromMid1b();
    Selection(t, Scan(Mid1a, 1), Scan(Mid1b, 1), Scan(Post1, 1));
  }

  /** Cycle 1: A beats IDLE on band; B and C tie with A and lose. */
  lemma FirstCycle(t: seq<Proc>)
    requires t == Boot
    ensures Step(t, 0) == Outcome(After1, 1, [])
  {
    assert Post1[1 := Dispatched(Cfg, Post1[1])] == After1;
    var t1 := ReclassifyTable(Cfg, t, 0, 0);
    assert Reclassified(Cfg, Boot[0], true) == Pre1[0];
    assert t1 == Pre1;
    NoAlarms(t1);
    FirstLoop(t1);
  }

  /** The selection loop of cycle 2. */
  lemma SecondLoop(t: seq<Proc>)
    requires t == Pre2
    ensures SelectScan(Cfg, t, 0, 1, 4) == Scan(Post2, 2)
  {
    FromPre2();
    FromMid2a();
    FromMid2b();
    Selection(t, Scan(Mid2a, 1), Scan(Mid2b, 2), Scan(Post2, 2));
  }

  /** Cycle 2: A, demoted to band 4 on preemption, beats IDLE on weight and then
      loses to B on band; C ties with B and loses. */
  lemma SecondCycle(t: seq<Proc>)
    requires t == After1
    ensures Step(t, 1) == Outcome(After2, 2, [])
  {
    assert Post2[2 := Dispatched(Cfg, Post2[2])] == After2;
    var t1 := ReclassifyTable(Cfg, t, 1, 0);
    assert Reclassified(Cfg, After1[1], false) == Pre2[1];
    assert t1 == Pre2;
    NoAlarms(t1);
    SecondLoop(t1);
  }

  /** The selection loop of cycle 3. */
  lemma ThirdLoop(t: seq<Proc>)
    requires t == Pre3
    ensures SelectScan(Cfg, t, 0, 1, 4) == Scan(Post3, 3)
  {
    FromPre3();
    FromMid3a();
    FromMid3b();
    Selection(t, Scan(Mid3a, 1), Scan(Mid3b, 1), Scan(Post3, 3));
  }

  /** Cycle 3: A beats IDLE on weight, B (demoted) ties with A and loses, and C
      beats A on band. */
  lemma ThirdCycle(t: seq<Proc>)
    requires t == After2
    ensures Step(t, 2) == Outcome(After3, 3, [])
  {
    assert Post3[3 := Dispatched(Cfg, Post3[3])] == After3;
    var t1 := ReclassifyTable(Cfg, t, 2, 0);
    assert Reclassified(Cfg, After2[2], false) == Pre3[2];
    assert t1 == Pre3;
    NoAlarms(t1);
    ThirdLoop(t1);
  }

  /** Three cycles from boot dispatch A, B and C in table order, each with the
      quantum of band 3; a process that is passed over keeps its band and gains
      one unit of counter for each cycle it loses, and none of the cycles
      raises a signal. */
  lemma ThreeProcessRoundRobin()
    ensures var o1 := Step(Boot, 0);
      var o2 := Step(o1.table, o1.next);
      var o3 := Step(o2.table, o2.next);
      o1.next == 1 && o2.next == 2 && o3.next == 3 &&
      o1.table[1].counter == 3 && o2.table[2].counter == 3 && o3.table[3].counter == 3 &&
      o1.table[2].counter == 1 && o1.table[3].counter == 1 &&
      o2.table[3].counter == 2 && o2.table[3].queue == 3 &&
      o1.events == [] && o2.events == [] && o3.events == []
  {
    FirstCycle(Boot);
    SecondCycle(After1);
    ThirdCycle(After2);
  }
}
