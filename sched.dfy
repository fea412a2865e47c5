/** The scheduler itself: the process table is an array updated in place, and
    the current and last processes are indices into it. Sending a signal
    appends to `log`; switching to a process sets `curr`. */
module Sched {
  import opened Process
  import opened SchedSpec

  class Scheduler {
    const cfg: Config
    /** IDLE, FIRST_PROC and LAST_PROC as slots of the table. */
    const idle: int
    const firstSlot: int
    const lastSlot: int
    const table: array<Proc>
    /** curr_proc and last_proc. */
    var curr: int
    var last: int
    /** The signals sent so far, oldest first. */
    var log: seq<Event>

    ghost predicate Valid()
      reads this
    {
      ValidConfig(cfg) &&
      Layout(table.Length, curr, idle, firstSlot, lastSlot) &&
      0 <= last < table.Length
    }

    /** At boot the IDLE process is the current one. */
    constructor (cfg: Config, procs: seq<Proc>, idle: int, firstSlot: int, lastSlot: int)
      requires ValidConfig(cfg) && Layout(|procs|, idle, idle, firstSlot, lastSlot)
      ensures Valid() && fresh(table)
      ensures this.cfg == cfg && this.idle == idle
      ensures this.firstSlot == firstSlot && this.lastSlot == lastSlot
      ensures table[..] == procs && curr == idle && last == idle && log == []
    {
      this.cfg := cfg;
      this.idle := idle;
      this.firstSlot := firstSlot;
      this.lastSlot := lastSlot;
      table := new Proc[|procs|](i requires 0 <= i < |procs| => procs[i]);
      curr := idle;
      last := idle;
      log := [];
    }

    /** sched: makes the process in slot `i` runnable with a cleared counter. */
    method Sched(i: int)
      requires Valid() && 0 <= i < table.Length
      modifies table
      ensures table[..] == old(table[..])[i := Scheduled(old(table[i]))]
    {
      table[i] := table[i].(state := Ready, counter := 0);
    }

    /** resume: reschedules the process in slot `i` only if it is stopped. */
    method Resume(i: int)
      requires Valid() && 0 <= i < table.Length
      modifies table
      ensures table[..] == old(table[..])[i := Resumed(old(table[i]))]
      ensures old(table[i].state) != Stopped ==> table[..] == old(table[..])
    {
      if table[i].state == Stopped {
        Sched(i);
      }
    }

    /** stop: stops the current process, signals its parent and yields. */
    method Stop(ticks: nat)
      requires Valid()
      modifies this, table
      ensures Valid()
      ensures var o := SchedSpec.Stop(cfg, old(table[..]), old(curr), idle, firstSlot, lastSlot, ticks);
        table[..] == o.table && curr == o.next && last == old(curr) && log == old(log) + o.events
    {
      table[curr] := table[curr].(state := Stopped);
      log := log + [Event(table[curr].father, SigChld)];
      Yield(ticks);
    }

    /** yield: reclassifies the outgoing process, fires expired alarms, picks
        the next process and switches to it. */
    method Yield(ticks: nat)
      requires Valid()
      modifies this, table
      ensures Valid()
      ensures var o := SchedSpec.Yield(cfg, old(table[..]), old(curr), idle, firstSlot, lastSlot, ticks);
        table[..] == o.table && curr == o.next && last == old(curr) && log == old(log) + o.events
    {
      ghost var t0 := table[..];

      // Reclassify the outgoing process.
      if table[curr].state == Running {
        if table[curr].queue < cfg.queueAmount {
          table[curr] := table[curr].(queue := table[curr].queue + 1);
        }
        Sched(curr);
      } else {
        if table[curr].state != Dead && curr != idle {
          if table[curr].queue > 1 {
            table[curr] := table[curr].(queue := table[curr].queue - 1);
          }
        }
      }
      last := curr;
      ghost var t1 := table[..];
      assert t1 == ReclassifyTable(cfg, t0, curr, idle);

      FireAlarms(ticks);
      var next := ChooseNext();

      // Dispatch the chosen process and switch to it.
      table[next] := table[next].(priority := cfg.prioUser, state := Running,
                                  counter := table[next].queue * cfg.procQuantum);
      curr := next;
    }

    /** The alarm loop of yield: disarms every expired alarm of a valid record
        in the scanned range and sends SIGALRM to its process. */
    method FireAlarms(ticks: nat)
      requires Valid()
      modifies table, this`log
      ensures var a := AlarmScan(old(table[..]), firstSlot, lastSlot + 1, ticks);
        table[..] == a.table && log == old(log) + a.events
    {
      ghost var t := table[..];
      var p := firstSlot;
      while p <= lastSlot
        invariant firstSlot <= p <= lastSlot + 1
        invariant table[..] == AlarmScan(t, firstSlot, p, ticks).table
        invariant log == old(log) + AlarmEvents(t, firstSlot, p, ticks)
      {
        assert table[p] == t[p];
        if table[p].valid {
          if table[p].alarm != 0 && table[p].alarm < ticks {
            table[p] := table[p].(alarm := 0);
            log := log + [Event(p, SigAlrm)];
          }
        }
        assert table[..] == AlarmScan(t, firstSlot, p + 1, ticks).table;
        p := p + 1;
      }
      AlarmScanEvents(t, firstSlot, lastSlot + 1, ticks);
    }

    /** The selection loop of yield: starting from IDLE, compares every
        runnable record of the scanned range with the candidate and then ages
        the scanned record. */
    method ChooseNext() returns (next: int)
      requires Valid()
      modifies table
      ensures Scan(table[..], next) == SelectScan(cfg, old(table[..]), idle, firstSlot, lastSlot + 1)
    {
      ghost var t := table[..];
      next := idle;
      var p := firstSlot;
      while p <= lastSlot
        invariant firstSlot <= p <= lastSlot + 1
        invariant Scan(table[..], next) == SelectScan(cfg, t, idle, firstSlot, p)
      {
        ghost var before := Scan(table[..], next);
        if table[p].state == Ready {
          next := CompareWith(next, p);
          Age(p);
        }
        assert Scan(table[..], next) == SelectStep(cfg, before, p);
        p := p + 1;
      }
    }

    /** One comparison of the selection loop: the scanned slot `p` against the
        candidate `next`; the loser's counter goes up by one. */
    method CompareWith(next: int, p: int) returns (winner: int)
      requires Valid() && 0 <= next < table.Length && 0 <= p < table.Length
      modifies table
      ensures Scan(table[..], winner) == Compare(old(table[..]), next, p)
    {
      winner := next;
      if table[p].queue == table[next].queue {
        var weightP := Weight(table[p]);
        var weightNext := Weight(table[next]);
        if weightP < weightNext {
          table[next] := table[next].(counter := table[next].counter + 1);
          winner := p;
        } else {
          table[p] := table[p].(counter := table[p].counter + 1);
        }
      } else if table[p].queue < table[next].queue {
        table[next] := table[next].(counter := table[next].counter + 1);
        winner := p;
      } else {
        table[p] := table[p].(counter := table[p].counter + 1);
      }
    }

    /** Aging of the scanned slot `p`: a record that waited long enough in its
        band is promoted one band and its counter cleared. */
    method Age(p: int)
      requires Valid() && 0 <= p < table.Length
      modifies table
      ensures table[..] == old(table[..])[p := Aged(cfg, old(table[p]))]
    {
      var aging := AgingThreshold(cfg, table[p].queue);
      if table[p].counter >= aging && table[p].queue != 1 {
        table[p] := table[p].(counter := 0, queue := table[p].queue - 1);
      }
    }
  }
}
