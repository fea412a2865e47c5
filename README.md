# Nanvix scheduler, modelled in Dafny

This project models the process scheduler of the Nanvix kernel
(`src/kernel/pm/sched.c`): a multilevel feedback queue over a fixed process
table. Every process record sits in a band (`queue`, 1 is the most urgent);
a process that uses its whole quantum sinks one band, one that gives the
processor up early rises one band, and a process passed over often enough
ages up one band. Within a band the lower weight `priority + nice - counter`
wins.

The four entry points are modelled twice, as functions and as the in-place
scheduler, and two further modules reason about runs of cycles:

- `SchedSpec` (`sched_spec.dfy`) states each step as a function on the table
  (a sequence of records): `Scheduled`, `Resumed`, the four steps of `yield`
  (`ReclassifyTable`, `AlarmScan`, `SelectScan` built from `SelectStep`,
  `Compare` and `Aged`, then `Dispatched`), their composition `Yield`, and
  `Stop`. The lemmas beside them state what the scheduler promises.
- `Sched` (`sched.dfy`) is the scheduler as the kernel runs it: a class over
  an array of records, updated in place, with the current and last process
  as indices. Its methods `Sched`, `Resume`, `Stop` and `Yield` are proved to
  compute exactly the `SchedSpec` functions. `Sched`, `Resume` and `Stop`
  are straight-line updates; `Yield` holds the two loops of the C code, as
  the methods `FireAlarms` and `ChooseNext`, and one iteration of the
  selection loop is `CompareWith` followed by `Age`.
- `Aging` (`aging.dfy`) follows one runnable record through cycles that
  pass it over: each such cycle either raises its counter within its band
  or promotes it one band, so a bound `Wait`, fixed by its band, its
  counter and the aging factor, shrinks by at least one per cycle and the
  record is in band 1 once that many cycles have passed.
- `Scenario` (`scenario.dfy`) proves what three cycles do to a concrete
  table: three equal processes in band 3 are dispatched in table order.
- `Process` (`process.dfy`) holds the record, the states, the configuration
  constants and the signal events.

The collaborators are reduced to data: sending a signal appends
`Event(pid, signal)` to the scheduler's `log`; switching to a process sets
`curr`; the clock `ticks` is a parameter of `Yield` and `Stop`. The
constants `QUEUE_AMOUNT`, `AGING_FACTOR`, `PROC_QUANTUM` and `PRIO_USER` are
the fields of a `Config` (the first three positive), and `IDLE`,
`FIRST_PROC` and `LAST_PROC` are slot indices; IDLE may lie inside or outside
the scanned range.

In these details the model follows the code as written:

- An alarm expires only when `alarm < ticks` (`sched.c:108`): an alarm equal
  to the clock fires only in a cycle whose clock has passed it.
- The aging threshold `((QUEUE_AMOUNT+1) - queue) * AGING_FACTOR`
  (`sched.c:153`) shrinks as the band number grows, so the least urgent band
  ages out after the fewest skips.
- Within a band the comparison keeps the lower weight (`sched.c:132`), where
  the comment above it (`sched.c:121-125`) speaks of the highest weight.
- Aging moves a record up one band (`sched.c:157`), where the comment above
  it (`sched.c:148-151`) speaks of the highest priority queue.
- The selection loop skips only records that are not READY; it does not
  test validity (`sched.c:118`), while the alarm loop does (`sched.c:104`).
- IDLE is compared like any other candidate, so it can be kept while a
  record of the range is READY (`SchedSpec.IdleCanBeatReady`), and the
  winner need not end in the lowest band among READY records
  (`SchedSpec.WinnerNotLowestBand`): selection is specified step by step.
- A running IDLE is demoted like any other running process; only the
  promotion branch excludes IDLE (`sched.c:90`).
- The outgoing process, made READY when it was still running, competes in
  the same cycle (`SchedSpec.YieldChoice`).

## Model

| member | source | states |
|---|---|---|
| `SchedSpec.Scheduled` | src/kernel/pm/sched.c:32-36 | the record becomes READY with counter 0 and no other field changes |
| `SchedSpec.ScheduledIdempotent` | src/kernel/pm/sched.c:32-36 | scheduling twice equals scheduling once; a READY record with counter 0 is left as it is |
| `SchedSpec.Resumed` | src/kernel/pm/sched.c:55-60 | a STOPPED record becomes READY and any other keeps its state; nothing but state and counter changes (the exact rule is `ResumeGuard`) |
| `SchedSpec.ResumeGuard` | src/kernel/pm/sched.c:55-60 | a record that is not STOPPED is left untouched; a STOPPED one gets exactly the effect of `sched` and becomes READY |
| `Sched.Scheduler.Sched` | src/kernel/pm/sched.c:32-36 | only the given slot changes, to its scheduled form |
| `Sched.Scheduler.Resume` | src/kernel/pm/sched.c:55-60 | only the given slot changes, to its resumed form; the whole table is unchanged when it was not STOPPED |
| `SchedSpec.Reclassified` | src/kernel/pm/sched.c:71-95 | a RUNNING outgoing record becomes READY with counter 0 in the same or a later band; any other keeps its state and counter, in the same or an earlier band; nothing but state, counter and band changes (the exact bands are `ReclassifyRule`) |
| `SchedSpec.ReclassifyRule` | src/kernel/pm/sched.c:71-95 | a RUNNING outgoing record sinks to min(queue+1, QUEUE_AMOUNT) and becomes READY with counter 0; one neither RUNNING, DEAD nor IDLE rises to max(queue-1, 1); a DEAD or non-running IDLE record is unchanged; the record stays within the bands |
| `SchedSpec.ReclassifyTable` | src/kernel/pm/sched.c:70-98 | only the outgoing slot changes |
| `SchedSpec.AlarmScan` | src/kernel/pm/sched.c:100-110 | after scanning a prefix of the range, exactly the valid records with a nonzero alarm below `ticks` have their alarm zeroed and every other record is unchanged |
| `SchedSpec.AlarmSignalsInOrder` | src/kernel/pm/sched.c:100-110 | every signal raised by the alarm scan is SIGALRM to an expired record of the range, in increasing slot order |
| `SchedSpec.AlarmSignalsExactlyOnce` | src/kernel/pm/sched.c:100-110 | each expired record of the range receives exactly one SIGALRM and every other record none |
| `SchedSpec.AlarmScanEvents` | src/kernel/pm/sched.c:100-110 | the signals the alarm scan raises are exactly those of `AlarmEvents`, read off the table it starts from: one SIGALRM per expired record of the range, in slot order |
| `SchedSpec.AlarmEventsInOrder` | src/kernel/pm/sched.c:100-110 | the listed signals are SIGALRMs to expired records of the range, in increasing slot order |
| `SchedSpec.AlarmEventsOnce` | src/kernel/pm/sched.c:100-110 | the list names each expired record of the range exactly once and no other record |
| `SchedSpec.AlarmScanClears` | src/kernel/pm/sched.c:100-110 | afterwards no valid record of the range has 0 < alarm < ticks, records outside the range are unchanged and only alarms change |
| `Sched.Scheduler.FireAlarms` | src/kernel/pm/sched.c:100-110 | the alarm loop leaves the table and appends the signals the alarm scan specifies |
| `SchedSpec.Compare` | src/kernel/pm/sched.c:127-146 | the winner is the scanned record or the incumbent candidate and the table keeps its size (the replacement rule is `CompareRule`) |
| `SchedSpec.CompareRule` | src/kernel/pm/sched.c:127-146 | the scanned record replaces the candidate exactly when its band is strictly lower or the band is equal and its weight strictly lower (a tie keeps the incumbent); the loser's counter, and nothing else, goes up by one |
| `Sched.Scheduler.CompareWith` | src/kernel/pm/sched.c:127-146 | the in-place comparison computes the specified comparison |
| `SchedSpec.Aged` | src/kernel/pm/sched.c:153-158 | the record rises exactly one band with its counter cleared when its counter has reached `((QUEUE_AMOUNT+1) - queue) * AGING_FACTOR` and its band is not 1, and is returned unchanged otherwise; nothing but band and counter changes |
| `SchedSpec.AgedRule` | src/kernel/pm/sched.c:148-158 | aging fires exactly when the counter has reached the threshold of the band and the band is not 1, then moving the record one band up with its counter cleared; otherwise the record is unchanged; it stays within the bands and only band and counter change |
| `Sched.Scheduler.Age` | src/kernel/pm/sched.c:148-158 | only the scanned slot changes, to its aged form |
| `SchedSpec.SelectStep` | src/kernel/pm/sched.c:117-158 | one iteration keeps the candidate, or replaces it by the scanned record, which is then READY; the table keeps its size (the full rule is `SelectStepRule`) |
| `SchedSpec.SelectStepRule` | src/kernel/pm/sched.c:114-159 | a record that is not READY is skipped; a READY record that displaces the candidate becomes it, the old candidate only gets its counter incremented, and the scanned record is aged; otherwise the scanned record's counter is incremented and it is aged |
| `SchedSpec.SelectScan` | src/kernel/pm/sched.c:112-159 | the scan returns IDLE or a READY record of the range, and changes only counters and bands |
| `Sched.Scheduler.ChooseNext` | src/kernel/pm/sched.c:112-159 | the selection loop leaves the table and candidate the selection scan specifies |
| `SchedSpec.SelectKeepsBands` | src/kernel/pm/sched.c:112-159 | if every record is within bands 1..QUEUE_AMOUNT before the scan, every record is after it |
| `SchedSpec.SelectIdleFallback` | src/kernel/pm/sched.c:113-119 | with no READY record in the range, IDLE is chosen and the table is unchanged |
| `SchedSpec.WinnerNotLowestBand` | src/kernel/pm/sched.c:127-158 | on a concrete table a same-band loser ages one band above the winner, so the winner's band is not minimal |
| `SchedSpec.IdleCanBeatReady` | src/kernel/pm/sched.c:113-137 | on a concrete table IDLE is kept although a record of the range is READY, because the tie keeps the incumbent |
| `SchedSpec.Dispatched` | src/kernel/pm/sched.c:161-164 | the chosen record becomes RUNNING with priority PRIO_USER and counter queue * PROC_QUANTUM, and nothing else changes |
| `SchedSpec.Yield` | src/kernel/pm/sched.c:65-166 | the cycle keeps the table size and switches to a slot of the table |
| `Sched.Scheduler.Yield` | src/kernel/pm/sched.c:65-166 | the in-place cycle leaves the table, current process and log the specified cycle gives, and the last process is the outgoing one |
| `SchedSpec.YieldKeepsBands` | src/kernel/pm/sched.c:71-159 | if every record is within bands 1..QUEUE_AMOUNT before a cycle, every record is after it |
| `SchedSpec.YieldChoice` | src/kernel/pm/sched.c:71-165 | the process switched to is IDLE, a READY record of the range, or the preempted outgoing process; it is dispatched RUNNING with PRIO_USER and the quantum of its band; if only the outgoing process was RUNNING before, only the chosen one is RUNNING after |
| `SchedSpec.YieldIdleFallback` | src/kernel/pm/sched.c:113-165 | with no READY record in the range after reclassification, IDLE is switched to |
| `SchedSpec.YieldAlarms` | src/kernel/pm/sched.c:100-110 | in a cycle each expired record of the range is disarmed and sent exactly one SIGALRM; every other record keeps its alarm and gets none |
| `SchedSpec.YieldAlarmFiresOnce` | src/kernel/pm/sched.c:100-110 | an alarm that fires in one cycle does not fire in the next, whatever the clock then reads |
| `Aging.SelectTracksWaiting` | src/kernel/pm/sched.c:112-159 | in the selection scan a READY record other than IDLE is untouched before its turn; after it, it is the candidate aged once, or it has lost with one counter increment and at most one promotion |
| `Aging.YieldAgesWaiting` | src/kernel/pm/sched.c:65-166 | a READY record of the range, neither IDLE nor the outgoing process, that a cycle does not switch to stays READY and either gains one counter unit in its band (then it was below its aging threshold, or in band 1) or rises one band with counter 0 or 1 (then its counter plus the increment for losing had reached the threshold) |
| `Aging.Wait` | src/kernel/pm/sched.c:153-158 | the bound on remaining passed-over cycles is never negative and is zero exactly in band 1 |
| `Aging.WaitShrinks` | src/kernel/pm/sched.c:127-158 | each cycle that passes a waiting record over keeps it within the bands and lowers its `Wait` by at least one until it is in band 1 |
| `Aging.Cycle` | src/kernel/pm/sched.c:65-166 | one cycle, from a table and current process to the next, keeps the table size and the slot layout |
| `Aging.WaitingReachesTopBand` | src/kernel/pm/sched.c:65-166 | for a READY record j of the range, other than IDLE, that no cycle of the run switches to, the record stays READY and within the bands, its `Wait` drops by at least one per cycle, and once `Wait` cycles have passed it is in band 1 |
| `Scenario.FirstCycle` | src/kernel/pm/sched.c:65-166 | from boot, with IDLE running in band 4, the first cycle dispatches A, the first of three equal band-3 processes, and increments the counters of IDLE, B and C |
| `Scenario.SecondCycle` | src/kernel/pm/sched.c:65-166 | the second cycle demotes A to band 4, dispatches B, and increments the counters of IDLE, A and C |
| `Scenario.ThirdCycle` | src/kernel/pm/sched.c:65-166 | the third cycle demotes B to band 4, dispatches C, and increments the counters of IDLE, A and B |
| `Scenario.ThreeProcessRoundRobin` | src/kernel/pm/sched.c:65-166 | three cycles from boot dispatch A, B and C in table order with the band-3 quantum; a passed-over process keeps its band and gains one counter unit per cycle it loses; no signal is raised |
| `SchedSpec.Stop` | src/kernel/pm/sched.c:41-46 | stopping keeps the table size and switches to a slot of the table |
| `SchedSpec.StopRelinquishes` | src/kernel/pm/sched.c:41-46 | the parent is sent SIGCHLD before any alarm signal, and a stopped process other than IDLE stays STOPPED and is not switched to |
| `Sched.Scheduler.Stop` | src/kernel/pm/sched.c:41-46 | the in-place stop leaves the table, current process and log the specified stop gives |

## Left out

- `switch_to` is reduced to setting `curr`; saving and restoring execution context is not modelled.
- `stop` returning only after the stopped process is resumed and dispatched again is a property of context switching and is not modelled; `Stop` ends when the cycle has chosen the next process.
- `sndsig` is reduced to appending an event to `log`; its effect on the receiving process (for instance waking a waiting one) and delivery to a parent that has already exited are not modelled.
- `SchedSpec.YieldChoice`, `SchedSpec.YieldIdleFallback`, `SchedSpec.StopRelinquishes`: hold only because sending a signal is a log entry here; in the kernel a SIGALRM or SIGCHLD sent during the cycle could wake its receiver and make it READY, so the chosen process could also be one woken by a signal of the same cycle.
- The clock is not advanced here: `ticks` is an input to each cycle.
- Interrupt masking and the one-cycle-at-a-time discipline are not modelled; every operation runs to completion without interleaving.
- C `int` overflow of `counter`, of the weight and of `queue * PROC_QUANTUM` is not modelled: all are mathematical integers.
- `IS_VALID`, `FIRST_PROC`, `LAST_PROC`, `IDLE` and the constant values come from headers that are not part of this model: validity is a per-record flag, the others are slot indices and `Config` fields; `father` is a slot index that is only logged, never dereferenced.
- `Aging.WaitingReachesTopBand`: a run is a sequence of `yield` cycles only; `sched`, `resume`, `stop` and the rest of the kernel acting on the record between cycles are not part of it. The bound `Wait` is an upper bound and is not shown to be reached.
- `Scenario.ThreeProcessRoundRobin`: the order depends on IDLE's record, which the rest of the kernel fixes; the scenario places IDLE in the last band with priority 100, so in band 4 the three user processes, with priority 0, have the lower weight and beat it.
