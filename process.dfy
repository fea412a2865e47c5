/** The process records the scheduler works on, its configuration constants
    and the signals it raises. */
module Process {

  /** Process states the scheduler distinguishes. Every other kernel-internal
      state (waiting, sleeping, zombie, ...) is opaque to the scheduler and is
      represented by `Other`. */
  datatype State = Running | Ready | Stopped | Dead | Other(tag: nat)

  /** One slot of the process table, reduced to the fields the scheduler reads
      or writes. `valid` stands for the table's validity test on the slot,
      `father` is the index of the parent's slot (a non-owning reference) and
      `alarm` is an absolute tick value, zero meaning disarmed. */
  datatype Proc = Proc(
    valid: bool,
    state: State,
    queue: int,
    counter: int,
    priority: int,
    nice: int,
    alarm: nat,
    father: int
  )

  /** The two signals this core raises. */
  datatype Signal = SigChld | SigAlrm

  /** A signal sent to the process in slot `pid`. */
  datatype Event = Event(pid: int, sig: Signal)

  /** The scheduler's compile-time constants: QUEUE_AMOUNT bands, the aging
      factor, the per-band quantum unit PROC_QUANTUM and the priority PRIO_USER
      given to every dispatched process. */
  datatype Config = Config(queueAmount: int, agingFactor: int, procQuantum: int, prioUser: int)

  predicate ValidConfig(cfg: Config)
  {
    cfg.queueAmount >= 1 && cfg.agingFactor >= 1 && cfg.procQuantum >= 1
  }

  /** The record lies in one of the bands 1 .. QUEUE_AMOUNT. */
  predicate InBand(cfg: Config, p: Proc)
  {
    1 <= p.queue <= cfg.queueAmount
  }

  predicate BandsOk(cfg: Config, t: seq<Proc>)
  {
    forall j :: 0 <= j < |t| ==> InBand(cfg, t[j])
  }
}
