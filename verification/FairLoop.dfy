/**
 The fair scheduler's threads around its mutex: the worker loop, submitters and the shutdown call, one
 atomic access or locked block a step, with the doorbell's own steps.
 */
module FairLoop {
  import opened Doorbell
  import opened Options
  import opened FairState
  import opened FairAgreement
  import opened FairOrder

  /** Where a call of `submit` stands; `Ringing` and `Waking` are the two halves of `notify`. */
  datatype Submitter = Quiet | Adding | Inserting(job: Job) | Ringing | Waking

  datatype Thread =
    | Top
    | Look(gen: nat)
    | Body(job: Job, sub: Submitter)
    | BodyRinging
    | BodyWaking
    | Charging
    | CheckFlag(gen: nat)
    | CheckPending(gen: nat)
    | Waiting(gen: nat)
    | Asleep(gen: nat)
    | Exited
    | Client(sub: Submitter)
    | Stopper(phase: Phase)

  /**
   The first `|core.running|` threads are the workers; the others submit or shut down. Jobs are numbered
   in the order in which `submit` counts them; `finished` collects them as their bodies end.
   */
  datatype Loop = Loop(
    core: Fair, gen: nat, pending: int, shutdown: bool, threads: seq<Thread>, submitted: nat, finished: multiset<Job>)

  /** What a thread does next where the program leaves it open. */
  datatype Choice = Choice(submits: bool, className: string, weight: real, elapsed: real)

  predicate IsWorker(pc: Thread)
  {
    !pc.Client? && !pc.Stopper?
  }

  /** The worker holds a job it has taken and not yet charged. */
  predicate HasJob(pc: Thread)
  {
    pc.Body? || pc.BodyRinging? || pc.BodyWaking? || pc.Charging?
  }

  predicate Shape(s: Loop)
  {
    && Agree(s.core) && |s.core.running| <= |s.threads|
    && (forall k :: 0 <= k < |s.threads| ==> (IsWorker(s.threads[k]) <==> k < |s.core.running|))
    && (forall k :: 0 <= k < |s.core.running| ==> (HasJob(s.threads[k]) <==> s.core.running[k].Some?))
  }

  function Move1(s: Loop, k: nat, pc: Thread): Loop
    requires k < |s.threads|
  {
    s.(threads := s.threads[k := pc])
  }

  /** `notify_all`: a sleeper returns if the generation is no longer the one it observed. */
  function WakeAll(threads: seq<Thread>, gen: nat): seq<Thread>
  {
    seq(|threads|, k requires 0 <= k < |threads| =>
      if threads[k].Asleep? && threads[k].gen != gen then Top else threads[k])
  }

  /** One step of `submit`, wherever it is called from; `wrap` is the calling thread's program counter. */
  function SubmitStep(s: Loop, k: nat, sub: Submitter, c: Choice, wrap: Submitter -> Thread): Loop
    requires Shape(s) && k < |s.threads|
  {
    match sub
    case Quiet => Move1(s, k, wrap(Adding))
    case Adding => Move1(s.(pending := s.pending + 1, submitted := s.submitted + 1), k, wrap(Inserting(s.submitted)))
    case Inserting(job) => Move1(s.(core := Submit(s.core, job, c.className, c.weight)), k, wrap(Ringing))
    case Ringing => Move1(s.(gen := s.gen + 1), k, wrap(Waking))
    case Waking => s.(threads := WakeAll(s.threads, s.gen)[k := wrap(Quiet)])
  }

  predicate ClientsQuiet(s: Loop)
  {
    forall k :: 0 <= k < |s.threads| && s.threads[k].Client? ==> s.threads[k].sub.Quiet?
  }

  /**
   One step of thread `k`. Clients have returned from `submit` before shutdown begins and do not call
   it again; jobs may go on submitting.
   */
  function Step(s: Loop, k: nat, c: Choice): (s': Loop)
    requires Shape(s)
    ensures |s'.threads| == |s.threads|
  {
    if k >= |s.threads| then s
    else
      match s.threads[k]
      case Top => Move1(s, k, Look(s.gen))
      case Look(g) =>
        if s.core.ready != [] then
          MentionedHasWork(s.core, s.core.ready[0]);
          var job := s.core.classes[s.core.ready[0].id].runnable[0];
          Move1(s.(core := Dispatch(s.core, k)), k, Body(job, Quiet))
        else Move1(s, k, CheckFlag(g))
      case Body(job, sub) =>
        if sub.Quiet? && !c.submits then
          Move1(s.(pending := s.pending - 1, finished := s.finished + multiset{job}), k, BodyRinging)
        else SubmitStep(s, k, sub, c, x => Body(job, x))
      case BodyRinging => Move1(s.(gen := s.gen + 1), k, BodyWaking)
      case BodyWaking => s.(threads := WakeAll(s.threads, s.gen)[k := Charging])
      case Charging => if c.elapsed < 0.0 then s else Move1(s.(core := Charge(s.core, k, c.elapsed)), k, Top)
      case CheckFlag(g) => if s.shutdown then Move1(s, k, CheckPending(g)) else Move1(s, k, Waiting(g))
      case CheckPending(g) => if s.pending == 0 then Move1(s, k, Exited) else Move1(s, k, Waiting(g))
      case Waiting(g) => if s.gen == g then Move1(s, k, Asleep(g)) else Move1(s, k, Top)
      case Asleep(_) => s
      case Exited => s
      case Client(sub) => if sub.Quiet? && s.shutdown then s else SubmitStep(s, k, sub, c, x => Client(x))
      case Stopper(phase) =>
        match phase
        case Open => if ClientsQuiet(s) then Move1(s.(shutdown := true), k, Stopper(FlagRinging)) else s
        case FlagRinging => Move1(s.(gen := s.gen + 1), k, Stopper(FlagWaking))
        case FlagWaking => s.(threads := WakeAll(s.threads, s.gen)[k := Stopper(Joining)])
        case Joining => s
  }

  function Initial(workers: nat, clients: nat, stoppers: nat): Loop
  {
    Loop(FairState.Initial(workers), 0, 0, false,
         seq(workers, _ => Top) + seq(clients, _ => Client(Quiet)) + seq(stoppers, _ => Stopper(Open)),
         0, multiset{})
  }

  /** Which move of the scheduler's core, if any, a step makes. */
  function CoreMove(s: Loop, k: nat, c: Choice): Option<Move>
  {
    if k >= |s.threads| then None
    else
      match s.threads[k]
      case Look(_) => if s.core.ready != [] then Some(DoDispatch(k)) else None
      case Charging => if c.elapsed < 0.0 then None else Some(DoCharge(k, c.elapsed))
      case Body(_, Inserting(job)) => Some(DoSubmit(job, c.className, c.weight))
      case Client(Inserting(job)) => Some(DoSubmit(job, c.className, c.weight))
      case _ => None
  }
}
