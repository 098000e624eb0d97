/**
 The work-stealing pool: workers, submitters and the shutdown call, one atomic access or mutex-held
 block a step; a batch pull is one step for every job it moves. The local deques are the atomic
 deques that the Chase-Lev protocol refines: owners use the end, thieves the front.
 */
module Pool {
  import opened Doorbell
  import opened Options

  type Job = nat

  const BATCH_SIZE := 32
  const PRIORITIES := 3

  /** Where a call of `submit` stands; `Ringing` and `Waking` are the two halves of `notify`. */
  datatype Submitter = Quiet | Adding | Inserting(job: Job, p: nat) | Ringing | Waking

  datatype Thread =
    | Top
    | Local(gen: nat, p: nat)
    | Inject(gen: nat, p: nat)
    | Pulling(p: nat, first: Job, moved: nat)
    | Stealing(gen: nat, p: nat, peer: nat)
    | CheckFlag(gen: nat)
    | CheckPending(gen: nat)
    | Waiting(gen: nat)
    | Asleep(gen: nat)
    | Exited
    | Found(job: Job, p: nat)
    | Body(job: Job, sub: Submitter)
    | BodyRinging
    | BodyWaking
    | Client(sub: Submitter)
    | Stopper(phase: Phase)

  /**
   `deques[w][p]` belongs to worker `w`; the first `|deques|` threads are the workers. `holder[p]` is the
   thread that holds the mutex of injector `p` across steps. Jobs are numbered in the order in which
   `submit` counts them; `finished` collects them as their bodies end, and `startedLow` counts the
   jobs below the highest priority whose bodies have begun.
   */
  datatype State = State(
    deques: seq<seq<seq<Job>>>, injectors: seq<seq<Job>>, holder: seq<Option<nat>>,
    gen: nat, pending: int, shutdown: bool, threads: seq<Thread>,
    submitted: nat, finished: multiset<Job>, startedLow: nat)

  /** What a thread does next where the program or the deque leaves it open. */
  datatype Choice = Choice(submits: bool, p: nat, givesUp: bool)

  /** No job submits another and no theft gives up of its own accord. */
  const ALONE := Choice(false, 0, false)

  predicate IsWorker(pc: Thread)
  {
    !pc.Client? && !pc.Stopper?
  }

  predicate Shape(s: State)
  {
    && |s.injectors| == |s.holder| == PRIORITIES && |s.deques| <= |s.threads|
    && (forall w :: 0 <= w < |s.deques| ==> |s.deques[w]| == PRIORITIES)
    && (forall k :: 0 <= k < |s.threads| ==> (IsWorker(s.threads[k]) <==> k < |s.deques|))
    && (forall k :: 0 <= k < |s.threads| ==> PcShape(s.threads[k]))
  }

  predicate SubShape(sub: Submitter) { sub.Inserting? ==> sub.p < PRIORITIES }

  predicate PcShape(pc: Thread)
  {
    match pc
    case Local(_, p) => p <= PRIORITIES
    case Inject(_, p) => p <= PRIORITIES
    case Pulling(p, _, _) => p < PRIORITIES
    case Stealing(_, p, _) => p <= PRIORITIES
    case Found(_, p) => p < PRIORITIES
    case Body(_, sub) => SubShape(sub)
    case Client(sub) => SubShape(sub)
    case _ => true
  }

  function Go(s: State, k: nat, pc: Thread): State
    requires k < |s.threads|
  {
    s.(threads := s.threads[k := pc])
  }

  function SetDeque(s: State, w: nat, p: nat, q: seq<Job>): State
    requires w < |s.deques| && p < |s.deques[w]|
  {
    s.(deques := s.deques[w := s.deques[w][p := q]])
  }

  /** `notify_all`: a sleeper returns if the generation is no longer the one it observed. */
  function WakeAll(threads: seq<Thread>, gen: nat): seq<Thread>
  {
    seq(|threads|, k requires 0 <= k < |threads| =>
      if threads[k].Asleep? && threads[k].gen != gen then Top else threads[k])
  }

  function Wake(s: State, k: nat, pc: Thread): State
    requires k < |s.threads|
  {
    s.(threads := WakeAll(s.threads, s.gen)[k := pc])
  }

  /** One step of `submit`, wherever it is called from; `wrap` is the calling thread's program counter. */
  function SubmitStep(s: State, k: nat, sub: Submitter, c: Choice, wrap: Submitter -> Thread): State
    requires Shape(s) && k < |s.threads| && SubShape(sub)
  {
    match sub
    case Quiet => Go(s, k, wrap(Adding))
    case Adding =>
      Go(s.(pending := s.pending + 1, submitted := s.submitted + 1), k, wrap(Inserting(s.submitted, c.p % PRIORITIES)))
    case Inserting(job, p) =>
      if s.holder[p].Some? then s
      else Go(s.(injectors := s.injectors[p := s.injectors[p] + [job]]), k, wrap(Ringing))
    case Ringing => Go(s.(gen := s.gen + 1), k, wrap(Waking))
    case Waking => Wake(s, k, wrap(Quiet))
  }

  /** The search for a job, one deque or injector a step. */
  function SearchStep(s: State, k: nat, c: Choice): State
    requires Shape(s) && k < |s.deques|
  {
    match s.threads[k]
    case Local(g, p) =>
      if p >= PRIORITIES then Go(s, k, Inject(g, 0))
      else
        var q := s.deques[k][p];
        if q == [] then Go(s, k, Local(g, p + 1))
        else Go(SetDeque(s, k, p, q[..|q| - 1]), k, Found(q[|q| - 1], p))
    case Inject(g, p) =>
      if p >= PRIORITIES then Go(s, k, Stealing(g, 0, 0))
      else if s.holder[p].Some? then s
      else
        var q := s.injectors[p];
        if q == [] then Go(s, k, Inject(g, p + 1))
        else Go(s.(injectors := s.injectors[p := q[1..]], holder := s.holder[p := Some(k)]), k, Pulling(p, q[0], 1))
    case Pulling(p, first, moved) =>
      var q := s.injectors[p];
      if moved < BATCH_SIZE && q != [] then
        Go(SetDeque(s.(injectors := s.injectors[p := q[1..]]), k, p, s.deques[k][p] + [q[0]]), k, Pulling(p, first, moved + 1))
      else Go(s.(holder := s.holder[p := None]), k, Found(first, p))
    case Stealing(g, p, peer) =>
      if p >= PRIORITIES then Go(s, k, CheckFlag(g))
      else if peer >= |s.deques| then Go(s, k, Stealing(g, p + 1, 0))
      else if peer == k || s.deques[peer][p] == [] || c.givesUp then Go(s, k, Stealing(g, p, peer + 1))
      else Go(SetDeque(s, peer, p, s.deques[peer][p][1..]), k, Found(s.deques[peer][p][0], p))
    case _ => s
  }

  predicate ClientsQuiet(s: State)
  {
    forall k :: 0 <= k < |s.threads| && s.threads[k].Client? ==> s.threads[k].sub.Quiet?
  }

  predicate Searching(pc: Thread)
  {
    pc.Local? || pc.Inject? || pc.Pulling? || pc.Stealing?
  }

  /**
   One step of thread `k`. Clients have returned from `submit` before shutdown begins and do not call
   it again; jobs may go on submitting.
   */
  function Step(s: State, k: nat, c: Choice): (s': State)
    requires Shape(s)
    ensures |s'.threads| == |s.threads| && |s'.deques| == |s.deques|
  {
    if k >= |s.threads| then s
    else
      match s.threads[k]
      case Top => Go(s, k, Local(s.gen, 0))
      case CheckFlag(g) => if s.shutdown then Go(s, k, CheckPending(g)) else Go(s, k, Waiting(g))
      case CheckPending(g) => if s.pending == 0 then Go(s, k, Exited) else Go(s, k, Waiting(g))
      case Waiting(g) => if s.gen == g then Go(s, k, Asleep(g)) else Go(s, k, Top)
      case Asleep(_) => s
      case Exited => s
      case Found(job, p) => Go(s.(startedLow := s.startedLow + (if p > 0 then 1 else 0)), k, Body(job, Quiet))
      case Body(job, sub) =>
        if sub.Quiet? && !c.submits then
          Go(s.(pending := s.pending - 1, finished := s.finished + multiset{job}), k, BodyRinging)
        else SubmitStep(s, k, sub, c, x => Body(job, x))
      case BodyRinging => Go(s.(gen := s.gen + 1), k, BodyWaking)
      case BodyWaking => Wake(s, k, Top)
      case Client(sub) => if sub.Quiet? && s.shutdown then s else SubmitStep(s, k, sub, c, x => Client(x))
      case Stopper(phase) =>
        (match phase
         case Open => if ClientsQuiet(s) then Go(s.(shutdown := true), k, Stopper(FlagRinging)) else s
         case FlagRinging => Go(s.(gen := s.gen + 1), k, Stopper(FlagWaking))
         case FlagWaking => Wake(s, k, Stopper(Joining))
         case Joining => s)
      case _ => SearchStep(s, k, c)
  }

  function Initial(workers: nat, clients: nat, stoppers: nat): State
  {
    State(seq(workers, _ => [[], [], []]), [[], [], []], [None, None, None], 0, 0, false,
          seq(workers, _ => Top) + seq(clients, _ => Client(Quiet)) + seq(stoppers, _ => Stopper(Open)),
          0, multiset{}, 0)
  }
}
