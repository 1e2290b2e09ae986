/** The worker pool: a bounded queue, workers that park when it is empty, and a shutdown that drains it. */
module WorkerPool {
  type Job = nat

  /** Where a worker is: about to take the lock, parked in the wait, running a job, done with it but not yet counted,
      or returned. */
  datatype Worker = Ready | Parked | Working(job: Job) | Counting(job: Job) | Exited

  /** The fields that the lock protects, and the counters. */
  datatype Shared = Shared(capacity: nat, queue: seq<Job>, accepting: bool, stopping: bool, submitted: nat, completed: nat,
                           active: nat, rejected: nat)

  datatype Phase = Open | Flagged | Joining | Closed

  /** The whole pool, with the history of accepted and of started jobs. */
  datatype Pool = Pool(shared: Shared, workers: seq<Worker>, phase: Phase, accepted: seq<Job>, started: seq<Job>)

  // The critical sections

  predicate CanEnqueue(s: Shared) {
    s.accepting && |s.queue| < s.capacity
  }

  function Enqueued(s: Shared, job: Job): Shared {
    if CanEnqueue(s) then s.(queue := s.queue + [job], submitted := s.submitted + 1) else s.(rejected := s.rejected + 1)
  }

  /** What a worker does with the lock: return, park, or take the oldest job. */
  function Looked(s: Shared): (Shared, Worker) {
    if s.queue != [] then (s.(queue := s.queue[1..], active := s.active + 1), Working(s.queue[0]))
    else if s.stopping then (s, Exited)
    else (s, Parked)
  }

  function Stopped(s: Shared): Shared {
    s.(accepting := false, stopping := true)
  }

  /** The object that the threads share; each method is one critical section. */
  class PoolState {
    const capacity: nat
    var queue: seq<Job>
    var accepting: bool
    var stopping: bool
    var submitted: nat
    var completed: nat
    var active: nat
    var rejected: nat

    ghost function State(): Shared
      reads this
    {
      Shared(capacity, queue, accepting, stopping, submitted, completed, active, rejected)
    }

    constructor (size: nat)
      ensures State() == Shared(size, [], true, false, 0, 0, 0, 0)
    {
      capacity, queue, accepting, stopping := size, [], true, false;
      submitted, completed, active, rejected := 0, 0, 0, 0;
    }

    method Enqueue(job: Job) returns (ok: bool)
      modifies this
      ensures ok == CanEnqueue(old(State())) && State() == Enqueued(old(State()), job)
    {
      if !accepting || |queue| >= capacity {
        rejected := rejected + 1;
        return false;
      }
      queue, submitted, ok := queue + [job], submitted + 1, true;
    }

    method Look() returns (worker: Worker)
      modifies this
      ensures (State(), worker) == Looked(old(State()))
    {
      if !stopping && queue == [] {
        return Parked;
      }
      if stopping && queue == [] {
        return Exited;
      }
      worker := Working(queue[0]);
      queue, active := queue[1..], active + 1;
    }

    method Shutdown() returns (first: bool)
      modifies this
      ensures first == !old(stopping)
      ensures State() == if first then Stopped(old(State())) else old(State())
    {
      first := !stopping;
      if first {
        accepting, stopping := false, true;
      }
    }
  }

  // The steps of the whole

  datatype Step =
    | Submit(job: Job, woken: nat)
    | Look(w: nat)
    | Spurious(w: nat)
    | Finish(w: nat)
    | Count(w: nat)
    | Shut
    | NotifyAll
    | Joined

  predicate Is(workers: seq<Worker>, w: nat, kind: Worker -> bool) {
    w < |workers| && kind(workers[w])
  }

  const READY := (w: Worker) => w.Ready?
  const PARKED := (w: Worker) => w.Parked?
  const WORKING := (w: Worker) => w.Working?
  const COUNTING := (w: Worker) => w.Counting?

  function WakeAll(workers: seq<Worker>): seq<Worker> {
    seq(|workers|, i requires 0 <= i < |workers| => if workers[i].Parked? then Ready else workers[i])
  }

  ghost predicate AllExited(workers: seq<Worker>) {
    forall w :: 0 <= w < |workers| ==> workers[w].Exited?
  }

  ghost predicate NoneParked(workers: seq<Worker>) {
    forall w :: 0 <= w < |workers| ==> !workers[w].Parked?
  }

  ghost predicate Taken(p: Pool, p': Pool, step: Step) {
    match step
    case Submit(job, woken) =>
      if !CanEnqueue(p.shared) then p' == p.(shared := Enqueued(p.shared, job))
      else
        && (if NoneParked(p.workers) then p'.workers == p.workers
            else Is(p.workers, woken, PARKED) && p'.workers == p.workers[woken := Ready])
        && p' == p.(shared := Enqueued(p.shared, job), workers := p'.workers, accepted := p.accepted + [job])
    case Look(w) =>
      && Is(p.workers, w, READY)
      && (var (shared, worker) := Looked(p.shared);
          p' == p.(shared := shared, workers := p.workers[w := worker],
                   started := if worker.Working? then p.started + [worker.job] else p.started))
    case Spurious(w) =>
      Is(p.workers, w, PARKED) && p' == p.(workers := p.workers[w := Ready])
    case Finish(w) =>
      && Is(p.workers, w, WORKING) && p.shared.active > 0
      && p' == p.(shared := p.shared.(active := p.shared.active - 1), workers := p.workers[w := Counting(p.workers[w].job)])
    case Count(w) =>
      && Is(p.workers, w, COUNTING)
      && p' == p.(shared := p.shared.(completed := p.shared.completed + 1), workers := p.workers[w := Ready])
    case Shut =>
      if p.shared.stopping then p' == p else p' == p.(shared := Stopped(p.shared), phase := Flagged)
    case NotifyAll =>
      p.phase.Flagged? && p' == p.(workers := WakeAll(p.workers), phase := Joining)
    case Joined =>
      p.phase.Joining? && AllExited(p.workers) && p' == p.(phase := Closed)
  }

  // Counting workers

  function Tally(workers: seq<Worker>, kind: Worker -> bool): nat {
    if workers == [] then 0 else Tally(workers[..|workers| - 1], kind) + if kind(workers[|workers| - 1]) then 1 else 0
  }

  lemma {:induction false} TallyUpdate(workers: seq<Worker>, w: nat, next: Worker, kind: Worker -> bool)
    requires w < |workers|
    ensures Tally(workers[w := next], kind)
         == Tally(workers, kind) - (if kind(workers[w]) then 1 else 0) + if kind(next) then 1 else 0
    decreases |workers|
  {
    var updated := workers[w := next];
    if w == |workers| - 1 {
      assert updated[..|workers| - 1] == workers[..|workers| - 1];
    } else {
      assert updated[..|workers| - 1] == workers[..|workers| - 1][w := next];
      TallyUpdate(workers[..|workers| - 1], w, next, kind);
    }
  }

  lemma TallyAll(workers: seq<Worker>, w: nat, next: Worker)
    requires w < |workers|
    ensures Tally(workers[w := next], READY) == Tally(workers, READY) - (if workers[w].Ready? then 1 else 0) + if next.Ready? then 1 else 0
    ensures Tally(workers[w := next], PARKED) == Tally(workers, PARKED) - (if workers[w].Parked? then 1 else 0) + if next.Parked? then 1 else 0
    ensures Tally(workers[w := next], WORKING) == Tally(workers, WORKING) - (if workers[w].Working? then 1 else 0) + if next.Working? then 1 else 0
    ensures Tally(workers[w := next], COUNTING) == Tally(workers, COUNTING) - (if workers[w].Counting? then 1 else 0) + if next.Counting? then 1 else 0
  {
    TallyUpdate(workers, w, next, READY);
    TallyUpdate(workers, w, next, PARKED);
    TallyUpdate(workers, w, next, WORKING);
    TallyUpdate(workers, w, next, COUNTING);
  }

  lemma {:induction false} TallyZero(workers: seq<Worker>, kind: Worker -> bool)
    ensures Tally(workers, kind) == 0 <==> forall w :: 0 <= w < |workers| ==> !kind(workers[w])
    decreases |workers|
  {
    if workers != [] { TallyZero(workers[..|workers| - 1], kind); }
  }

  lemma {:induction false} TallyWake(workers: seq<Worker>)
    ensures Tally(WakeAll(workers), READY) == Tally(workers, READY) + Tally(workers, PARKED)
    ensures Tally(WakeAll(workers), PARKED) == 0
    ensures Tally(WakeAll(workers), WORKING) == Tally(workers, WORKING)
    ensures Tally(WakeAll(workers), COUNTING) == Tally(workers, COUNTING)
    decreases |workers|
  {
    if workers != [] {
      assert WakeAll(workers)[..|workers| - 1] == WakeAll(workers[..|workers| - 1]);
      TallyWake(workers[..|workers| - 1]);
    }
  }

  // The invariant

  ghost predicate PoolInvariant(p: Pool) {
    && p.workers != []
    && p.accepted == p.started + p.shared.queue && |p.accepted| == p.shared.submitted && |p.shared.queue| <= p.shared.capacity
    && p.shared.submitted == |p.shared.queue| + Tally(p.workers, WORKING) + Tally(p.workers, COUNTING) + p.shared.completed
    && p.shared.active == Tally(p.workers, WORKING)
    && (Tally(p.workers, PARKED) > 0 ==> |p.shared.queue| <= Tally(p.workers, READY))
    && (p.shared.stopping <==> !p.phase.Open?) && (p.shared.stopping ==> !p.shared.accepting)
    && ((exists w :: 0 <= w < |p.workers| && p.workers[w].Exited?) ==> p.shared.stopping && p.shared.queue == [])
    && (p.phase.Joining? || p.phase.Closed? ==> NoneParked(p.workers))
    && (p.phase.Closed? ==> AllExited(p.workers))
  }

  lemma SubmitKeeps(p: Pool, p': Pool, job: Job, woken: nat)
    requires PoolInvariant(p) && Taken(p, p', Submit(job, woken))
    ensures PoolInvariant(p')
  {
    hide Tally;
    TallyZero(p.workers, PARKED);
    if CanEnqueue(p.shared) && !NoneParked(p.workers) { TallyAll(p.workers, woken, Ready); }
  }

  lemma LookKeeps(p: Pool, p': Pool, w: nat)
    requires PoolInvariant(p) && Taken(p, p', Look(w))
    ensures PoolInvariant(p')
  {
    hide Tally;
    var worker := Looked(p.shared).1;
    TallyAll(p.workers, w, worker);
    if p.shared.queue != [] {
      assert p.started + p.shared.queue == (p.started + [p.shared.queue[0]]) + p.shared.queue[1..];
    }
    forall u | 0 <= u < |p'.workers| && p'.workers[u].Exited? ensures p.shared.stopping && p.shared.queue == [] {
      if u != w { assert p.workers[u].Exited?; }
    }
  }

  lemma WorkerKeeps(p: Pool, p': Pool, step: Step)
    requires PoolInvariant(p) && Taken(p, p', step) && (step.Spurious? || step.Finish? || step.Count?)
    ensures PoolInvariant(p')
  {
    hide Tally;
    TallyAll(p.workers, step.w, p'.workers[step.w]);
    forall u | 0 <= u < |p'.workers| && p'.workers[u].Exited? ensures p.shared.stopping && p.shared.queue == [] {
      assert p.workers[u].Exited?;
    }
  }

  lemma NotifyKeeps(p: Pool, p': Pool)
    requires PoolInvariant(p) && Taken(p, p', NotifyAll)
    ensures PoolInvariant(p')
  {
    hide Tally;
    TallyWake(p.workers);
    forall u | 0 <= u < |p'.workers| && p'.workers[u].Exited? ensures p.shared.stopping && p.shared.queue == [] {
      assert p.workers[u].Exited?;
    }
  }

  lemma PoolStepKeeps(p: Pool, p': Pool, step: Step)
    requires PoolInvariant(p) && Taken(p, p', step)
    ensures PoolInvariant(p')
  {
    match step
    case Submit(job, woken) => SubmitKeeps(p, p', job, woken);
    case Look(w) => LookKeeps(p, p', w);
    case NotifyAll => NotifyKeeps(p, p');
    case Shut =>
    case Joined =>
    case _ => WorkerKeeps(p, p', step);
  }

  ghost predicate Opens(p: Pool) {
    && p.workers != [] && (forall w :: 0 <= w < |p.workers| ==> p.workers[w] == Ready) && p.phase == Open
    && p.shared == Shared(p.shared.capacity, [], true, false, 0, 0, 0, 0) && p.accepted == [] && p.started == []
  }

  ghost predicate PoolRun(states: seq<Pool>, steps: seq<Step>) {
    && |states| == |steps| + 1 && Opens(states[0])
    && forall i :: 0 <= i < |steps| ==> Taken(states[i], states[i + 1], steps[i])
  }

  lemma OpensKept(p: Pool)
    requires Opens(p)
    ensures PoolInvariant(p)
  {
    hide Tally;
    TallyZero(p.workers, PARKED);
    TallyZero(p.workers, WORKING);
    TallyZero(p.workers, COUNTING);
  }

  lemma {:induction false} PoolRunKeeps(states: seq<Pool>, steps: seq<Step>, n: nat)
    requires PoolRun(states, steps) && n < |states|
    ensures PoolInvariant(states[n])
    decreases n
  {
    hide Taken, PoolInvariant, Opens;
    if n == 0 {
      OpensKept(states[0]);
    } else {
      PoolRunKeeps(states, steps, n - 1);
      assert Taken(states[n - 1], states[n - 1 + 1], steps[n - 1]);
      PoolStepKeeps(states[n - 1], states[n], steps[n - 1]);
    }
  }

  // The main results

  /** Conservation and order: every accepted job is queued, running, finished but uncounted, or completed; and jobs start
      in the order in which they were accepted, each exactly once. */
  lemma JobsConserved(states: seq<Pool>, steps: seq<Step>, n: nat)
    requires PoolRun(states, steps) && n < |states|
    ensures var p := states[n];
      && p.shared.submitted == |p.shared.queue| + p.shared.active + Tally(p.workers, COUNTING) + p.shared.completed
      && p.accepted == p.started + p.shared.queue
      && |p.shared.queue| <= p.shared.capacity
  {
    hide Taken, PoolRun, Tally;
    PoolRunKeeps(states, steps, n);
  }

  /** No lost wake-up: while there is a job in the queue, some worker is neither parked nor gone. */
  lemma NoLostWakeUp(states: seq<Pool>, steps: seq<Step>, n: nat)
    requires PoolRun(states, steps) && n < |states| && states[n].shared.queue != []
    ensures exists w :: 0 <= w < |states[n].workers| && !states[n].workers[w].Parked? && !states[n].workers[w].Exited?
  {
    hide Taken, PoolRun, Tally;
    PoolRunKeeps(states, steps, n);
    var p := states[n];
    TallyZero(p.workers, PARKED);
    TallyZero(p.workers, READY);
    if Tally(p.workers, READY) == 0 {
      assert !p.workers[0].Parked? && !p.workers[0].Exited?;
    } else {
      var w :| 0 <= w < |p.workers| && READY(p.workers[w]);
    }
  }

  /** When the draining shutdown returns nothing is left, and everything accepted has been completed. */
  lemma ShutdownDrained(states: seq<Pool>, steps: seq<Step>, n: nat)
    requires PoolRun(states, steps) && n < |states| && states[n].phase.Closed?
    ensures states[n].shared.queue == [] && states[n].shared.completed == states[n].shared.submitted && states[n].shared.active == 0
    ensures states[n].started == states[n].accepted
  {
    hide Taken, PoolRun, Tally;
    PoolRunKeeps(states, steps, n);
    var p := states[n];
    assert p.workers[0].Exited?;
    TallyZero(p.workers, WORKING);
    TallyZero(p.workers, COUNTING);
  }

  // Shutdown terminates

  function Weight(w: Worker): nat {
    match w case Ready => 1 case Parked => 0 case Working(_) => 3 case Counting(_) => 2 case Exited => 0
  }

  function Weights(workers: seq<Worker>): nat {
    if workers == [] then 0 else Weights(workers[..|workers| - 1]) + Weight(workers[|workers| - 1])
  }

  /** The work that is left once everybody has been notified. */
  function Remaining(p: Pool): nat {
    3 * |p.shared.queue| + Weights(p.workers)
  }

  lemma {:induction false} WeightsUpdate(workers: seq<Worker>, w: nat, next: Worker)
    requires w < |workers|
    ensures Weights(workers[w := next]) == Weights(workers) - Weight(workers[w]) + Weight(next)
    decreases |workers|
  {
    var updated := workers[w := next];
    if w == |workers| - 1 {
      assert updated[..|workers| - 1] == workers[..|workers| - 1];
    } else {
      assert updated[..|workers| - 1] == workers[..|workers| - 1][w := next];
      WeightsUpdate(workers[..|workers| - 1], w, next);
    }
  }

  /** While a shutdown joins, every step of a worker leaves less to do, and nothing else adds to it. */
  lemma JoiningProgress(p: Pool, p': Pool, step: Step)
    requires PoolInvariant(p) && p.phase.Joining? && Taken(p, p', step)
    ensures Remaining(p') <= Remaining(p)
    ensures step.Look? || step.Finish? || step.Count? ==> Remaining(p') < Remaining(p)
  {
    hide Tally, Weights;
    if step.Look? || step.Finish? || step.Count? {
      WeightsUpdate(p.workers, step.w, p'.workers[step.w]);
    }
  }

  /** And until all workers have returned, one of them can take such a step. */
  lemma JoiningEnabled(p: Pool) returns (step: Step, p': Pool)
    requires PoolInvariant(p) && p.phase.Joining?
    ensures AllExited(p.workers) ==> step.Joined? && Taken(p, p', step)
    ensures !AllExited(p.workers) ==> (step.Look? || step.Finish? || step.Count?) && Taken(p, p', step)
  {
    hide Tally;
    if AllExited(p.workers) {
      step, p' := Joined, p.(phase := Closed);
    } else {
      var w :| 0 <= w < |p.workers| && !p.workers[w].Exited?;
      TallyZero(p.workers, WORKING);
      match p.workers[w]
      case Ready =>
        var (shared, worker) := Looked(p.shared);
        step := Look(w);
        p' := p.(shared := shared, workers := p.workers[w := worker],
                 started := if worker.Working? then p.started + [worker.job] else p.started);
      case Working(job) =>
        assert WORKING(p.workers[w]);
        step := Finish(w);
        p' := p.(shared := p.shared.(active := p.shared.active - 1), workers := p.workers[w := Counting(job)]);
      case Counting(job) =>
        step := Count(w);
        p' := p.(shared := p.shared.(completed := p.shared.completed + 1), workers := p.workers[w := Ready]);
      case Parked => assert false;
    }
  }
}
