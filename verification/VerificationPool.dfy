/** The worker pool of the manager (dnsid/manager.py:248, 1709-1795, 2488-2492): sync-led work of all domains
    competes for a bounded number of workers.  A job holds its worker from when it is taken off the queue
    until its work is done, or until it has to wait for work it does not do itself; a lookup that a status
    refresh leads runs on the worker of that refresh. */
module VerificationPools {
  import opened Options
  import opened Sets
  import opened Coordination
  import opened CoordinationSafety
  import opened CoordinationTheorems

  /** A domain and a future of it. */
  datatype Job = Job(domain: string, future: Fid)

  datatype Pool = Pool(states: map<string, State>, running: set<Job>, workers: nat)

  datatype PoolChoice = Start(job: Job) | Move(domain: string, choice: Choice)

  /** Work that a call led synchronously occupies a worker, except while it awaits a lookup before it is
      submitted, or joined work of others. */
  predicate NeedsWorker(w: Future) {
    w.sync && w.leader.ByCall? && !w.phase.AwaitClaimed? && !(w.phase.Joined? && !w.phase.leads)
    && !w.phase.JoinedPrivate? && !w.phase.Settled?
  }

  predicate IsJob(p: Pool, j: Job) {
    j.domain in p.states && j.future < |p.states[j.domain].futures| && NeedsWorker(p.states[j.domain].futures[j.future])
  }

  /** The work of this future can go on: it needs no worker, has one, or runs on that of its leader. */
  predicate HasWorker(p: Pool, d: string, f: Fid)
    requires d in p.states && f < |p.states[d].futures|
  {
    var w := p.states[d].futures[f];
    !w.sync ||
    match w.leader
    case ByCall(_) => NeedsWorker(w) ==> Job(d, f) in p.running
    case ByStatus(g) => IsJob(p, Job(d, g)) ==> Job(d, g) in p.running
  }

  predicate Enabled(p: Pool, c: PoolChoice) {
    match c
    case Start(j) => IsJob(p, j) && j !in p.running && |p.running| < p.workers
    case Move(d, c) =>
      && d in p.states
      && (c.WorkSteps? || c.WorkFails? ==> c.future < |p.states[d].futures| && HasWorker(p, d, c.future))
  }

  /** Workers whose job is done, or waits for others, are free again. */
  function Release(p: Pool): Pool {
    p.(running := set j | j in p.running && IsJob(p, j))
  }

  function PoolStep(p: Pool, c: PoolChoice): Pool {
    if !Enabled(p, c) then p
    else match c
         case Start(j) => p.(running := p.running + {j})
         case Move(d, c) => Release(p.(states := p.states[d := Step(p.states[d], c)]))
  }

  function PoolRun(p: Pool, choices: seq<PoolChoice>): Pool
    decreases |choices|
  {
    if choices == [] then p else PoolRun(PoolStep(p, choices[0]), choices[1..])
  }

  predicate PoolInv(p: Pool) {
    && (forall d | d in p.states :: Inv(p.states[d]))
    && (forall j | j in p.running :: IsJob(p, j))
    && |p.running| <= p.workers
  }

  lemma PoolStepInv(p: Pool, c: PoolChoice)
    requires PoolInv(p)
    ensures PoolInv(PoolStep(p, c)) && PoolStep(p, c).workers == p.workers
  {
    hide Inv, Step, HasWorker;
    if Enabled(p, c) && c.Move? {
      StepInv(p.states[c.domain], c.choice);
      var q := p.(states := p.states[c.domain := Step(p.states[c.domain], c.choice)]);
      SubsetSize(Release(q).running, p.running);
    }
  }

  lemma {:induction false} PoolRunInv(p: Pool, choices: seq<PoolChoice>)
    requires PoolInv(p)
    ensures PoolInv(PoolRun(p, choices)) && PoolRun(p, choices).workers == p.workers
    decreases |choices|
  {
    hide PoolInv, PoolStep;
    if choices != [] {
      PoolStepInv(p, choices[0]);
      PoolRunInv(PoolStep(p, choices[0]), choices[1..]);
    }
  }

  /** The choice gets something done: a job off the queue, or work one phase further. */
  predicate Progresses(p: Pool, c: PoolChoice) {
    && Enabled(p, c)
    && (c.Move? ==> c.choice.WorkSteps? && CanMove(p.states[c.domain], c.choice.future))
  }

  function Work(f: Fid): Choice {
    WorkSteps(f, 0, 0, false, false)
  }

  /** A job that holds a worker never blocks it: its own work can go on, or the lookup it leads can. */
  lemma WorkersNeverBlock(p: Pool, j: Job) returns (c: PoolChoice)
    requires PoolInv(p) && j in p.running
    ensures Progresses(p, c)
  {
    hide CanMove;
    var s := p.states[j.domain];
    var w := s.futures[j.future];
    assert Inv(s) && FutureInv(s, j.future);
    c := Move(j.domain, Work(j.future));
    if w.phase.Joined? && !IsSettled(s, w.phase.joined) {
      assert FutureInv(s, w.phase.joined);
      NestedMoves(s, w.phase.joined);
      c := Move(j.domain, Work(w.phase.joined));
    } else {
      UnblockedMoves(s, j.future);
    }
  }

  lemma NestedMoves(s: State, g: Fid)
    requires Inv(s) && g < |s.futures| && s.futures[g].kind.Lookup? && !s.futures[g].phase.Settled?
    ensures CanMove(s, g)
  {
    hide CanMove;
    assert FutureInv(s, g);
    UnblockedMoves(s, g);
  }

  /** A manager that has just been made: nothing has been called, no worker is busy. */
  predicate PoolInit(p: Pool) {
    p.running == {} && forall d | d in p.states :: p.states[d] == INITIAL
  }

  lemma PoolInitInv(p: Pool)
    requires PoolInit(p)
    ensures PoolInv(p)
  {
    hide Inv;
    InitialInv();
  }

  /** With any positive number of workers, shared by all domains, in every run: as long as some future is
      unfinished, something gets done next.  Neither the waiting of futures for one another nor the queue for
      workers ever deadlocks. */
  lemma PoolNeverDeadlocks(start: Pool, choices: seq<PoolChoice>, d: string, f: Fid) returns (c: PoolChoice)
    requires PoolInit(start) && start.workers > 0
    requires var p := PoolRun(start, choices);
             d in p.states && f < |p.states[d].futures| && !p.states[d].futures[f].phase.Settled?
    ensures Progresses(PoolRun(start, choices), c)
  {
    hide PoolInit, PoolInv, PoolRun, Progresses;
    PoolInitInv(start);
    PoolRunInv(start, choices);
    c := SomethingProgresses(PoolRun(start, choices), d, f);
  }

  lemma SomethingProgresses(p: Pool, d: string, f: Fid) returns (c: PoolChoice)
    requires PoolInv(p) && p.workers > 0
    requires d in p.states && f < |p.states[d].futures| && !p.states[d].futures[f].phase.Settled?
    ensures Progresses(p, c)
  {
    hide Inv, CanMove;
    var g := SomeoneCanMove(p.states[d], f);
    if HasWorker(p, d, g) {
      c := Move(d, Work(g));
    } else {
      var w := p.states[d].futures[g];
      var j := if w.leader.ByCall? then Job(d, g) else Job(d, w.leader.future);
      if |p.running| < p.workers {
        c := Start(j);
      } else {
        var h :| h in p.running;
        c := WorkersNeverBlock(p, h);
      }
    }
  }
}
