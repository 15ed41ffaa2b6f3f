/** The native two-branch runner `async_run_concurrently` (dnsid/_verification_budget.py:201-251): two
    tasks on one event loop, cancelled together, and a fixed choice among what they settled to. */
module AsyncBudgets {
  import opened Budgets

  datatype TaskEnd = Value(value: int) | Failure(code: Code) | Overdue | Cancelled

  datatype Task = Busy(cancelRequested: bool) | Done(end: TaskEnd)

  datatype AsyncOutcome = Results(first: int, second: int) | Raised(end: TaskEnd) | OuterCancelled

  datatype Runner = Watching | Gathering | Ended(outcome: AsyncOutcome)

  /** `outer` says that the awaiting caller itself was cancelled. */
  datatype AsyncState =
    AsyncState(primary: Task, secondary: Task, cancel: bool, expired: bool, outer: bool, runner: Runner)

  datatype How = OnItsOwn | Interrupted | ByCancellation

  datatype AsyncChoice = BudgetSpent | CancelCaller | FinishTask(first: bool, how: How) | Proceed

  const ASYNC_START := AsyncState(Busy(false), Busy(false), false, false, false, Watching)

  // ---- Steps ----

  predicate Definitive(e: TaskEnd) {
    e.Failure?
  }

  /** What a branch comes to by itself, as the end of its task. */
  function EndOf(own: Settled): TaskEnd {
    match own
    case Ok(v) => Value(v)
    case Error(e) => Failure(e)
    case Exhausted => Overdue
  }

  /** How a guarded task ends; it can be cancelled only when asked to be. */
  function GuardTask(own: Settled, how: How, requested: bool, spent: bool): TaskEnd {
    if how.ByCancellation? && requested then Cancelled
    else if spent && (how.Interrupted? || own.Ok?) then Overdue
    else EndOf(own)
  }

  function Request(t: Task): Task {
    if t.Busy? then Busy(true) else t
  }

  /** The `finally` block, up to the gathering. */
  function CancelBusy(s: AsyncState): AsyncState {
    s.(primary := Request(s.primary), secondary := Request(s.secondary),
       cancel := s.cancel || s.primary.Busy? || s.secondary.Busy?, runner := Gathering)
  }

  predicate EndedBadly(t: Task) {
    t.Done? && !t.end.Value?
  }

  function AsyncStep(a: Settled, b: Settled, s: AsyncState, c: AsyncChoice): AsyncState {
    match c
    case BudgetSpent => s.(expired := true)
    case CancelCaller =>
      (match s.runner
       case Watching => CancelBusy(s.(outer := true))
       case Gathering => s.(outer := true, primary := Request(s.primary), secondary := Request(s.secondary))
       case Ended(_) => s)
    case FinishTask(first, how) =>
      var t := if first then s.primary else s.secondary;
      if t.Done? then s
      else
        var e := GuardTask(if first then a else b, how, t.cancelRequested, s.cancel || s.expired);
        var s1 := s.(cancel := s.cancel || !e.Value?);
        if first then s1.(primary := Done(e)) else s1.(secondary := Done(e))
    case Proceed =>
      (match s.runner
       case Watching =>
         if EndedBadly(s.primary) || EndedBadly(s.secondary) || (s.primary.Done? && s.secondary.Done?)
         then CancelBusy(s) else s
       case Gathering =>
         if s.primary.Done? && s.secondary.Done?
         then s.(runner := Ended(Select([s.primary.end, s.secondary.end], s.outer))) else s
       case Ended(_) => s)
  }

  function AsyncRun(a: Settled, b: Settled, s: AsyncState, choices: seq<AsyncChoice>): AsyncState
    decreases |choices|
  {
    if choices == [] then s else AsyncRun(a, b, AsyncStep(a, b, s, choices[0]), choices[1..])
  }

  // ---- The choice among the settled tasks ----

  /** A definitive failure in task order, else the caller's cancellation, else any failure in task
      order, else the results. */
  function Select(ends: seq<TaskEnd>, outer: bool): AsyncOutcome
    requires |ends| == 2
  {
    if Definitive(ends[0]) then Raised(ends[0])
    else if Definitive(ends[1]) then Raised(ends[1])
    else if outer then OuterCancelled
    else if !ends[0].Value? then Raised(ends[0])
    else if !ends[1].Value? then Raised(ends[1])
    else Results(ends[0].value, ends[1].value)
  }

  method SelectOutcome(ends: seq<TaskEnd>, outer: bool) returns (r: AsyncOutcome)
    requires |ends| == 2
    ensures r == Select(ends, outer)
  {
    var i := 0;
    while i < |ends|
      invariant 0 <= i <= |ends|
      invariant forall j | 0 <= j < i :: !Definitive(ends[j])
    {
      if !ends[i].Value? && !ends[i].Overdue? && !ends[i].Cancelled? {
        return Raised(ends[i]);
      }
      i := i + 1;
    }
    if outer {
      return OuterCancelled;
    }
    i := 0;
    while i < |ends|
      invariant 0 <= i <= |ends|
      invariant forall j | 0 <= j < i :: ends[j].Value?
    {
      if !ends[i].Value? {
        return Raised(ends[i]);
      }
      i := i + 1;
    }
    return Results(ends[0].value, ends[1].value);
  }

  // ---- The invariant ----

  predicate Requested(t: Task) {
    t.Busy? && t.cancelRequested
  }

  /** The task came to its own end, and that end is no success. */
  predicate EndedBadlyBy(t: Task, own: Settled) {
    !own.Ok? && t == Done(EndOf(own))
  }

  /** A task ends by itself, or is interrupted. */
  predicate EndOk(t: Task, own: Settled) {
    t.Done? ==> t.end == EndOf(own) || t.end.Overdue? || t.end.Cancelled?
  }

  /** Before the budget is spent and unless the caller is cancelled, a branch that did not succeed by itself
      is behind every interruption. */
  predicate AsyncInv(a: Settled, b: Settled, s: AsyncState) {
    && EndOk(s.primary, a) && EndOk(s.secondary, b)
    && (s.runner.Ended? ==>
          s.primary.Done? && s.secondary.Done? && s.runner.outcome == Select([s.primary.end, s.secondary.end], s.outer))
    && (!s.expired && !s.outer ==>
          && (s.cancel || Requested(s.primary) || Requested(s.secondary) ==>
                EndedBadlyBy(s.primary, a) || EndedBadlyBy(s.secondary, b))
          && (EndedBadly(s.primary) ==> EndedBadlyBy(s.primary, a) || EndedBadlyBy(s.secondary, b))
          && (EndedBadly(s.secondary) ==> EndedBadlyBy(s.secondary, b) || EndedBadlyBy(s.primary, a)))
  }

  lemma AsyncStepInv(a: Settled, b: Settled, s: AsyncState, c: AsyncChoice)
    requires AsyncInv(a, b, s)
    ensures AsyncInv(a, b, AsyncStep(a, b, s, c))
  {
    hide Select;
  }

  lemma {:induction false} AsyncRunInv(a: Settled, b: Settled, s: AsyncState, choices: seq<AsyncChoice>)
    requires AsyncInv(a, b, s)
    ensures AsyncInv(a, b, AsyncRun(a, b, s, choices))
    decreases |choices|
  {
    hide AsyncInv, AsyncStep;
    if choices != [] {
      AsyncStepInv(a, b, s, choices[0]);
      AsyncRunInv(a, b, AsyncStep(a, b, s, choices[0]), choices[1..]);
    }
  }

  // ---- Theorems ----

  /** The outcomes there are with the budget unspent and the caller not cancelled: what the branches come to
      in the order of precedence, a failing secondary before an interrupted primary; and, when the secondary
      exhausts by itself, the exhaustion or the cancellation of the primary it set off. */
  predicate AsyncCanEnd(a: Settled, b: Settled, r: AsyncOutcome) {
    || (a.Ok? && b.Ok? && r == Results(a.value, b.value))
    || (a.Error? && r == Raised(Failure(a.code)))
    || (b.Error? && r == Raised(Failure(b.code)))
    || (a.Exhausted? && r == Raised(Overdue))
    || (b.Exhausted? && (r == Raised(Overdue) || r == Raised(Cancelled)))
  }

  predicate AsyncEndsWith(a: Settled, b: Settled, choices: seq<AsyncChoice>, r: AsyncOutcome) {
    var s := AsyncRun(a, b, ASYNC_START, choices);
    !s.expired && !s.outer && s.runner == Ended(r)
  }

  lemma AsyncEndsInv(a: Settled, b: Settled, choices: seq<AsyncChoice>, r: AsyncOutcome)
    requires AsyncEndsWith(a, b, choices, r)
    ensures AsyncCanEnd(a, b, r)
  {
    hide AsyncRun;
    assert AsyncInv(a, b, ASYNC_START);
    AsyncRunInv(a, b, ASYNC_START, choices);
  }

  lemma FourSteps(a: Settled, b: Settled, c: AsyncChoice, d: AsyncChoice, e: AsyncChoice, f: AsyncChoice)
    ensures AsyncRun(a, b, ASYNC_START, [c, d, e, f]) ==
            AsyncStep(a, b, AsyncStep(a, b, AsyncStep(a, b, AsyncStep(a, b, ASYNC_START, c), d), e), f)
  {
    hide AsyncStep;
    var s1 := AsyncStep(a, b, ASYNC_START, c);
    var s2 := AsyncStep(a, b, s1, d);
    var s3 := AsyncStep(a, b, s2, e);
    assert [c, d, e, f][1..] == [d, e, f] && [d, e, f][1..] == [e, f] && [e, f][1..] == [f] && [f][1..] == [];
    assert AsyncRun(a, b, ASYNC_START, [c, d, e, f]) == AsyncRun(a, b, s1, [d, e, f]);
    assert AsyncRun(a, b, s1, [d, e, f]) == AsyncRun(a, b, s2, [e, f]);
    assert AsyncRun(a, b, s2, [e, f]) == AsyncRun(a, b, s3, [f]);
    assert AsyncRun(a, b, s3, [f]) == AsyncRun(a, b, AsyncStep(a, b, s3, f), []);
  }

  /** Both tasks end by themselves before the runner looks. */
  lemma BothByThemselves(a: Settled, b: Settled) returns (choices: seq<AsyncChoice>)
    ensures a.Ok? && b.Ok? ==> AsyncEndsWith(a, b, choices, Results(a.value, b.value))
    ensures a.Error? ==> AsyncEndsWith(a, b, choices, Raised(Failure(a.code)))
  {
    hide AsyncRun;
    choices := [FinishTask(true, OnItsOwn), FinishTask(false, OnItsOwn), Proceed, Proceed];
    FourSteps(a, b, FinishTask(true, OnItsOwn), FinishTask(false, OnItsOwn), Proceed, Proceed);
  }

  /** One task ends by itself, the runner cancels the other, which ends as told. */
  lemma OneFirst(a: Settled, b: Settled, first: bool, how: How) returns (choices: seq<AsyncChoice>)
    requires if first then a.Exhausted? else !b.Ok?
    ensures first && how.ByCancellation? ==> AsyncEndsWith(a, b, choices, Raised(Overdue))
    ensures !first && b.Error? && how.ByCancellation? ==> AsyncEndsWith(a, b, choices, Raised(Failure(b.code)))
    ensures !first && b.Exhausted? && how.ByCancellation? ==> AsyncEndsWith(a, b, choices, Raised(Cancelled))
    ensures !first && b.Exhausted? && how.Interrupted? ==> AsyncEndsWith(a, b, choices, Raised(Overdue))
  {
    hide AsyncRun;
    choices := [FinishTask(first, OnItsOwn), Proceed, FinishTask(!first, how), Proceed];
    FourSteps(a, b, FinishTask(first, OnItsOwn), Proceed, FinishTask(!first, how), Proceed);
  }

  /** Exactly what the native runner can come to. */
  lemma AsyncOutcomesExactly(a: Settled, b: Settled, r: AsyncOutcome)
    ensures (exists choices :: AsyncEndsWith(a, b, choices, r)) <==> AsyncCanEnd(a, b, r)
  {
    hide AsyncEndsWith;
    forall choices | AsyncEndsWith(a, b, choices, r)
      ensures AsyncCanEnd(a, b, r)
    {
      AsyncEndsInv(a, b, choices, r);
    }
    if AsyncCanEnd(a, b, r) {
      var c := BothByThemselves(a, b);
      if a.Exhausted? && r == Raised(Overdue) {
        var d := OneFirst(a, b, true, ByCancellation);
      } else if !b.Ok? {
        var d := OneFirst(a, b, false, ByCancellation);
        var e := OneFirst(a, b, false, Interrupted);
      }
    }
  }

  /** The native runner's outcome as the threaded runner reports it. */
  function AsOutcome(r: AsyncOutcome): Outcome {
    match r
    case Results(x, y) => Both(x, y)
    case Raised(Failure(e)) => Failed(e)
    case _ => OutOfBudget
  }

  /** Every schedule of the native runner comes to what some schedule of the threaded one that misses no wait
      comes to, and the other way round, with one difference: when the secondary exhausts by itself the caller
      may get the cancellation of the primary, though nobody cancelled the caller. */
  lemma AsyncAgreesWithThreads(a: Settled, b: Settled)
    ensures forall choices, r | AsyncEndsWith(a, b, choices, r) ::
              exists threads :: EndsClean(a, b, threads, AsOutcome(r))
    ensures forall threads, o | EndsClean(a, b, threads, o) ::
              exists choices, r :: AsyncEndsWith(a, b, choices, r) && AsOutcome(r) == o
    ensures (exists choices :: AsyncEndsWith(a, b, choices, Raised(Cancelled))) <==> b.Exhausted?
  {
    hide AsyncEndsWith, EndsClean;
    forall choices, r | AsyncEndsWith(a, b, choices, r)
      ensures exists threads :: EndsClean(a, b, threads, AsOutcome(r))
    {
      AsyncOutcomesExactly(a, b, r);
      CleanOutcomesExactly(a, b, AsOutcome(r));
    }
    forall threads, o | EndsClean(a, b, threads, o)
      ensures exists choices, r :: AsyncEndsWith(a, b, choices, r) && AsOutcome(r) == o
    {
      CleanOutcomesExactly(a, b, o);
      AsyncOutcomesExactly(a, b, FromOutcome(o));
      var choices :| AsyncEndsWith(a, b, choices, FromOutcome(o));
      assert AsOutcome(FromOutcome(o)) == o;
    }
    AsyncOutcomesExactly(a, b, Raised(Cancelled));
  }

  function FromOutcome(o: Outcome): AsyncOutcome {
    match o
    case Both(x, y) => Results(x, y)
    case Failed(e) => Raised(Failure(e))
    case OutOfBudget => Raised(Overdue)
  }

  /** Whatever is cancelled or spent, a definitive failure that settled is reported, the primary's first,
      results are reported only when both branches returned them, and the caller's own cancellation exactly
      when it was cancelled and no branch failed definitively. */
  lemma AsyncKeepsSettledFailures(a: Settled, b: Settled, choices: seq<AsyncChoice>)
    ensures var s := AsyncRun(a, b, ASYNC_START, choices);
            s.runner.Ended? ==>
              && s.primary.Done? && s.secondary.Done?
              && (s.primary.end.Failure? ==> s.runner.outcome == Raised(s.primary.end))
              && (!s.primary.end.Failure? && s.secondary.end.Failure? ==> s.runner.outcome == Raised(s.secondary.end))
              && (s.runner.outcome.Results? ==> a == Ok(s.runner.outcome.first) && b == Ok(s.runner.outcome.second))
              && (s.runner.outcome.OuterCancelled? <==>
                  s.outer && !s.primary.end.Failure? && !s.secondary.end.Failure?)
  {
    hide AsyncRun;
    assert AsyncInv(a, b, ASYNC_START);
    AsyncRunInv(a, b, ASYNC_START, choices);
  }

  // ---- Interruptions reach the branches ----

  /** The caller's cancellation, and a branch that did not succeed once the runner sees it, set the shared flag
      and ask every branch still at work to stop; with the flag set or the budget spent, a branch that returns
      after all counts as out of budget. */
  lemma InterruptionsReachTheBranches(a: Settled, b: Settled, s: AsyncState, first: bool)
    requires s.runner.Watching?
    ensures var t := AsyncStep(a, b, s, CancelCaller);
            && t.outer && (s.primary.Busy? ==> t.primary == Busy(true) && t.cancel)
            && (s.secondary.Busy? ==> t.secondary == Busy(true) && t.cancel)
    ensures EndedBadly(s.primary) || EndedBadly(s.secondary) ==>
              var t := AsyncStep(a, b, s, Proceed);
              && (s.primary.Busy? ==> t.primary == Busy(true) && t.cancel)
              && (s.secondary.Busy? ==> t.secondary == Busy(true) && t.cancel)
    ensures var own, was := if first then a else b, if first then s.primary else s.secondary;
            var t := AsyncStep(a, b, s, FinishTask(first, OnItsOwn));
            own.Ok? && was.Busy? && (s.cancel || s.expired) ==>
              (if first then t.primary else t.secondary) == Done(Overdue)
  {
  }

  /** The budget was spent with a branch still at work. */
  predicate AsyncTooLate(s: AsyncState) {
    && (s.cancel || s.expired) && !(s.runner.Ended? && s.runner.outcome.Results?)
    && (s.primary.Busy? || s.secondary.Busy? || EndedBadly(s.primary) || EndedBadly(s.secondary))
    && (s.runner.Ended? ==> s.primary.Done? && s.secondary.Done?)
  }

  lemma AsyncStepTooLate(a: Settled, b: Settled, s: AsyncState, c: AsyncChoice)
    requires AsyncTooLate(s)
    ensures AsyncTooLate(AsyncStep(a, b, s, c))
  {
  }

  /** Once the shared flag is set or the budget spent while a branch is at work, every continuation ends without
      results. */
  lemma {:induction false} AsyncSpentGivesNoResults(a: Settled, b: Settled, s: AsyncState, choices: seq<AsyncChoice>)
    requires AsyncTooLate(s)
    ensures AsyncTooLate(AsyncRun(a, b, s, choices))
    ensures var t := AsyncRun(a, b, s, choices);
            !(t.runner.Ended? && t.runner.outcome.Results?)
    decreases |choices|
  {
    hide AsyncStep;
    if choices != [] {
      AsyncStepTooLate(a, b, s, choices[0]);
      AsyncSpentGivesNoResults(a, b, AsyncStep(a, b, s, choices[0]), choices[1..]);
    }
  }
}
