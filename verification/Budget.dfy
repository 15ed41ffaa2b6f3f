/** The verification budget and the two-branch runner (dnsid/_verification_budget.py).  A budget is a
    deadline and a tuple of cancellation events; nested scopes tighten it.  The runner is a machine
    whose steps the threads take in any order. */
module Budgets {
  import opened Options

  // ---- Budgets and scopes ----

  /** Events are named; the set of those that are set only grows. */
  datatype Budget = Budget(deadline: real, events: seq<nat>)

  datatype Remaining = Seconds(value: real) | BadArgument | Spent

  predicate Expired(b: Budget, now: real, fired: set<nat>) {
    b.deadline <= now || exists e | e in b.events :: e in fired
  }

  function RemainingSeconds(current: Option<Budget>, now: real, fired: set<nat>, maximum: real): Remaining {
    if maximum < 0.0 then BadArgument
    else match current
         case None => Seconds(maximum)
         case Some(b) =>
           if Expired(b, now, fired) then Spent
           else Seconds(if maximum < b.deadline - now then maximum else b.deadline - now)
  }

  /** The budget a scope opened at `now` puts in place. */
  function Nested(parent: Option<Budget>, now: real, timeout: real, event: Option<nat>): Budget {
    var own := if event.Some? then [event.value] else [];
    match parent
    case None => Budget(now + timeout, own)
    case Some(p) => Budget(if now + timeout < p.deadline then now + timeout else p.deadline, own + p.events)
  }

  /** The context variable, set and reset around scopes. */
  class BudgetContext {
    var current: Option<Budget>

    constructor ()
      ensures current == None
    {
      current := None;
    }

    /** Entering `verification_budget`: on success the nested budget is in place and unspent; otherwise
        the context is as it was.  `token` is what `reset` gets. */
    method Open(timeout: real, event: Option<nat>, now: real, fired: set<nat>)
        returns (token: Option<Budget>, r: Remaining)
      modifies this
      ensures token == old(current)
      ensures timeout <= 0.0 ==> r == BadArgument
      ensures timeout > 0.0 ==> r == RemainingSeconds(Some(Nested(old(current), now, timeout, event)), now, fired, 30.0)
      ensures current == if r.Seconds? then Some(Nested(old(current), now, timeout, event)) else old(current)
    {
      token := current;
      if timeout <= 0.0 {
        r := BadArgument;
        return;
      }
      var deadline := now + timeout;
      var events := if event.Some? then [event.value] else [];
      if current.Some? {
        deadline := if deadline < current.value.deadline then deadline else current.value.deadline;
        events := events + current.value.events;
      }
      current := Some(Budget(deadline, events));
      r := RemainingSeconds(current, now, fired, 30.0);
      if !r.Seconds? {
        current := token;
      }
    }

    /** Leaving it, by returning or raising: the context is reset in both cases, and a return is turned
        into exhaustion when the budget is spent. */
    method Close(token: Option<Budget>, raised: bool, now: real, fired: set<nat>) returns (r: Remaining)
      modifies this
      ensures current == token
      ensures !raised ==> r == RemainingSeconds(old(current), now, fired, 30.0)
    {
      r := Seconds(0.0);
      if !raised {
        r := RemainingSeconds(current, now, fired, 30.0);
      }
      current := token;
    }
  }

  /** One scope inside another, at the times they were opened. */
  datatype Scope = Scope(now: real, timeout: real, event: Option<nat>)

  function Nest(outer: Option<Budget>, scopes: seq<Scope>): Option<Budget> {
    if scopes == [] then outer
    else
      var last := scopes[|scopes| - 1];
      Some(Nested(Nest(outer, scopes[..|scopes| - 1]), last.now, last.timeout, last.event))
  }

  /** What is granted: everything up to the maximum without a budget; nothing once the deadline has come or an
      event is set; and of an unspent budget the most that reaches neither past the maximum nor past the
      deadline. */
  lemma GrantsTheMostAllowed(b: Budget, now: real, fired: set<nat>, maximum: real)
    requires maximum >= 0.0
    ensures RemainingSeconds(None, now, fired, maximum) == Seconds(maximum)
    ensures var r := RemainingSeconds(Some(b), now, fired, maximum);
            && (r == Spent <==> now >= b.deadline || exists e :: e in b.events && e in fired)
            && (r != Spent ==>
                  && r.Seconds? && 0.0 <= r.value <= maximum && now + r.value <= b.deadline
                  && (r.value == maximum || now + r.value == b.deadline))
    ensures forall m: real | m < 0.0 :: RemainingSeconds(Some(b), now, fired, m) == BadArgument
                                        == RemainingSeconds(None, now, fired, m)
  {
  }

  /** Any depth of nesting gives exactly the earliest of all the deadlines around, and exactly the events of all
      the scopes around. */
  lemma {:induction false} NestingIsTheEarliest(outer: Budget, scopes: seq<Scope>)
    ensures var b := Nest(Some(outer), scopes);
            && b.Some?
            && (b.value.deadline == outer.deadline
                || exists i :: 0 <= i < |scopes| && b.value.deadline == scopes[i].now + scopes[i].timeout)
            && (forall e | e in b.value.events ::
                  e in outer.events || exists i :: 0 <= i < |scopes| && scopes[i].event == Some(e))
  {
    if scopes != [] {
      var n := |scopes| - 1;
      NestingIsTheEarliest(outer, scopes[..n]);
      var inner, b := Nest(Some(outer), scopes[..n]).value, Nest(Some(outer), scopes).value;
      if b.deadline == inner.deadline && inner.deadline != outer.deadline {
        var i :| 0 <= i < n && inner.deadline == scopes[..n][i].now + scopes[..n][i].timeout;
        assert scopes[i] == scopes[..n][i];
      } else if b.deadline != inner.deadline {
        assert b.deadline == scopes[n].now + scopes[n].timeout;
      }
      forall e | e in b.events && e !in outer.events
        ensures exists i :: 0 <= i < |scopes| && scopes[i].event == Some(e)
      {
        if e in inner.events {
          var i :| 0 <= i < n && scopes[..n][i].event == Some(e);
          assert scopes[i].event == Some(e);
        } else {
          assert scopes[n].event == Some(e);
        }
      }
    }
  }

  /** Any depth of nesting only shortens the deadline and only adds events: whenever an enclosing
      budget is spent so is the nested one, and what the nested one grants never reaches past any
      deadline around it nor past the timeout of any scope in between. */
  lemma {:induction false} NestingOnlyTightens(outer: Budget, scopes: seq<Scope>)
    ensures Nest(Some(outer), scopes).Some?
    ensures Nest(Some(outer), scopes).value.deadline <= outer.deadline
    ensures forall e | e in outer.events :: e in Nest(Some(outer), scopes).value.events
    ensures forall i | 0 <= i < |scopes| ::
              && Nest(Some(outer), scopes).value.deadline <= scopes[i].now + scopes[i].timeout
              && (scopes[i].event.Some? ==> scopes[i].event.value in Nest(Some(outer), scopes).value.events)
  {
    if scopes != [] {
      NestingOnlyTightens(outer, scopes[..|scopes| - 1]);
    }
  }

  lemma NestedNeverOutlives(outer: Budget, scopes: seq<Scope>, now: real, fired: set<nat>, maximum: real)
    ensures Expired(outer, now, fired) && maximum >= 0.0 ==>
              RemainingSeconds(Nest(Some(outer), scopes), now, fired, maximum) == Spent
    ensures RemainingSeconds(Nest(Some(outer), scopes), now, fired, maximum).Seconds? ==>
              && 0.0 <= RemainingSeconds(Nest(Some(outer), scopes), now, fired, maximum).value <= maximum
              && now + RemainingSeconds(Nest(Some(outer), scopes), now, fired, maximum).value <= outer.deadline
              && RemainingSeconds(Some(outer), now, fired, maximum).Seconds?
  {
  }

  /** The scope a branch runs in ends the branch by itself, the caller's budget being unspent, exactly when
      its own thirty seconds are over or the shared flag is set: a caller without a budget, or with more
      than thirty seconds left, can see a branch exhaust. */
  lemma OwnScopeSpentExactlyWhen(caller: Option<Budget>, start: real, cancel: nat, now: real, fired: set<nat>)
    requires caller.Some? ==> !Expired(caller.value, now, fired)
    ensures RemainingSeconds(Some(Nested(caller, start, 30.0, Some(cancel))), now, fired, 30.0) == Spent <==>
            now >= start + 30.0 || cancel in fired
  {
    var b := Nested(caller, start, 30.0, Some(cancel));
    assert b.events[0] == cancel;
    if caller.Some? {
      assert b.events == [cancel] + caller.value.events;
    }
  }

  // ---- The two-branch runner ----

  type Value = int
  type Code = string

  /** How a guarded branch ends: its result, a definitive failure, or exhaustion.  By itself a branch comes
      to any of the three, to exhaustion when its own scope, or one inside it, is spent. */
  datatype Settled = Ok(value: Value) | Error(code: Code) | Exhausted

  datatype Outcome = Both(first: Value, second: Value) | Failed(code: Code) | OutOfBudget

  datatype Secondary = Running | Raising(outcome: Settled) | Finished(outcome: Settled)

  /** Where the caller is: in the primary branch, in its handler for exhaustion, blocked on the
      secondary's exception, about to check its own budget, waiting on the secondary, handling the timeout
      of that wait, or done. */
  datatype Caller = InPrimary | Caught | Joining | Waiting | Polling | TimedOut | Returned(outcome: Outcome)

  /** `expired` says that the caller's own budget is spent: its deadline passed or an inherited event
      was set.  Neither is ever undone. */
  datatype State = State(caller: Caller, primary: Option<Settled>, secondary: Secondary, cancel: bool, expired: bool)

  datatype Choice =
    | Expire
    | FinishPrimary(interrupted: bool)
    | FinishSecondary(interrupted: bool)
    | SettleSecondary
    | Advance

  const START := State(InPrimary, None, Running, false, false)

  /** The exception a timed-out wait raises. */
  const TIMEOUT: Code := "TimeoutError"

  /** A branch that notices the interruption raises exhaustion; one that does not comes to its own end, and
      a success is checked against the budget once more when its scope closes. */
  function Guard(own: Settled, interrupted: bool, spent: bool): Settled {
    if spent && (interrupted || own.Ok?) then Exhausted else own
  }

  function AdvanceStep(s: State): State {
    match s.caller
    case Caught =>
      if s.cancel then s.(caller := Joining) else s.(caller := Returned(OutOfBudget), cancel := true)
    case Joining =>
      if !s.secondary.Finished? then s
      else if s.secondary.outcome.Error? then s.(caller := Returned(Failed(s.secondary.outcome.code)))
      else s.(caller := Returned(OutOfBudget), cancel := true)
    case Waiting => if s.expired then s.(caller := Returned(OutOfBudget)) else s.(caller := Polling)
    case Polling =>
      if !s.secondary.Finished? then s.(caller := TimedOut)
      else
        (match s.secondary.outcome
         case Ok(u) =>
           if s.primary.Some? && s.primary.value.Ok? then s.(caller := Returned(Both(s.primary.value.value, u))) else s
         case Error(e) => s.(caller := Returned(Failed(e)))
         case Exhausted => s.(caller := Returned(OutOfBudget)))
    case TimedOut => if s.secondary.Finished? then s.(caller := Returned(Failed(TIMEOUT))) else s.(caller := Waiting)
    case _ => s
  }

  function Step(a: Settled, b: Settled, s: State, c: Choice): State {
    match c
    case Expire => s.(expired := true)
    case FinishPrimary(interrupted) =>
      if !s.caller.InPrimary? then s
      else
        var p := Guard(a, interrupted, s.cancel || s.expired);
        (match p
         case Ok(_) => s.(primary := Some(p), caller := Waiting)
         case Error(e) => s.(primary := Some(p), caller := Returned(Failed(e)), cancel := true)
         case Exhausted => s.(primary := Some(p), caller := Caught))
    case FinishSecondary(interrupted) =>
      if !s.secondary.Running? then s
      else
        var q := Guard(b, interrupted, s.cancel || s.expired);
        if q.Ok? then s.(secondary := Finished(q)) else s.(secondary := Raising(q), cancel := true)
    case SettleSecondary =>
      if s.secondary.Raising? then s.(secondary := Finished(s.secondary.outcome)) else s
    case Advance => AdvanceStep(s)
  }

  function Run(a: Settled, b: Settled, s: State, choices: seq<Choice>): State
    decreases |choices|
  {
    if choices == [] then s else Run(a, b, Step(a, b, s, choices[0]), choices[1..])
  }

  /** The promised precedence over what the branches settled to: both results, else the primary's
      failure, else the secondary's, else exhaustion. */
  function Precedence(p: Settled, q: Option<Settled>): Outcome {
    if p.Error? then Failed(p.code)
    else if q.Some? && q.value.Error? then Failed(q.value.code)
    else if p.Ok? && q.Some? && q.value.Ok? then Both(p.value, q.value.value)
    else OutOfBudget
  }

  function SettledSecondary(s: State): Option<Settled> {
    if s.secondary.Finished? then Some(s.secondary.outcome) else None
  }

  /** The secondary came to its own end, and that end is no success. */
  predicate SecondaryEndedBadly(b: Settled, s: State) {
    !b.Ok? && !s.secondary.Running? && s.secondary.outcome == b
  }

  predicate PrimaryEndedBadly(a: Settled, s: State) {
    !a.Ok? && s.primary == Some(a)
  }

  // ---- What the runner can come to ----

  /** The outcomes there are before the caller's own budget is spent, unless the wait for the secondary
      misses it: a failing primary loses to a secondary that does not succeed either and is first; an
      exhausted one to a failing secondary. */
  predicate CanEnd(a: Settled, b: Settled, r: Outcome) {
    match a
    case Ok(_) => r == Precedence(a, Some(b))
    case Error(e) => r == Failed(e) || (!b.Ok? && r == Precedence(Exhausted, Some(b)))
    case Exhausted => r == OutOfBudget || (b.Error? && r == Failed(b.code))
  }

  /** The wait misses the secondary when it settles after the wait timed out and before the handler looks:
      the caller then gets the timeout itself. */
  predicate Missed(a: Settled, r: Outcome) {
    a.Ok? && r == Failed(TIMEOUT)
  }

  predicate Inv(a: Settled, b: Settled, s: State) {
    && (s.primary.None? <==> s.caller.InPrimary?)
    && (s.primary.Some? ==> s.primary.value == a || s.primary.value.Exhausted?)
    && (!s.secondary.Running? ==> s.secondary.outcome == b || s.secondary.outcome.Exhausted?)
    && (s.secondary.Raising? ==> !s.secondary.outcome.Ok?)
    && (s.caller.Caught? || s.caller.Joining? ==> s.primary == Some(Exhausted))
    && (s.caller.Waiting? || s.caller.Polling? || s.caller.TimedOut? ==> s.primary.value.Ok?)
    && (s.caller.Returned? && !s.expired ==> CanEnd(a, b, s.caller.outcome) || Missed(a, s.caller.outcome))
    && (s.caller.Returned? && !s.caller.outcome.OutOfBudget? ==>
          || s.caller.outcome == Precedence(s.primary.value, SettledSecondary(s))
          || (Missed(a, s.caller.outcome) && s.secondary.Finished?))
    // The flag is set by a branch that did not succeed, and never by the caller while its handler has yet to test it.
    && (s.cancel && (s.primary.None? || s.caller.Caught? || s.caller.Joining?) ==>
          !s.secondary.Running? && !s.secondary.outcome.Ok?)
    && (s.caller.Joining? || (!s.secondary.Running? && !s.secondary.outcome.Ok?) ==> s.cancel)
    // Before the caller's budget is spent, a branch that did not succeed by itself is behind every interruption.
    && (!s.expired && s.cancel ==> PrimaryEndedBadly(a, s) || SecondaryEndedBadly(b, s))
    && (!s.expired && s.primary == Some(Exhausted) ==> a.Exhausted? || (SecondaryEndedBadly(b, s) && s.cancel))
    && (!s.expired && !s.secondary.Running? && s.secondary.outcome.Exhausted? ==>
          b.Exhausted? || PrimaryEndedBadly(a, s))
  }

  lemma StepInv(a: Settled, b: Settled, s: State, c: Choice)
    requires Inv(a, b, s)
    ensures Inv(a, b, Step(a, b, s, c))
  {
    hide Inv, AdvanceStep;
    match c
    case Expire => ExpireInv(a, b, s);
    case FinishPrimary(interrupted) => PrimaryInv(a, b, s, interrupted);
    case FinishSecondary(interrupted) => SecondaryInv(a, b, s, interrupted);
    case SettleSecondary => SettleInv(a, b, s);
    case Advance => AdvanceInv(a, b, s);
  }

  lemma ExpireInv(a: Settled, b: Settled, s: State)
    requires Inv(a, b, s)
    ensures Inv(a, b, Step(a, b, s, Expire))
  {
  }

  lemma PrimaryInv(a: Settled, b: Settled, s: State, interrupted: bool)
    requires Inv(a, b, s)
    ensures Inv(a, b, Step(a, b, s, FinishPrimary(interrupted)))
  {
  }

  lemma SecondaryInv(a: Settled, b: Settled, s: State, interrupted: bool)
    requires Inv(a, b, s)
    ensures Inv(a, b, Step(a, b, s, FinishSecondary(interrupted)))
  {
  }

  lemma SettleInv(a: Settled, b: Settled, s: State)
    requires Inv(a, b, s)
    ensures Inv(a, b, Step(a, b, s, SettleSecondary))
  {
  }

  lemma AdvanceInv(a: Settled, b: Settled, s: State)
    requires Inv(a, b, s)
    ensures Inv(a, b, Step(a, b, s, Advance))
  {
  }

  lemma {:induction false} RunInv(a: Settled, b: Settled, s: State, choices: seq<Choice>)
    requires Inv(a, b, s)
    ensures Inv(a, b, Run(a, b, s, choices))
    decreases |choices|
  {
    hide Inv, Step;
    if choices != [] {
      StepInv(a, b, s, choices[0]);
      RunInv(a, b, Step(a, b, s, choices[0]), choices[1..]);
    }
  }

  // ---- Theorems ----

  /** For every schedule, at the moment the runner returns: the outcome is the precedence over what the
      branches have settled to, or exhaustion because the caller's own budget is spent, or the timeout of a
      wait during whose handling the secondary settled. */
  lemma ReturnsThePrecedence(a: Settled, b: Settled, choices: seq<Choice>, c: Choice)
    ensures var s := Run(a, b, START, choices);
            var t := Step(a, b, s, c);
            !s.caller.Returned? && t.caller.Returned? ==>
              && t.primary.Some?
              && (|| t.caller.outcome == Precedence(t.primary.value, SettledSecondary(t))
                  || (s.expired && t.caller.outcome.OutOfBudget?)
                  || (s.caller.TimedOut? && s.secondary.Finished? && t.caller.outcome == Failed(TIMEOUT)))
              && (t.caller.outcome.OutOfBudget? ==> s.expired || a.Exhausted? || b.Exhausted?)
  {
    hide Run;
    assert Inv(a, b, START);
    RunInv(a, b, START, choices);
  }

  /** The handler that blocks on the secondary's exception never blocks on a branch still at work. */
  lemma JoinNeverWaitsForWork(a: Settled, b: Settled, choices: seq<Choice>)
    ensures var s := Run(a, b, START, choices);
            s.caller.Joining? ==> !s.secondary.Running? && !s.secondary.outcome.Ok?
  {
    hide Run;
    assert Inv(a, b, START);
    RunInv(a, b, START, choices);
  }

  /** The schedule ends before the caller's budget is spent, with this outcome. */
  predicate EndsWith(a: Settled, b: Settled, choices: seq<Choice>, r: Outcome) {
    var s := Run(a, b, START, choices);
    !s.expired && s.caller == Returned(r)
  }

  /** No wait is handled with the secondary settled in the meantime. */
  predicate NothingMissed(a: Settled, b: Settled, s: State, choices: seq<Choice>)
    decreases |choices|
  {
    choices == [] ||
    (&& !(choices[0].Advance? && s.caller.TimedOut? && s.secondary.Finished?)
     && NothingMissed(a, b, Step(a, b, s, choices[0]), choices[1..]))
  }

  /** The schedule ends before the caller's budget is spent, with this outcome, and no wait is missed. */
  predicate EndsClean(a: Settled, b: Settled, choices: seq<Choice>, r: Outcome) {
    EndsWith(a, b, choices, r) && NothingMissed(a, b, START, choices)
  }

  lemma RunSnoc(a: Settled, b: Settled, s: State, choices: seq<Choice>, c: Choice)
    ensures Run(a, b, s, choices + [c]) == Step(a, b, Run(a, b, s, choices), c)
    decreases |choices|
  {
    hide Step;
    if choices == [] {
      assert [c][1..] == [] && choices + [c] == [c];
    } else {
      assert (choices + [c])[1..] == choices[1..] + [c];
      RunSnoc(a, b, Step(a, b, s, choices[0]), choices[1..], c);
    }
  }

  lemma RunTwo(a: Settled, b: Settled, c: Choice, d: Choice)
    ensures Run(a, b, START, [c] + [d]) == Step(a, b, Step(a, b, START, c), d)
    ensures Run(a, b, START, [c]) == Step(a, b, START, c)
  {
    hide Step;
    assert [] + [c] == [c];
    RunSnoc(a, b, START, [], c);
    RunSnoc(a, b, START, [c], d);
  }

  /** The primary ends first; the secondary after it, before the caller waits. */
  lemma PrimaryFirst(a: Settled, b: Settled) returns (choices: seq<Choice>)
    ensures a.Ok? ==> EndsClean(a, b, choices, Precedence(a, Some(b)))
  {
    hide Step;
    var waits := State(Waiting, Some(a), Finished(b), !b.Ok?, false);
    var e := [FinishPrimary(false), FinishSecondary(false), SettleSecondary];
    if !a.Ok? {
      return e;
    }
    SettledFirst(a, b);
    var s1 := Step(a, b, START, e[0]);
    var s2 := Step(a, b, s1, e[1]);
    choices := e + [Advance, Advance];
    assert choices[1..] == [e[1], e[2], Advance, Advance] && choices[1..][1..] == [e[2], Advance, Advance]
        && [e[2], Advance, Advance][1..] == [Advance, Advance] && [Advance, Advance][1..] == [Advance]
        && [Advance][1..] == [];
    var end := Step(a, b, Step(a, b, waits, Advance), Advance);
    assert Run(a, b, Step(a, b, waits, Advance), [Advance]) == end;
    assert Run(a, b, waits, [Advance, Advance]) == end;
    assert Run(a, b, s2, [e[2], Advance, Advance]) == end;
    assert Run(a, b, s1, choices[1..]) == end;
    assert NothingMissed(a, b, Step(a, b, waits, Advance), [Advance]);
    assert NothingMissed(a, b, waits, [Advance, Advance]);
    assert NothingMissed(a, b, s2, [e[2], Advance, Advance]);
    assert NothingMissed(a, b, s1, choices[1..]);
  }

  lemma SettledFirst(a: Settled, b: Settled)
    requires a.Ok?
    ensures var s1 := Step(a, b, START, FinishPrimary(false));
            var s2 := Step(a, b, s1, FinishSecondary(false));
            var s3 := Step(a, b, s2, SettleSecondary);
            var s4 := Step(a, b, s3, Advance);
            && s1.caller.Waiting? && s2.caller.Waiting? && s3 == State(Waiting, Some(a), Finished(b), !b.Ok?, false)
            && s4.caller.Polling? && Step(a, b, s4, Advance).caller == Returned(Precedence(a, Some(b)))
            && !Step(a, b, s4, Advance).expired
  {
  }

  /** The primary ends, unsuccessfully, before anything else happens. */
  lemma PrimaryAlone(a: Settled, b: Settled) returns (choices: seq<Choice>)
    ensures !a.Ok? ==> EndsWith(a, b, choices, Precedence(a, None))
  {
    hide Run;
    choices := [FinishPrimary(false)] + [Advance];
    RunTwo(a, b, FinishPrimary(false), Advance);
  }

  /** The secondary ends, unsuccessfully, and the primary gives up on the flag. */
  lemma SecondaryFirst(a: Settled, b: Settled) returns (choices: seq<Choice>)
    ensures !b.Ok? ==> EndsWith(a, b, choices, Precedence(Exhausted, Some(b)))
  {
    hide Run;
    choices := [FinishSecondary(false)] + [FinishPrimary(true)];
    RunTwo(a, b, FinishSecondary(false), FinishPrimary(true));
    RunSnoc(a, b, START, choices, Advance);
    choices := choices + [Advance];
    RunSnoc(a, b, START, choices, SettleSecondary);
    choices := choices + [SettleSecondary];
    RunSnoc(a, b, START, choices, Advance);
    choices := choices + [Advance];
  }

  /** The secondary settles between the timeout of the caller's wait and the handler's look at it. */
  lemma SettlesInTheGap(a: Settled, b: Settled) returns (choices: seq<Choice>)
    ensures a.Ok? ==> EndsWith(a, b, choices, Failed("TimeoutError"))
  {
    hide Run;
    choices := [FinishPrimary(false)] + [Advance];
    RunTwo(a, b, FinishPrimary(false), Advance);
    RunSnoc(a, b, START, choices, Advance);
    choices := choices + [Advance];
    RunSnoc(a, b, START, choices, FinishSecondary(false));
    choices := choices + [FinishSecondary(false)];
    RunSnoc(a, b, START, choices, SettleSecondary);
    choices := choices + [SettleSecondary];
    RunSnoc(a, b, START, choices, Advance);
    choices := choices + [Advance];
  }

  /** Exactly what the runner can come to, for every pair of ends its branches have by themselves. */
  lemma OutcomesExactly(a: Settled, b: Settled, r: Outcome)
    ensures (exists choices :: EndsWith(a, b, choices, r)) <==> CanEnd(a, b, r) || Missed(a, r)
  {
    hide EndsWith;
    forall choices | EndsWith(a, b, choices, r)
      ensures CanEnd(a, b, r) || Missed(a, r)
    {
      EndsInv(a, b, choices, r);
    }
    if CanEnd(a, b, r) || Missed(a, r) {
      var c := PrimaryFirst(a, b);
      var d := PrimaryAlone(a, b);
      var e := SecondaryFirst(a, b);
      var f := SettlesInTheGap(a, b);
      assert EndsWith(a, b, c, r) || EndsWith(a, b, d, r) || EndsWith(a, b, e, r) || EndsWith(a, b, f, r);
    }
  }

  lemma EndsInv(a: Settled, b: Settled, choices: seq<Choice>, r: Outcome)
    requires EndsWith(a, b, choices, r)
    ensures CanEnd(a, b, r) || Missed(a, r)
  {
    hide Run;
    assert Inv(a, b, START);
    RunInv(a, b, START, choices);
  }

  /** The runner's documentation promises the same code whichever branch settles first.  Over all schedules
      it keeps that promise exactly when a failing primary faces a success or its own code, an exhausted one
      anything but a failure, and a successful one the very timeout its wait may raise. */
  lemma SameOutcomeExactlyWhen(a: Settled, b: Settled)
    ensures (forall c, d, q, r :: EndsWith(a, b, c, q) && EndsWith(a, b, d, r) ==> q == r) <==>
            || (a.Error? && (b.Ok? || b == Error(a.code)))
            || (a.Exhausted? && !b.Error?)
            || (a.Ok? && b == Error(TIMEOUT))
  {
    hide EndsWith;
    var first := PrimaryFirst(a, b);
    var alone := PrimaryAlone(a, b);
    var second := SecondaryFirst(a, b);
    var gap := SettlesInTheGap(a, b);
    forall c, q | EndsWith(a, b, c, q)
      ensures CanEnd(a, b, q) || Missed(a, q)
    {
      EndsInv(a, b, c, q);
    }
    assert a.Ok? ==> Precedence(a, Some(b)) != Failed(TIMEOUT) || b == Error(TIMEOUT);
  }

  // ---- Without missed waits ----

  lemma {:induction false} CleanRun(a: Settled, b: Settled, s: State, choices: seq<Choice>)
    requires Inv(a, b, s) && NothingMissed(a, b, s, choices)
    requires s.caller.Returned? && !s.expired ==> CanEnd(a, b, s.caller.outcome)
    ensures var t := Run(a, b, s, choices);
            t.caller.Returned? && !t.expired ==> CanEnd(a, b, t.caller.outcome)
    decreases |choices|
  {
    hide Inv, Step;
    if choices != [] {
      StepInv(a, b, s, choices[0]);
      CleanStep(a, b, s, choices[0]);
      CleanRun(a, b, Step(a, b, s, choices[0]), choices[1..]);
    }
  }

  lemma CleanStep(a: Settled, b: Settled, s: State, c: Choice)
    requires Inv(a, b, s) && !(c.Advance? && s.caller.TimedOut? && s.secondary.Finished?)
    requires s.caller.Returned? && !s.expired ==> CanEnd(a, b, s.caller.outcome)
    ensures var t := Step(a, b, s, c);
            t.caller.Returned? && !t.expired ==> CanEnd(a, b, t.caller.outcome)
  {
  }

  /** Only a successful primary waits, so otherwise nothing is missed. */
  lemma {:induction false} NothingToMiss(a: Settled, b: Settled, s: State, choices: seq<Choice>)
    requires Inv(a, b, s) && !a.Ok?
    ensures NothingMissed(a, b, s, choices)
    decreases |choices|
  {
    hide Step;
    if choices != [] {
      StepInv(a, b, s, choices[0]);
      NothingToMiss(a, b, Step(a, b, s, choices[0]), choices[1..]);
    }
  }

  /** Exactly what the runner can come to when no wait is missed. */
  lemma CleanOutcomesExactly(a: Settled, b: Settled, r: Outcome)
    ensures (exists choices :: EndsClean(a, b, choices, r)) <==> CanEnd(a, b, r)
  {
    hide EndsWith, NothingMissed;
    assert Inv(a, b, START);
    forall choices | EndsClean(a, b, choices, r)
      ensures CanEnd(a, b, r)
    {
      CleanEnd(a, b, choices, r);
    }
    if CanEnd(a, b, r) {
      if a.Ok? {
        var c := PrimaryFirst(a, b);
      } else {
        var c := PrimaryAlone(a, b);
        var d := SecondaryFirst(a, b);
        NothingToMiss(a, b, START, c);
        NothingToMiss(a, b, START, d);
        assert EndsClean(a, b, c, r) || EndsClean(a, b, d, r);
      }
    }
  }

  lemma CleanEnd(a: Settled, b: Settled, choices: seq<Choice>, r: Outcome)
    requires EndsClean(a, b, choices, r)
    ensures CanEnd(a, b, r)
  {
    hide Run, NothingMissed;
    assert Inv(a, b, START);
    CleanRun(a, b, START, choices);
  }

  /** Then the promise of one code is kept, over every pair of schedules, exactly when no failing primary
      faces a different failure or an exhaustion, and no exhausted one a failure; success never depends on the
      schedule. */
  lemma SameCodeExactlyWhen(a: Settled, b: Settled)
    ensures (forall c, d, q, r :: EndsClean(a, b, c, q) && EndsClean(a, b, d, r) ==> q == r) <==>
            !(|| (a.Error? && (b.Exhausted? || (b.Error? && b.code != a.code)))
              || (a.Exhausted? && b.Error?))
  {
    hide EndsClean;
    forall c, q | EndsClean(a, b, c, q)
      ensures CanEnd(a, b, q)
    {
      CleanEnd(a, b, c, q);
    }
    CleanOutcomesExactly(a, b, Precedence(a, None));
    CleanOutcomesExactly(a, b, Precedence(Exhausted, Some(b)));
  }

  // ---- A spent budget ----

  /** Once the caller's own budget is spent before it has checked it, no results come out. */
  predicate TooLate(s: State) {
    s.expired && !s.caller.Polling? && !(s.caller.Returned? && s.caller.outcome.Both?)
  }

  lemma StepTooLate(a: Settled, b: Settled, s: State, c: Choice)
    requires TooLate(s)
    ensures TooLate(Step(a, b, s, c))
  {
  }

  /** From the moment the caller's budget is spent, unless it has just checked it, every continuation ends
      without results; a wait that checks it ends in exhaustion at once, and a branch that returns after that
      moment counts as exhausted. */
  lemma {:induction false} SpentBudgetGivesNoResults(a: Settled, b: Settled, s: State, choices: seq<Choice>)
    requires s.expired && !s.caller.Polling? && !(s.caller.Returned? && s.caller.outcome.Both?)
    ensures var t := Run(a, b, s, choices);
            !(t.caller.Returned? && t.caller.outcome.Both?)
    ensures s.caller.Waiting? ==> Step(a, b, s, Advance).caller == Returned(OutOfBudget)
    ensures s.caller.InPrimary? && a.Ok? ==>
              Step(a, b, s, FinishPrimary(false)).primary == Some(Exhausted)
    ensures s.secondary.Running? && b.Ok? ==>
              Step(a, b, s, FinishSecondary(false)).secondary == Raising(Exhausted)
  {
    hide Run, Step;
    RunTooLate(a, b, s, choices);
    LateSteps(a, b, s);
  }

  lemma {:induction false} RunTooLate(a: Settled, b: Settled, s: State, choices: seq<Choice>)
    requires TooLate(s)
    ensures TooLate(Run(a, b, s, choices))
    decreases |choices|
  {
    hide TooLate, Step;
    if choices != [] {
      StepTooLate(a, b, s, choices[0]);
      RunTooLate(a, b, Step(a, b, s, choices[0]), choices[1..]);
    }
  }

  lemma LateSteps(a: Settled, b: Settled, s: State)
    requires s.expired
    ensures s.caller.Waiting? ==> Step(a, b, s, Advance).caller == Returned(OutOfBudget)
    ensures s.caller.InPrimary? && a.Ok? ==>
              Step(a, b, s, FinishPrimary(false)).primary == Some(Exhausted)
    ensures s.secondary.Running? && b.Ok? ==>
              Step(a, b, s, FinishSecondary(false)).secondary == Raising(Exhausted)
  {
  }

  // ---- Ending ----

  function Advances(choices: seq<Choice>): nat {
    if choices == [] then 0 else (if choices[0].Advance? then 1 else 0) + Advances(choices[1..])
  }

  function StepsToReturn(c: Caller): nat {
    match c
    case InPrimary => 3
    case Caught => 2
    case Joining => 1
    case Waiting => 2
    case Polling => 1
    case TimedOut => 1
    case Returned(_) => 0
  }

  /** Once both branches have settled, every continuation in which the caller takes two steps ends. */
  lemma {:induction false} RunnerAlwaysEnds(a: Settled, b: Settled, s: State, choices: seq<Choice>)
    requires Inv(a, b, s) && s.primary.Some? && s.secondary.Finished? && Advances(choices) >= StepsToReturn(s.caller)
    ensures Run(a, b, s, choices).caller.Returned?
    decreases |choices|
  {
    hide Inv, Step;
    if choices != [] {
      StepInv(a, b, s, choices[0]);
      SettledStep(a, b, s, choices[0]);
      RunnerAlwaysEnds(a, b, Step(a, b, s, choices[0]), choices[1..]);
    } else {
      SettledStep(a, b, s, Advance);
    }
  }

  lemma SettledStep(a: Settled, b: Settled, s: State, c: Choice)
    requires Inv(a, b, s) && s.primary.Some? && s.secondary.Finished?
    ensures var t := Step(a, b, s, c);
            && t.primary.Some? && t.secondary.Finished? && StepsToReturn(s.caller) <= 2
            && StepsToReturn(t.caller) <= StepsToReturn(s.caller)
            && (c.Advance? && !s.caller.Returned? ==> StepsToReturn(t.caller) < StepsToReturn(s.caller))
            && (StepsToReturn(s.caller) == 0 ==> s.caller.Returned?)
  {
  }

  /** `wait_for_verification`: check the caller's own budget, wait for the future, and on a timeout poll
      again unless the future is done.  The future settles after that many waits timed out, in the gap
      after the last of them or not; the budget is spent from poll `expiresAfter` on.  An own exception of
      the future that is a timeout comes out as such. */
  method WaitForVerification(outcome: Settled, settlesAfter: nat, inGap: bool, expiresAfter: Option<nat>)
      returns (r: Settled)
    ensures r == if expiresAfter.Some?
            && expiresAfter.value <= (if inGap && settlesAfter > 0 then settlesAfter - 1 else settlesAfter)
                 then Exhausted
                 else if inGap && settlesAfter > 0 then Error(TIMEOUT) else outcome
  {
    var polls := 0;
    while true
      invariant polls <= settlesAfter && (inGap && settlesAfter > 0 ==> polls < settlesAfter)
      invariant expiresAfter.Some? ==> polls <= expiresAfter.value
      decreases settlesAfter - polls
    {
      if expiresAfter.Some? && polls >= expiresAfter.value {
        return Exhausted;
      }
      var timedOut := polls < settlesAfter;
      var raised := if timedOut then Error(TIMEOUT) else outcome;
      polls := polls + 1;
      if raised == Error(TIMEOUT) {
        var done := !timedOut || (inGap && polls == settlesAfter);
        if done {
          return raised;
        }
      } else {
        return raised;
      }
    }
  }

  /** What the wait comes to, from `s` to `v`: exhaustion if the budget is spent by the round in which the
      secondary is seen; the timeout if that is missed in the gap; otherwise the precedence. */
  function WaitComesTo(a: Settled, s: State, settlesAfter: nat, inGap: bool, expiresAfter: Option<nat>,
                       v: State): Outcome
  {
    var missed := !s.secondary.Finished? && inGap && settlesAfter > 0;
    var last := if s.secondary.Finished? then 0 else if missed then settlesAfter - 1 else settlesAfter;
    if s.expired || (expiresAfter.Some? && expiresAfter.value <= last) then OutOfBudget
    else if missed then Failed(TIMEOUT)
    else Precedence(a, SettledSecondary(v))
  }

  // ---- The runner's code ----

  /** `run_concurrently`, its two threads sharing the flag and the secondary's future. */
  class TwoBranchRunner {
    const a: Settled
    const b: Settled
    var caller: Caller
    var primary: Option<Settled>
    var secondary: Secondary
    var cancel: bool
    var expired: bool

    function View(): State
      reads this
    {
      State(caller, primary, secondary, cancel, expired)
    }

    ghost predicate Valid()
      reads this
    {
      Inv(a, b, View())
    }

    constructor (a: Settled, b: Settled)
      ensures this.a == a && this.b == b && View() == START && Valid()
    {
      this.a, this.b := a, b;
      caller, primary, secondary, cancel, expired := InPrimary, None, Running, false, false;
    }

    /** The helper thread: the flag is set before the exception reaches the future. */
    method GuardedSecondary(interrupted: bool)
      requires Valid() && secondary.Running?
      modifies this
      ensures View() == Step(a, b, Step(a, b, old(View()), FinishSecondary(interrupted)), SettleSecondary)
      ensures Valid() && secondary.Finished? && (secondary.outcome.Ok? || cancel)
      ensures !expired && secondary.outcome != b ==> PrimaryEndedBadly(a, View())
    {
      ghost var s := View();
      StepInv(a, b, s, FinishSecondary(interrupted));
      StepInv(a, b, Step(a, b, s, FinishSecondary(interrupted)), SettleSecondary);
      var outcome := Guard(b, interrupted, cancel || expired);
      if !outcome.Ok? {
        cancel := true;
        secondary := Raising(outcome);
      }
      secondary := Finished(outcome);
    }

    /** The caller's thread through the primary branch and its two handlers, up to the first point at
        which it has to wait for the secondary; if it returns there, its own branch did not succeed. */
    method PrimaryBranch(interrupted: bool)
      requires Valid() && caller.InPrimary?
      modifies this
      ensures var s := Step(a, b, old(View()), FinishPrimary(interrupted));
              View() == if s.caller.Caught? then Step(a, b, s, Advance) else s
      ensures Valid() && (caller.Waiting? || caller.Joining? || caller.Returned?)
      ensures caller.Returned? && !expired ==> !a.Ok? && caller.outcome == Precedence(a, None)
    {
      ghost var s := View();
      StepInv(a, b, s, FinishPrimary(interrupted));
      StepInv(a, b, Step(a, b, s, FinishPrimary(interrupted)), Advance);
      var outcome := Guard(a, interrupted, cancel || expired);
      primary := Some(outcome);
      match outcome
      case Ok(_) =>
        caller := Waiting;
      case Exhausted =>
        if cancel {
          caller := Joining;
        } else {
          cancel := true;
          caller := Returned(OutOfBudget);
        }
      case Error(e) =>
        cancel := true;
        caller := Returned(Failed(e));
    }

    /** What another thread does: the secondary, if it is still at work, comes to its end and settles. */
    method SettleSecondaryNow(interrupted: bool)
      requires Valid()
      modifies this
      ensures View() == Step(a, b, Step(a, b, old(View()), FinishSecondary(interrupted)), SettleSecondary)
      ensures Valid() && secondary.Finished? && caller == old(caller) && primary == old(primary)
      ensures expired == old(expired) && (old(secondary).Finished? ==> secondary == old(secondary))
    {
      ghost var s := View();
      if secondary.Running? {
        GuardedSecondary(interrupted);
      } else if secondary.Raising? {
        StepInv(a, b, s, SettleSecondary);
        secondary := Finished(secondary.outcome);
      }
    }

    /** One round of the caller's wait: its budget is checked, the poll returns what the secondary settled to
        or times out; after a timeout the secondary is looked at once more. */
    method Poll(inGap: bool, interrupted: bool) returns (ghost choices: seq<Choice>)
      requires Valid() && caller.Waiting?
      modifies this
      ensures Valid() && View() == Run(a, b, old(View()), choices) && expired == old(expired)
      ensures caller == if expired then Returned(OutOfBudget)
                        else if old(secondary).Finished? then Returned(Precedence(a, SettledSecondary(View())))
                        else if inGap then Returned(Failed(TIMEOUT)) else Waiting
      ensures caller.Waiting? ==> secondary == old(secondary)
    {
      hide Run;
      ghost var s := View();
      choices := [Advance];
      assert Run(a, b, s, []) == s && [] + [Advance] == [Advance] by { RunNothing(a, b, s); }
      RunSnoc(a, b, s, [], Advance);
      StepInv(a, b, s, Advance);
      if expired {
        caller := Returned(OutOfBudget);
        return;
      }
      ghost var polling := Step(a, b, s, Advance);
      RunSnoc(a, b, s, choices, Advance);
      StepInv(a, b, polling, Advance);
      choices := choices + [Advance];
      if secondary.Finished? {
        match secondary.outcome {
          case Ok(u) => caller := Returned(Both(primary.value.value, u));
          case Error(e) => caller := Returned(Failed(e));
          case Exhausted => caller := Returned(OutOfBudget);
        }
        return;
      }
      caller := TimedOut;
      if inGap {
        SettleSecondaryNow(interrupted);
        RunSnoc(a, b, s, choices, FinishSecondary(interrupted));
        choices := choices + [FinishSecondary(interrupted)];
        RunSnoc(a, b, s, choices, SettleSecondary);
        choices := choices + [SettleSecondary];
      }
      RunSnoc(a, b, s, choices, Advance);
      StepInv(a, b, View(), Advance);
      choices := choices + [Advance];
      caller := if secondary.Finished? then Returned(Failed(TIMEOUT)) else Waiting;
    }

    /** The caller's wait.  The secondary settles after that many rounds, in the gap after the last timeout or
        not, unless it has settled before; the caller's budget is spent from round `expiresAfter` on. */
    method JoinSecondary(settlesAfter: nat, inGap: bool, interrupted: bool, expiresAfter: Option<nat>)
        returns (ghost choices: seq<Choice>)
      requires Valid() && caller.Waiting?
      modifies this
      ensures Valid() && View() == Run(a, b, old(View()), choices)
      ensures caller == Returned(WaitComesTo(a, old(View()), settlesAfter, inGap, expiresAfter, View()))
    {
      hide Run, Inv, Step, Precedence;
      ghost var s := View();
      choices := [];
      RunNothing(a, b, s);
      var rounds := 0;
      while caller.Waiting?
        invariant Valid() && View() == Run(a, b, s, choices) && rounds <= settlesAfter
        invariant !caller.Waiting? ==>
                    caller == Returned(WaitComesTo(a, s, settlesAfter, inGap, expiresAfter, View()))
        invariant caller.Waiting? ==>
                    && secondary.Finished? == s.secondary.Finished? && (s.secondary.Finished? ==> rounds == 0)
                    && (inGap && settlesAfter > 0 ==> rounds < settlesAfter)
                    && expired == (s.expired || (expiresAfter.Some? && expiresAfter.value < rounds))
        decreases caller.Waiting?, settlesAfter - rounds
      {
        if expiresAfter == Some(rounds) {
          ExpireInv(a, b, View());
          RunSnoc(a, b, s, choices, Expire);
          Expires(a, b, View());
          expired := true;
          choices := choices + [Expire];
        }
        if rounds == settlesAfter {
          RunFurther(a, b, s, choices, [FinishSecondary(interrupted), SettleSecondary]);
          SettleSecondaryNow(interrupted);
          choices := choices + [FinishSecondary(interrupted), SettleSecondary];
        }
        ghost var before := choices;
        choices := Poll(inGap && rounds + 1 == settlesAfter, interrupted);
        RunFurther(a, b, s, before, choices);
        choices := before + choices;
        rounds := if rounds < settlesAfter then rounds + 1 else rounds;
      }
    }
  }

  lemma RunFurther(a: Settled, b: Settled, s: State, x: seq<Choice>, y: seq<Choice>)
    ensures Run(a, b, s, x + y) == Run(a, b, Run(a, b, s, x), y)
    ensures |y| == 2 ==> Run(a, b, s, x + y) == Step(a, b, Step(a, b, Run(a, b, s, x), y[0]), y[1])
    decreases |y|
  {
    hide Run, Step;
    if y == [] {
      assert x + y == x;
      RunNothing(a, b, Run(a, b, s, x));
    } else {
      var z, c := y[..|y| - 1], y[|y| - 1];
      assert y == z + [c] && x + y == (x + z) + [c];
      RunFurther(a, b, s, x, z);
      RunSnoc(a, b, s, x + z, c);
      RunSnoc(a, b, Run(a, b, s, x), z, c);
      if |y| == 2 {
        assert z == [] + [y[0]];
        RunSnoc(a, b, Run(a, b, s, x), [], y[0]);
        RunNothing(a, b, Run(a, b, s, x));
      }
    }
  }

  lemma Expires(a: Settled, b: Settled, s: State)
    ensures Step(a, b, s, Expire) == s.(expired := true)
  {
  }

  lemma RunNothing(a: Settled, b: Settled, s: State)
    ensures Run(a, b, s, []) == s
  {
  }
}
