/** What calls get, and what the regions that decide it do: a not-ACTIVE status evicts the domain and fails
    everyone who waits for it, an explicit refresh never returns what was there before, and how each region
    answers. */
module CoordinationAnswers {
  import opened Options
  import opened Coordination
  import opened CoordinationSafety
  import opened CoordinationTheorems

  // ---- What a step leaves alone ----

  /** The work of a future touches no call, no other future but to create one, and never brings a future back
      that is gone. */
  lemma WorkFrame(s: State, f: Fid, ttl: nat, now: int, active: bool, stale: bool)
    requires f < |s.futures|
    ensures var t := WorkStep(s, f, ttl, now, active, stale);
            && t.calls == s.calls && |s.futures| <= |t.futures|
            && (forall g | 0 <= g < |s.futures| && g != f :: t.futures[g] == s.futures[g])
            && t.futures[f].kind == s.futures[f].kind
            && (Gone(s.futures[f].phase) ==> Gone(t.futures[f].phase))
  {
    hide StatusStep;
    if !s.futures[f].phase.Settled? && !s.futures[f].phase.Removed? {
      WorkHasEffect(s, f, ttl, now, active, stale);
      StatusFrame(s, f, now, active, stale);
    }
  }

  lemma StatusFrame(s: State, f: Fid, now: int, active: bool, stale: bool)
    requires f < |s.futures|
    ensures StatusStep(s, f, now, active, stale).calls == s.calls
  {
  }

  /** The step of a call touches no other call and only creates futures. */
  lemma CallFrame(s: State, i: nat, statusFresh: bool)
    requires i < |s.calls|
    ensures var t := CallStep(s, i, statusFresh);
            && |t.calls| == |s.calls| && (forall j | 0 <= j < |s.calls| && j != i :: t.calls[j] == s.calls[j])
            && t.calls[i].refresh == s.calls[i].refresh && s.futures <= t.futures
  {
    hide Reuse, Lead;
    match s.calls[i].pc
    case Entered => LeadFrame(s, i, WantRefresh, false);
    case Coalescing(w) => LeadFrame(s, i, w, true);
    case Claiming(w) => LeadFrame(s, i, w, false);
    case SyncJoined(f) => if IsSettled(s, f) { ReuseFrame(s, i, f, Coalescing(WantLookup)); }
    case CoalesceJoined(w, f) => if IsSettled(s, f) { ReuseFrame(s, i, f, Forgetting(w, f)); }
    case AsyncJoined(f) =>
      LeadFrame(s, i, WantPrivate(s.calls[i].refresh), false);
      if IsSettled(s, f) { ReuseFrame(s, i, f, Raised); }
    case _ =>
  }

  lemma LeadFrame(s: State, i: nat, w: Want, sync: bool)
    requires i < |s.calls|
    ensures var t := Lead(s, i, w, sync);
            && |t.calls| == |s.calls| && (forall j | 0 <= j < |s.calls| && j != i :: t.calls[j] == s.calls[j])
            && t.calls[i].refresh == s.calls[i].refresh && t.calls[i].pc == Leading(|s.futures|)
            && s.futures <= t.futures && |t.futures| == |s.futures| + 1 && t.futures[|s.futures|].kind == KindOf(w)
  {
  }

  lemma ReuseFrame(s: State, i: nat, f: Fid, onZeroTtl: CallPc)
    requires i < |s.calls| && IsSettled(s, f)
    ensures var t := Reuse(s, i, f, onZeroTtl);
            && |t.calls| == |s.calls| && (forall j | 0 <= j < |s.calls| && j != i :: t.calls[j] == s.calls[j])
            && t.calls[i].refresh == s.calls[i].refresh && t.futures == s.futures
  {
  }

  // ---- Failed work ----

  /** The work of this future has come to this outcome. */
  predicate CameTo(w: Future, o: Outcome) {
    w.phase == Finishing(o) || w.phase == Tracked(o) || w.phase == Removed(o) || w.phase == Settled(o)
  }

  /** The call takes its answer from this future. */
  predicate WaitsOn(pc: CallPc, f: Fid) {
    pc == SyncJoined(f) || (pc.CoalesceJoined? && pc.future == f) || pc == AsyncJoined(f) || pc == Leading(f)
  }

  predicate FailsCall(s: State, f: Fid, o: Outcome, i: nat, pc: CallPc) {
    && f < |s.futures| && CameTo(s.futures[f], o) && !o.Verified? && WaitsOn(pc, f)
    && i < |s.calls| && (s.calls[i].pc == pc || s.calls[i].pc.Raised?)
  }

  lemma StepFails(s: State, f: Fid, o: Outcome, i: nat, pc: CallPc, c: Choice)
    requires FailsCall(s, f, o, i, pc)
    ensures FailsCall(Step(s, c), f, o, i, pc)
  {
    hide CallStep, WorkStep, FailsCall;
    TickFails(s, f, o, i, pc);
    var s1 := s.(clock := s.clock + 1);
    match c
    case WorkSteps(g, ttl, now, active, stale) =>
      if g < |s.futures| { WorkStepFails(s1, f, o, i, pc, g, ttl, now, active, stale); }
    case CallSteps(j, statusFresh) =>
      if j < |s.calls| { CallStepFails(s1, f, o, i, pc, j, statusFresh); }
    case _ => OtherStepFails(s, f, o, i, pc, c);
  }

  lemma TickFails(s: State, f: Fid, o: Outcome, i: nat, pc: CallPc)
    requires FailsCall(s, f, o, i, pc)
    ensures FailsCall(s.(clock := s.clock + 1), f, o, i, pc)
  {
  }

  lemma WorkStepFails(s: State, f: Fid, o: Outcome, i: nat, pc: CallPc, g: Fid, ttl: nat, now: int, active: bool,
                      stale: bool)
    requires FailsCall(s, f, o, i, pc) && g < |s.futures|
    ensures FailsCall(WorkStep(s, g, ttl, now, active, stale), f, o, i, pc)
  {
    hide WorkStep, CameTo, WaitsOn;
    WorkFrame(s, g, ttl, now, active, stale);
    if g == f {
      StaysFailed(s, f, o, ttl, now, active, stale);
    }
  }

  lemma CallStepFails(s: State, f: Fid, o: Outcome, i: nat, pc: CallPc, j: nat, statusFresh: bool)
    requires FailsCall(s, f, o, i, pc) && j < |s.calls|
    ensures FailsCall(CallStep(s, j, statusFresh), f, o, i, pc)
  {
    hide CallStep, CameTo, WaitsOn;
    CallFrame(s, j, statusFresh);
    if j == i {
      CallFails(s, f, o, i, pc, statusFresh);
    }
  }

  lemma OtherStepFails(s: State, f: Fid, o: Outcome, i: nat, pc: CallPc, c: Choice)
    requires FailsCall(s, f, o, i, pc) && !c.WorkSteps? && !c.CallSteps?
    ensures FailsCall(Step(s, c), f, o, i, pc)
  {
    hide CameTo, WaitsOn;
    NotWorking(s.futures[f], o);
  }

  lemma NotWorking(w: Future, o: Outcome)
    requires CameTo(w, o)
    ensures !Working(w.phase)
  {
  }

  lemma StaysFailed(s: State, f: Fid, o: Outcome, ttl: nat, now: int, active: bool, stale: bool)
    requires f < |s.futures| && CameTo(s.futures[f], o)
    ensures var t := WorkStep(s, f, ttl, now, active, stale);
            f < |t.futures| && CameTo(t.futures[f], o)
  {
    hide StatusStep;
  }

  lemma CallFails(s: State, f: Fid, o: Outcome, i: nat, pc: CallPc, statusFresh: bool)
    requires FailsCall(s, f, o, i, pc)
    ensures var t := CallStep(s, i, statusFresh);
            |t.calls| == |s.calls| && (t.calls[i].pc == s.calls[i].pc || t.calls[i].pc.Raised?)
  {
    hide EnterStep, LookStep, CoalesceStep, ClaimStep, ForgetStep;
  }

  lemma {:induction false} RunFails(s: State, f: Fid, o: Outcome, i: nat, pc: CallPc, choices: seq<Choice>)
    requires FailsCall(s, f, o, i, pc)
    ensures FailsCall(Run(s, choices), f, o, i, pc)
    decreases |choices|
  {
    hide FailsCall, Step;
    if choices != [] {
      StepFails(s, f, o, i, pc, choices[0]);
      RunFails(Step(s, choices[0]), f, o, i, pc, choices[1..]);
    }
  }

  /** Work that failed fails everyone: once a future has come to an error, a call that takes its answer from it,
      as leader or having joined, never returns evidence; in every continuation it still waits or has raised. */
  lemma FailedWorkServesNobody(s: State, f: Fid, o: Outcome, i: nat, choices: seq<Choice>)
    requires f < |s.futures| && CameTo(s.futures[f], o) && !o.Verified?
    requires i < |s.calls| && WaitsOn(s.calls[i].pc, f)
    ensures var v := Run(s, choices);
            i < |v.calls| && (v.calls[i].pc == s.calls[i].pc || v.calls[i].pc.Raised?)
  {
    hide Run;
    RunFails(s, f, o, i, s.calls[i].pc, choices);
  }

  // ---- A status that is not ACTIVE ----

  /** The registry's answer to a status refresh: not ACTIVE empties the cache and fails the work with
      STATUS_NOT_ACTIVE; ACTIVE goes on to swap in the same evidence with the new check time. */
  lemma StatusAnswer(s: State, f: Fid, ttl: nat, now: int, active: bool, stale: bool)
    requires f < |s.futures| && s.futures[f].phase.Fetching?
    ensures var t := Step(s, WorkSteps(f, ttl, now, active, stale));
            && f < |t.futures|
            && (!active ==> t.cache == None && t.futures[f].phase == Finishing(VerificationError(true)))
            && (active ==>
                  var latest := s.futures[f].phase.latest;
                  t.cache == s.cache && t.futures[f].phase == Swapping(latest, latest.(checkedAt := now)))
  {
  }

  /** In every run: when the registry answers not ACTIVE the domain is evicted, whoever waits for that status
      refresh never gets evidence from it, and only a full verification makes the domain cached again. */
  lemma NotActiveEvictsAndFails(first: seq<Choice>, f: Fid, ttl: nat, now: int, stale: bool, later: seq<Choice>,
                                i: nat)
    requires var u := Run(INITIAL, first);
             && f < |u.futures| && u.futures[f].phase.Fetching? && i < |u.calls| && WaitsOn(u.calls[i].pc, f)
    ensures var u := Run(INITIAL, first);
            var t := Step(u, WorkSteps(f, ttl, now, false, stale));
            var v := Run(t, later);
            && t.cache == None
            && i < |v.calls| && (v.calls[i].pc == u.calls[i].pc || v.calls[i].pc.Raised?)
            && (v.cache.Some? ==> exists n | 0 <= n < |later| :: FullyVerifies(Run(t, later[..n]), later[n]))
  {
    hide Run, Step, Inv, FullyVerifies;
    InitialInv();
    RunInv(INITIAL, first);
    var u := Run(INITIAL, first);
    var c := WorkSteps(f, ttl, now, false, stale);
    StepInv(u, c);
    StatusAnswer(u, f, ttl, now, false, stale);
    WorkTouchesNoCall(u, c);
    var t := Step(u, c);
    FailedWorkServesNobody(t, f, VerificationError(true), i, later);
    if Run(t, later).cache.Some? {
      var n := RefillNeedsFullVerification(t, later);
    }
  }

  lemma WorkTouchesNoCall(s: State, c: Choice)
    requires c.WorkSteps? && c.future < |s.futures|
    ensures Step(s, c).calls == s.calls
  {
    hide WorkStep;
    WorkFrame(s.(clock := s.clock + 1), c.future, c.ttl, c.now, c.active, c.stale);
  }

  /** The removal of a finished future evicts the domain exactly when it came to STATUS_NOT_ACTIVE. */
  lemma RemovalEvictsExactlyWhen(s: State, f: Fid, o: Outcome, ttl: nat, now: int, active: bool, stale: bool)
    requires f < |s.futures| && s.futures[f].phase == Tracked(o)
    ensures var t := Step(s, WorkSteps(f, ttl, now, active, stale));
            && t.cache == (if o == VerificationError(true) then None else s.cache)
            && f < |t.futures| && t.futures[f].phase == Removed(o)
            && Slot(t, s.futures[f].kind) != Some(f)
  {
    hide StatusStep;
  }

  // ---- Explicit refreshes ----

  /** Over and out of its slot when `u` was. */
  predicate Past(u: State, f: Fid) {
    f < |u.futures| && Gone(u.futures[f].phase)
  }

  /** Work of an explicit refresh that was not over at `u`. */
  predicate Refreshes(u: State, s: State, f: Fid) {
    f < |s.futures| && (s.futures[f].kind.Refresh? || s.futures[f].kind == Private(true)) && !Past(u, f)
  }

  predicate RefreshCallOk(u: State, s: State, c: Call) {
    c.refresh ==>
      match c.pc
      case Entered => true
      case Raised => true
      case Coalescing(w) => w == WantRefresh
      case Forgetting(w, _) => w == WantRefresh
      case CoalesceJoined(w, f) => w == WantRefresh && Refreshes(u, s, f)
      case AsyncJoined(f) => Refreshes(u, s, f)
      case Leading(f) => Refreshes(u, s, f)
      case Returned(e) => Refreshes(u, s, e.origin)
      case _ => false
  }

  /** What holds at `s` of the calls made since `u`. */
  predicate Since(u: State, s: State) {
    && |u.futures| <= |s.futures| && |u.calls| <= |s.calls|
    && (forall f | 0 <= f < |u.futures| && Gone(u.futures[f].phase) :: Gone(s.futures[f].phase))
    && (forall i | |u.calls| <= i < |s.calls| :: RefreshCallOk(u, s, s.calls[i]))
  }

  /** Kinds stay, and what is gone stays gone. */
  predicate Persists(s: State, t: State) {
    && |s.futures| <= |t.futures|
    && forall f | 0 <= f < |s.futures| ::
         t.futures[f].kind == s.futures[f].kind && (Gone(s.futures[f].phase) ==> Gone(t.futures[f].phase))
  }

  lemma StepPersists(s: State, c: Choice)
    ensures Persists(s, Step(s, c))
  {
    hide CallStep, WorkStep;
    var s1 := s.(clock := s.clock + 1);
    if c.WorkSteps? && c.future < |s.futures| {
      WorkFrame(s1, c.future, c.ttl, c.now, c.active, c.stale);
    }
    if c.CallSteps? && c.call < |s.calls| {
      CallFrame(s1, c.call, c.statusFresh);
    }
  }

  lemma RefreshCallFrame(u: State, s: State, t: State, c: Call)
    requires RefreshCallOk(u, s, c) && Persists(s, t)
    ensures RefreshCallOk(u, t, c)
  {
  }

  lemma StepSince(u: State, s: State, c: Choice)
    requires Inv(s) && Since(u, s)
    ensures Since(u, Step(s, c))
  {
    hide Inv, Step, RefreshCallOk, Gone;
    StepPersists(s, c);
    var t := Step(s, c);
    StepCalls(s, c);
    forall i | |u.calls| <= i < |t.calls|
      ensures RefreshCallOk(u, t, t.calls[i])
    {
      if i >= |s.calls| || t.calls[i] != s.calls[i] {
        MovedRefreshCall(u, s, c, i);
      } else {
        RefreshCallFrame(u, s, t, s.calls[i]);
      }
    }
  }

  lemma StepCalls(s: State, c: Choice)
    ensures |s.calls| <= |Step(s, c).calls|
  {
    hide CallStep, WorkStep;
    var s1 := s.(clock := s.clock + 1);
    if c.WorkSteps? && c.future < |s.futures| {
      WorkFrame(s1, c.future, c.ttl, c.now, c.active, c.stale);
    }
    if c.CallSteps? && c.call < |s.calls| {
      CallFrame(s1, c.call, c.statusFresh);
    }
  }

  lemma MovedRefreshCall(u: State, s: State, c: Choice, i: nat)
    requires Inv(s) && Since(u, s) && |u.calls| <= i < |Step(s, c).calls|
    requires i >= |s.calls| || Step(s, c).calls[i] != s.calls[i]
    ensures RefreshCallOk(u, Step(s, c), Step(s, c).calls[i])
  {
    hide Inv, CallStep, WorkStep, Refreshes;
    var s1 := s.(clock := s.clock + 1);
    match c
    case WorkSteps(f, ttl, now, active, stale) =>
      if f < |s.futures| { WorkFrame(s1, f, ttl, now, active, stale); }
    case CallSteps(j, statusFresh) =>
      if j < |s.calls| {
        CallFrame(s1, j, statusFresh);
        TickInv(s);
        TickSince(u, s);
        RefreshCallSteps(u, s1, j, statusFresh);
      }
    case _ =>
  }

  lemma TickInv(s: State)
    requires Inv(s)
    ensures Inv(s.(clock := s.clock + 1))
  {
    hide Inv, WorkStep, CallStep;
    StepInv(s, CallSteps(|s.calls|, false));
  }

  lemma TickSince(u: State, s: State)
    requires Since(u, s)
    ensures Since(u, s.(clock := s.clock + 1))
  {
    hide RefreshCallOk;
    var t := s.(clock := s.clock + 1);
    forall i | |u.calls| <= i < |t.calls|
      ensures RefreshCallOk(u, t, t.calls[i])
    {
      RefreshCallFrame(u, s, t, s.calls[i]);
    }
  }

  lemma RefreshCallSteps(u: State, s: State, i: nat, statusFresh: bool)
    requires Inv(s) && |u.calls| <= i < |s.calls| && Since(u, s)
    ensures var t := CallStep(s, i, statusFresh);
            i < |t.calls| && RefreshCallOk(u, t, t.calls[i])
  {
    hide Inv, Since, EnterStep, LookStep, CoalesceStep, ClaimStep, AsyncJoinStep, LeadStep;
    var c := s.calls[i];
    CallFrame(s, i, statusFresh);
    if c.refresh {
      SinceCall(u, s, i);
      match c.pc
      case Entered => RefreshClaims(u, s, i);
      case Coalescing(w) => RefreshClaims(u, s, i);
      case CoalesceJoined(w, f) => SettledIsOwn(s, f);
      case AsyncJoined(f) => RefreshAsyncJoined(u, s, i);
      case Leading(f) => RefreshLeads(u, s, i);
      case _ =>
    }
  }

  lemma RefreshClaims(u: State, s: State, i: nat)
    requires Inv(s) && Since(u, s) && i < |s.calls| && s.calls[i].refresh
    ensures s.calls[i].pc.Entered? ==> RefreshCallOk(u, EnterStep(s, i), EnterStep(s, i).calls[i])
    ensures RefreshCallOk(u, CoalesceStep(s, i, WantRefresh), CoalesceStep(s, i, WantRefresh).calls[i])
  {
    hide Inv, Since, Lead;
    RefreshSlot(s);
    SinceFutures(u, s);
    LeadFrame(s, i, WantRefresh, false);
    LeadFrame(s, i, WantRefresh, true);
  }

  lemma RefreshAsyncJoined(u: State, s: State, i: nat)
    requires Inv(s) && Since(u, s) && i < |s.calls| && s.calls[i].refresh
    requires s.calls[i].pc.AsyncJoined? && RefreshCallOk(u, s, s.calls[i])
    ensures var t := AsyncJoinStep(s, i, s.calls[i].pc.future);
            RefreshCallOk(u, t, t.calls[i])
  {
    hide Inv, Since, Lead;
    SinceFutures(u, s);
    LeadFrame(s, i, WantPrivate(true), false);
    SettledIsOwn(s, s.calls[i].pc.future);
  }

  lemma RefreshLeads(u: State, s: State, i: nat)
    requires Inv(s) && i < |s.calls| && s.calls[i].pc.Leading? && s.calls[i].refresh
    requires RefreshCallOk(u, s, s.calls[i])
    ensures var t := LeadStep(s, i, s.calls[i].pc.future);
            RefreshCallOk(u, t, t.calls[i])
  {
    hide Inv;
    SettledIsOwn(s, s.calls[i].pc.future);
  }

  lemma SinceFutures(u: State, s: State)
    requires Since(u, s)
    ensures |u.futures| <= |s.futures|
    ensures forall f | 0 <= f < |s.futures| && !Gone(s.futures[f].phase) :: !Past(u, f)
  {
    hide RefreshCallOk;
  }

  lemma SinceCall(u: State, s: State, i: nat)
    requires Since(u, s) && |u.calls| <= i < |s.calls|
    ensures RefreshCallOk(u, s, s.calls[i])
  {
  }

  lemma RefreshSlot(s: State)
    requires Inv(s)
    ensures s.refresh.Some? ==>
              var f := s.refresh.value;
              f < |s.futures| && s.futures[f].kind.Refresh? && !Gone(s.futures[f].phase)
  {
  }

  lemma SettledIsOwn(s: State, f: Fid)
    requires Inv(s) && f < |s.futures| && !s.futures[f].kind.Status?
    ensures IsSettled(s, f) && s.futures[f].phase.outcome.Verified? ==>
              s.futures[f].phase.outcome.evidence.origin == f
  {
    assert FutureInv(s, f);
  }

  lemma {:induction false} RunSince(u: State, s: State, choices: seq<Choice>)
    requires Inv(s) && Since(u, s)
    ensures Since(u, Run(s, choices))
    decreases |choices|
  {
    hide Inv, Step, Since;
    if choices != [] {
      StepInv(s, choices[0]);
      StepSince(u, s, choices[0]);
      RunSince(u, Step(s, choices[0]), choices[1..]);
    }
  }

  /** An explicit refresh bypasses the cache and ordinary lookups, and never falls back to what was there
      before: in every interleaving, what a refresh call returns was acquired by a refresh of its own or by one
      that was still in flight when it called, never by a lookup, a status refresh, or work already over. */
  lemma RefreshReturnsRefreshedEvidence(first: seq<Choice>, later: seq<Choice>, i: nat)
    requires var u, v := Run(INITIAL, first), Run(Run(INITIAL, first), later);
             |u.calls| <= i < |v.calls| && v.calls[i].refresh && v.calls[i].pc.Returned?
    ensures var u, v := Run(INITIAL, first), Run(Run(INITIAL, first), later);
            var f := v.calls[i].pc.evidence.origin;
            && f < |v.futures| && (v.futures[f].kind.Refresh? || v.futures[f].kind == Private(true))
            && (f >= |u.futures| || (!u.futures[f].phase.Removed? && !u.futures[f].phase.Settled?))
  {
    hide Run, Step, Inv;
    InitialInv();
    RunInv(INITIAL, first);
    var u := Run(INITIAL, first);
    RunSince(u, u, later);
    var v := Run(u, later);
    assert RefreshCallOk(u, v, v.calls[i]);
  }

  // ---- How each region answers ----

  /** A lookup joins whatever full or status work is in flight, a refresh before a lookup before a status
      refresh, whatever is cached; only with nothing in flight does it read the cache. */
  lemma LookupJoinsWhatIsInFlight(s: State, i: nat, statusFresh: bool)
    requires i < |s.calls| && s.calls[i].pc.Entered? && !s.calls[i].refresh
    ensures var pc := Step(s, CallSteps(i, statusFresh)).calls[i].pc;
            var joined := if s.calls[i].sync then (f: Fid) => SyncJoined(f) else (f: Fid) => AsyncJoined(f);
            && (s.refresh.Some? ==> pc == joined(s.refresh.value))
            && (s.refresh.None? && s.lookup.Some? ==> pc == joined(s.lookup.value))
            && (s.refresh.None? && s.lookup.None? && s.status.Some? ==> pc == joined(s.status.value))
            && (s.refresh.None? && s.lookup.None? && s.status.None? ==> pc == Looking)
  {
  }

  /** The cache read returns an entry whose status was checked recently; it asks for a status refresh of an
      entry that was not, and for a lookup when there is none. */
  lemma CacheReadAnswers(s: State, i: nat, statusFresh: bool)
    requires i < |s.calls| && s.calls[i].pc.Looking?
    ensures var pc := Step(s, CallSteps(i, statusFresh)).calls[i].pc;
            && (s.cache.Some? && statusFresh ==> pc == Returned(s.cache.value))
            && (s.cache.Some? && !statusFresh ==>
                  pc == if s.calls[i].sync then Coalescing(WantStatus(s.cache.value))
                        else Claiming(WantStatus(s.cache.value)))
            && (s.cache.None? ==> pc == if s.calls[i].sync then Coalescing(WantLookup) else Claiming(WantLookup))
  {
  }

  /** What a call that joined settled work gets: evidence with a TTL as it is, an error as an error; evidence
      without one makes it ask again, a sync caller for the same thing, an async one for work of its own.  The
      leader takes whatever its work came to. */
  lemma SettledWorkAnswers(s: State, i: nat, f: Fid, statusFresh: bool)
    requires i < |s.calls| && WaitsOn(s.calls[i].pc, f) && IsSettled(s, f)
    ensures var o := s.futures[f].phase.outcome;
            var t := Step(s, CallSteps(i, statusFresh));
            var was, pc := s.calls[i].pc, t.calls[i].pc;
            && (!o.Verified? ==> pc.Raised?)
            && (o.Verified? && (was.Leading? || o.evidence.ttl != 0) ==> pc == Returned(o.evidence))
            && (o.Verified? && !was.Leading? && o.evidence.ttl == 0 ==>
                  && (was.SyncJoined? ==> pc == Coalescing(WantLookup))
                  && (was.CoalesceJoined? ==> pc == Forgetting(was.want, f))
                  && (was.AsyncJoined? ==>
                        && pc == Leading(|s.futures|) && |t.futures| == |s.futures| + 1
                        && t.futures[|s.futures|].kind == Private(s.calls[i].refresh)))
  {
    hide EnterStep, LookStep, CoalesceStep, ClaimStep, ForgetStep;
  }

  /** Acquired evidence is of this future, with the TTL met, the time the acquisition began and the time of the
      check. */
  lemma AcquisitionAnswers(s: State, f: Fid, ttl: nat, now: int, active: bool, stale: bool)
    requires f < |s.futures| && s.futures[f].phase.Acquiring?
    ensures var t := Step(s, WorkSteps(f, ttl, now, active, stale));
            t.cache == s.cache && t.futures[f].phase == Acquired(Evidence(f, ttl, s.futures[f].phase.since, now))
  {
    hide StatusStep;
  }

  /** A lookup or a refresh that acquired evidence caches it if it has a TTL and has not expired since, and
      evicts the domain otherwise; a private retry touches nothing. */
  lemma VerificationIsCachedExactlyWhen(s: State, f: Fid, e: Evidence, ttl: nat, now: int, active: bool, stale: bool)
    requires f < |s.futures| && s.futures[f].phase == Acquired(e)
    ensures var t := Step(s, WorkSteps(f, ttl, now, active, stale));
            && t.futures[f].phase == Returning(e)
            && t.cache == (if s.futures[f].kind.Lookup? || s.futures[f].kind.Refresh?
                           then if e.ttl == 0 || stale then None else Some(e)
                           else s.cache)
  {
    hide StatusStep;
  }

  /** A status refresh reuses an entry checked since its caller read it, asks the registry about the entry that
      is cached, and without one joins full work in flight, a refresh before a lookup, or leads a lookup. */
  lemma StatusReadAnswers(s: State, f: Fid, cached: Evidence, ttl: nat, now: int, active: bool, stale: bool)
    requires f < |s.futures|
    ensures var t := Step(s, WorkSteps(f, ttl, now, active, stale));
            && (s.futures[f].phase == ReadCache(cached) ==>
                  && t.cache == s.cache
                  && t.futures[f].phase == if s.cache.None? then StatusClaim(cached)
                                           else if s.cache.value.checkedAt > cached.checkedAt
                                           then Returning(s.cache.value) else Fetching(s.cache.value))
            && (s.futures[f].phase == StatusClaim(cached) ==>
                  && (s.refresh.Some? ==> t.futures[f].phase == Joined(s.refresh.value, false, cached))
                  && (s.refresh.None? && s.lookup.Some? ==>
                        t.futures[f].phase == Joined(s.lookup.value, false, cached))
                  && (s.refresh.None? && s.lookup.None? ==>
                        && t.futures[f].phase == Joined(|s.futures|, true, cached)
                        && t.lookup == Some(|s.futures|) && |t.futures| == |s.futures| + 1
                        && t.futures[|s.futures|].kind.Lookup?))
  {
  }

  /** The swap: with the domain evicted meanwhile the work fails, without STATUS_NOT_ACTIVE; with another entry
      cached that one is returned and stays; otherwise the refreshed one is returned, and cached unless it has
      expired. */
  lemma SwapAnswers(s: State, f: Fid, ttl: nat, now: int, active: bool, stale: bool)
    requires f < |s.futures| && s.futures[f].phase.Swapping?
    ensures var t := Step(s, WorkSteps(f, ttl, now, active, stale));
            var latest, refreshed := s.futures[f].phase.latest, s.futures[f].phase.refreshed;
            && (s.cache == None ==> t.cache == None && t.futures[f].phase == Finishing(VerificationError(false)))
            && (s.cache.Some? && s.cache != Some(latest) ==>
                  t.cache == s.cache && t.futures[f].phase == Returning(s.cache.value))
            && (s.cache == Some(latest) ==>
                  && t.futures[f].phase == Returning(refreshed)
                  && t.cache == if stale then None else Some(refreshed))
  {
  }

  /** A refresh lets an older lookup finish first and then acquires evidence of its own, whether that lookup
      verified or failed to; only an error of another kind is passed on. */
  lemma RefreshWaitsAnswers(s: State, f: Fid, p: Fid, ttl: nat, now: int, active: bool, stale: bool)
    requires f < |s.futures| && (s.futures[f].phase == AwaitClaimed(p) || s.futures[f].phase == AwaitPrevious(p))
    ensures var t := Step(s, WorkSteps(f, ttl, now, active, stale));
            && t.cache == s.cache
            && (!IsSettled(s, p) ==> t.futures == s.futures)
            && (IsSettled(s, p) && s.futures[p].phase.outcome == OtherError ==>
                  t.futures[f].phase == Finishing(OtherError))
            && (IsSettled(s, p) && s.futures[p].phase.outcome != OtherError ==>
                  t.futures[f].phase == if s.futures[f].phase.AwaitClaimed? then ReadPrevious
                                        else Acquiring(s.clock + 1))
  {
    hide StatusStep;
  }

  /** A status refresh that joined full work ends as that work did; evidence without a TTL it keeps only if it
      led the work and may return it to one caller, otherwise it starts over or has its own acquired. */
  lemma JoinedStatusAnswers(s: State, f: Fid, g: Fid, leads: bool, cached: Evidence, ttl: nat, now: int,
                            active: bool, stale: bool)
    requires f < |s.futures| && s.futures[f].phase == Joined(g, leads, cached) && IsSettled(s, g)
    ensures var t := Step(s, WorkSteps(f, ttl, now, active, stale));
            var o := s.futures[g].phase.outcome;
            && (!o.Verified? ==> t.futures[f].phase == Finishing(o))
            && (o.Verified? && (o.evidence.ttl != 0 || (leads && !s.futures[f].sync)) ==>
                  t.futures[f].phase == Returning(o.evidence))
            && (o.Verified? && o.evidence.ttl == 0 && s.futures[f].sync ==> t.futures[f].phase == ReadCache(cached))
            && (o.Verified? && o.evidence.ttl == 0 && !s.futures[f].sync && !leads ==>
                  && t.futures[f].phase == JoinedPrivate(|s.futures|) && |t.futures| == |s.futures| + 1
                  && t.futures[|s.futures|].kind == Private(false))
  {
  }
}
