/** The theorems about every interleaving of lookups, explicit refreshes, status refreshes and
    shutdown of a domain. */
module CoordinationTheorems {
  import opened Options
  import opened Coordination
  import opened CoordinationSafety

  // ---- Old evidence never comes back ----

  /** Nothing cached, and nothing on its way into the cache, was acquired before `n`. */
  predicate NothingOlder(s: State, n: nat) {
    && n <= s.clock
    && (s.cache.Some? ==> n <= s.cache.value.acquiredAt)
    && forall f | 0 <= f < |s.futures| :: NotOlder(s.futures[f], n)
  }

  predicate NotOlder(w: Future, n: nat) {
    Caches(w.kind) ==>
      (w.phase.Acquiring? ==> n <= w.phase.since) && (w.phase.Acquired? ==> n <= w.phase.evidence.acquiredAt)
  }

  /** Futures are only appended, and new ones have acquired nothing. */
  predicate Appends(fs: seq<Future>, gs: seq<Future>) {
    && |fs| <= |gs| && gs[..|fs|] == fs
    && forall f | |fs| <= f < |gs| :: !gs[f].phase.Acquiring? && !gs[f].phase.Acquired?
  }

  /** A call's step leaves the cache and all existing work alone. */
  lemma CallEffect(s: State, i: nat, statusFresh: bool)
    requires i < |s.calls|
    ensures var t := CallStep(s, i, statusFresh);
            t.cache == s.cache && t.clock == s.clock && t.closing == s.closing && Appends(s.futures, t.futures)
  {
    hide Appends, Lead;
    AppendsNothing(s.futures);
    match s.calls[i].pc
    case Entered => LeadEffect(s, i, WantRefresh, false);
    case Looking =>
    case SyncJoined(_) =>
    case Coalescing(w) => LeadEffect(s, i, w, true);
    case CoalesceJoined(_, _) =>
    case Forgetting(_, _) =>
    case Claiming(w) => LeadEffect(s, i, w, false);
    case AsyncJoined(_) => LeadEffect(s, i, WantPrivate(s.calls[i].refresh), false);
    case Leading(_) =>
    case _ =>
  }

  lemma AppendsNothing(fs: seq<Future>)
    ensures Appends(fs, fs)
  {
  }

  lemma LeadEffect(s: State, i: nat, w: Want, sync: bool)
    requires i < |s.calls|
    ensures var t := Lead(s, i, w, sync);
            t.cache == s.cache && t.clock == s.clock && t.closing == s.closing && Appends(s.futures, t.futures)
  {
  }

  /** What one step of the work of `f` does to the cache and to the other futures. */
  predicate WorkEffect(s: State, f: Fid, t: State)
    requires f < |s.futures|
  {
    && t.clock == s.clock && t.closing == s.closing && |s.futures| <= |t.futures|
    && t.futures[f].kind == s.futures[f].kind
    && (forall g | 0 <= g < |s.futures| && g != f :: t.futures[g] == s.futures[g])
    && (forall g | |s.futures| <= g < |t.futures| :: t.futures[g].phase.Queued?)
    && (t.futures[f].phase.Acquiring? ==>
          t.futures[f].phase == Acquiring(s.clock) || t.futures[f].phase == s.futures[f].phase)
    && (t.futures[f].phase.Acquired? ==> s.futures[f].phase == Acquiring(t.futures[f].phase.evidence.acquiredAt))
    && (t.cache != s.cache && t.cache.Some? ==>
          || (Caches(s.futures[f].kind) && s.futures[f].phase == Acquired(t.cache.value) && t.cache.value.ttl > 0)
          || (s.futures[f].phase.Swapping? && s.cache == Some(s.futures[f].phase.latest)
                && t.cache == Some(s.futures[f].phase.refreshed)))
  }

  lemma StayEffect(s: State, f: Fid)
    requires f < |s.futures| && !s.futures[f].phase.Acquired?
    ensures WorkEffect(s, f, s)
  {
  }

  lemma PhaseEffect(s: State, f: Fid, p: Phase)
    requires f < |s.futures| && !p.Acquiring? && !p.Acquired?
    ensures WorkEffect(s, f, SetPhase(s, f, p))
  {
  }

  lemma EvictEffect(s: State, f: Fid, p: Phase)
    requires f < |s.futures| && !p.Acquiring? && !p.Acquired?
    ensures WorkEffect(s, f, SetPhase(s.(cache := None), f, p))
  {
  }

  lemma CreatedEffect(s: State, f: Fid, k: Kind, sync: bool, p: Phase)
    requires f < |s.futures| && !p.Acquiring? && !p.Acquired?
    ensures WorkEffect(s, f, SetPhase(Create(s, k, sync, ByStatus(f), Queued), f, p))
  {
  }

  lemma SwapEffect(s: State, f: Fid, stale: bool)
    requires f < |s.futures| && s.futures[f].phase.Swapping?
    ensures WorkEffect(s, f, SwapStatus(s, f, s.futures[f].phase.latest, s.futures[f].phase.refreshed, stale))
  {
  }

  lemma AfterJoinedEffect(s: State, f: Fid, o: Outcome, leads: bool, cached: Evidence)
    requires f < |s.futures|
    ensures WorkEffect(s, f, AfterJoined(s, f, o, leads, cached))
  {
  }

  lemma StatusEffect(s: State, f: Fid, now: int, active: bool, stale: bool)
    requires f < |s.futures| && !s.futures[f].phase.Acquiring? && !s.futures[f].phase.Acquired?
    ensures WorkEffect(s, f, StatusStep(s, f, now, active, stale))
  {
    hide AfterJoined, SetPhase, Create, WorkEffect, SwapStatus;
    match s.futures[f].phase
    case ReadCache(cached) =>
      PhaseEffect(s, f, StatusClaim(cached));
      if s.cache.Some? {
        PhaseEffect(s, f, Returning(s.cache.value));
        PhaseEffect(s, f, Fetching(s.cache.value));
      }
    case StatusClaim(cached) =>
      if Full(s).Some? {
        PhaseEffect(s, f, Joined(Full(s).value, false, cached));
      } else {
        CreatedEffect(s, f, Lookup, s.futures[f].sync, Joined(|s.futures|, true, cached));
      }
    case Joined(g, leads, cached) =>
      if IsSettled(s, g) {
        AfterJoinedEffect(s, f, s.futures[g].phase.outcome, leads, cached);
      } else {
        StayEffect(s, f);
      }
    case JoinedPrivate(g) =>
      if IsSettled(s, g) {
        PhaseEffect(s, f, After(s.futures[g].phase.outcome));
      } else {
        StayEffect(s, f);
      }
    case Fetching(latest) =>
      PhaseEffect(s, f, Swapping(latest, latest.(checkedAt := now)));
      EvictEffect(s, f, Finishing(VerificationError(true)));
    case Swapping(latest, refreshed) => SwapEffect(s, f, stale);
    case _ => StayEffect(s, f);
  }

  lemma WorkHasEffect(s: State, f: Fid, ttl: nat, now: int, active: bool, stale: bool)
    requires f < |s.futures|
    ensures WorkEffect(s, f, WorkStep(s, f, ttl, now, active, stale))
  {
    hide StatusStep;
    match s.futures[f].phase
    case Queued =>
    case AwaitClaimed(_) =>
    case ReadPrevious =>
    case AwaitPrevious(_) =>
    case Acquiring(_) =>
    case Acquired(_) =>
    case Returning(_) =>
    case Finishing(_) =>
    case Tracked(_) =>
    case Removed(_) =>
    case Settled(_) =>
    case _ => StatusEffect(s, f, now, active, stale);
  }

  lemma WorkStepNothingOlder(s: State, f: Fid, t: State, n: nat)
    requires f < |s.futures| && NothingOlder(s, n) && WorkEffect(s, f, t)
    requires s.futures[f].phase.Swapping? ==>
              s.futures[f].phase.refreshed.acquiredAt == s.futures[f].phase.latest.acquiredAt
    ensures NothingOlder(t, n)
  {
  }

  lemma StepNothingOlder(s: State, c: Choice, n: nat)
    requires Inv(s) && NothingOlder(s, n)
    ensures NothingOlder(Step(s, c), n)
  {
    hide Inv, CallStep, WorkStep, WorkEffect;
    var s1 := s.(clock := s.clock + 1);
    match c
    case CallSteps(i, statusFresh) => if i < |s.calls| { CallEffect(s1, i, statusFresh); }
    case WorkSteps(f, ttl, now, active, stale) =>
      if f < |s.futures| {
        SwapsKeepAcquisition(s, f);
        WorkHasEffect(s1, f, ttl, now, active, stale);
        WorkStepNothingOlder(s1, f, WorkStep(s1, f, ttl, now, active, stale), n);
      }
    case _ =>
  }

  lemma SwapsKeepAcquisition(s: State, f: Fid)
    requires Inv(s) && f < |s.futures|
    ensures var p := s.futures[f].phase;
            p.Swapping? ==> p.refreshed == p.latest.(checkedAt := p.refreshed.checkedAt) && s.futures[f].kind.Status?
  {
    assert FutureInv(s, f);
  }

  lemma {:induction false} RunNothingOlder(s: State, choices: seq<Choice>, n: nat)
    requires Inv(s) && NothingOlder(s, n)
    ensures NothingOlder(Run(s, choices), n)
    decreases |choices|
  {
    hide Inv, Step, NothingOlder;
    if choices != [] {
      StepInv(s, choices[0]);
      StepNothingOlder(s, choices[0], n);
      RunNothingOlder(Step(s, choices[0]), choices[1..], n);
    }
  }

  lemma {:induction false} RunAppends(s: State, a: seq<Choice>, b: seq<Choice>)
    ensures Run(s, a + b) == Run(Run(s, a), b)
    decreases |a|
  {
    hide Step;
    if a == [] {
      assert a + b == b;
    } else {
      assert (a + b)[1..] == a[1..] + b;
      RunAppends(Step(s, a[0]), a[1..], b);
    }
  }

  /** In every interleaving, what is cached later was acquired no earlier than what is cached now,
      evictions in between or not. */
  lemma CachedEvidenceOnlyGetsNewer(first: seq<Choice>, later: seq<Choice>)
    ensures var u, v := Run(INITIAL, first), Run(INITIAL, first + later);
            u.cache.Some? && v.cache.Some? ==> u.cache.value.acquiredAt <= v.cache.value.acquiredAt
  {
    hide Run, Step;
    InitialInv();
    RunInv(INITIAL, first);
    RunAppends(INITIAL, first, later);
    var u := Run(INITIAL, first);
    if u.cache.Some? {
      CachedIsNothingOlder(u);
      RunNothingOlder(u, later, u.cache.value.acquiredAt);
    }
  }

  lemma CachedIsNothingOlder(u: State)
    requires Inv(u) && u.cache.Some?
    ensures NothingOlder(u, u.cache.value.acquiredAt)
  {
    hide PhaseOk, LeaderOk, CallOk;
    forall f | 0 <= f < |u.futures|
      ensures NotOlder(u.futures[f], u.cache.value.acquiredAt)
    {
      assert FutureInv(u, f);
    }
  }

  /** Once an explicit refresh has written its evidence, nothing that was acquired before that refresh
      began to acquire is ever cached again. */
  lemma RefreshIsNeverUndone(first: seq<Choice>, f: Fid, e: Evidence, stale: bool, later: seq<Choice>)
    requires var u := Run(INITIAL, first);
             f < |u.futures| && u.futures[f].kind.Refresh? && u.futures[f].phase == Acquired(e)
    ensures var v := Run(Step(Run(INITIAL, first), WorkSteps(f, 0, 0, false, stale)), later);
            v.cache.Some? ==> e.acquiredAt <= v.cache.value.acquiredAt
  {
    hide Run, Step;
    var u := Run(INITIAL, first);
    InitialInv();
    RunInv(INITIAL, first);
    var u1 := Step(u, WorkSteps(f, 0, 0, false, stale));
    StepInv(u, WorkSteps(f, 0, 0, false, stale));
    WrittenIsNothingOlder(u, f, e, stale);
    RunNothingOlder(u1, later, e.acquiredAt);
  }

  lemma WrittenIsNothingOlder(u: State, f: Fid, e: Evidence, stale: bool)
    requires Inv(u) && f < |u.futures| && Caches(u.futures[f].kind) && u.futures[f].phase == Acquired(e)
    ensures NothingOlder(Step(u, WorkSteps(f, 0, 0, false, stale)), e.acquiredAt)
  {
    hide PhaseOk, LeaderOk, CallOk, StatusStep, RemoveFromSlot, AfterPrevious;
    var u1 := Step(u, WorkSteps(f, 0, 0, false, stale));
    assert FutureInv(u, f);
    forall g | 0 <= g < |u1.futures|
      ensures NotOlder(u1.futures[g], e.acquiredAt)
    {
      if g != f && Caches(u.futures[g].kind) && (u.futures[g].phase.Acquiring? || u.futures[g].phase.Acquired?) {
        OneAcquirer(u, f, g);
      }
    }
  }

  // ---- Status refreshes never restore ----

  /** This step writes the cache with evidence that a lookup or explicit refresh acquired in full. */
  predicate FullyVerifies(s: State, c: Choice) {
    && c.WorkSteps? && c.future < |s.futures|
    && Caches(s.futures[c.future].kind) && s.futures[c.future].phase.Acquired?
    && s.futures[c.future].phase.evidence.ttl > 0
  }

  /** How the cache comes to hold something else: a full verification, or a status refresh that finds
      exactly the entry it read and only moves its check time. */
  lemma CacheChangesOnlyBy(s: State, c: Choice)
    requires Inv(s)
    ensures Step(s, c).cache != s.cache && Step(s, c).cache.Some? ==>
              || (FullyVerifies(s, c) && Step(s, c).cache.value == s.futures[c.future].phase.evidence)
              || (&& c.WorkSteps? && c.future < |s.futures| && s.futures[c.future].kind.Status?
                  && s.futures[c.future].phase.Swapping? && s.cache == Some(s.futures[c.future].phase.latest)
                  && Step(s, c).cache.value == s.cache.value.(checkedAt := Step(s, c).cache.value.checkedAt))
  {
    hide Inv, CallStep, WorkStep;
    var s1 := s.(clock := s.clock + 1);
    if c.WorkSteps? && c.future < |s.futures| {
      SwapsKeepAcquisition(s, c.future);
      WorkHasEffect(s1, c.future, c.ttl, c.now, c.active, c.stale);
    }
    if c.CallSteps? && c.call < |s.calls| {
      CallEffect(s1, c.call, c.statusFresh);
    }
  }

  /** After an eviction, as by a not-ACTIVE status, only a full verification makes the domain cached
      again: every run from an empty cache to a filled one has one, at step `n`. */
  lemma {:induction false} RefillNeedsFullVerification(s: State, choices: seq<Choice>) returns (n: nat)
    requires Inv(s) && s.cache.None? && Run(s, choices).cache.Some?
    ensures n < |choices| && FullyVerifies(Run(s, choices[..n]), choices[n])
    decreases |choices|
  {
    hide Inv, Step, FullyVerifies;
    assert choices != [];
    var s1 := Step(s, choices[0]);
    StepInv(s, choices[0]);
    CacheChangesOnlyBy(s, choices[0]);
    if s1.cache.Some? {
      assert Run(s, choices[..0]) == s;
      n := 0;
    } else {
      var m := RefillNeedsFullVerification(s1, choices[1..]);
      n := m + 1;
      assert choices[..n][1..] == choices[1..][..m];
      assert choices[..n][0] == choices[0];
    }
  }

  // ---- Zero TTL ----

  /** Evidence with a zero TTL is never cached, and no two calls return the same acquisition of it. */
  lemma ZeroTtlEvidenceServesOneCall(choices: seq<Choice>, i: nat, j: nat)
    requires var v := Run(INITIAL, choices);
             && i < j < |v.calls| && v.calls[i].pc.Returned? && v.calls[j].pc.Returned?
             && v.calls[i].pc.evidence.ttl == 0 && v.calls[j].pc.evidence.ttl == 0
    ensures var v := Run(INITIAL, choices);
            v.calls[i].pc.evidence.origin != v.calls[j].pc.evidence.origin
  {
    hide Run, Step;
    InitialInv();
    RunInv(INITIAL, choices);
    OwnersDiffer(Run(INITIAL, choices), i, j);
  }

  lemma OwnersDiffer(v: State, i: nat, j: nat)
    requires Inv(v) && i < j < |v.calls| && v.calls[i].pc.Returned? && v.calls[j].pc.Returned?
    requires v.calls[i].pc.evidence.ttl == 0 && v.calls[j].pc.evidence.ttl == 0
    ensures v.calls[i].pc.evidence.origin != v.calls[j].pc.evidence.origin
  {
  }

  lemma ZeroTtlIsNeverCached(choices: seq<Choice>)
    ensures Run(INITIAL, choices).cache.Some? ==> Run(INITIAL, choices).cache.value.ttl > 0
  {
    hide Run, Step;
    InitialInv();
    RunInv(INITIAL, choices);
  }

  // ---- Waiting ----

  function WaitsFor(w: Future): Option<Fid> {
    match w.phase
    case AwaitClaimed(p) => Some(p)
    case AwaitPrevious(p) => Some(p)
    case Joined(g, _, _) => Some(g)
    case JoinedPrivate(g) => Some(g)
    case _ => None
  }

  /** Lookups wait for nothing, refreshes for lookups, status refreshes for either. */
  function Rank(k: Kind): nat {
    match k
    case Lookup => 0
    case Private(revalidate) => if revalidate then 1 else 0
    case Refresh => 1
    case Status => 2
  }

  lemma WaitsDescend(s: State, f: Fid)
    requires Inv(s) && f < |s.futures| && WaitsFor(s.futures[f]).Some?
    ensures var g := WaitsFor(s.futures[f]).value;
            g < |s.futures| && Rank(s.futures[g].kind) < Rank(s.futures[f].kind)
  {
    assert FutureInv(s, f);
  }

  /** The next step of its own work changes the phase of this future. */
  predicate CanMove(s: State, f: Fid) {
    f < |s.futures| && WorkStep(s, f, 0, 0, false, false).futures[f].phase != s.futures[f].phase
  }

  /** Waiting never deadlocks: behind every unfinished future there is one that can move right now. */
  lemma {:induction false} SomeoneCanMove(s: State, f: Fid) returns (g: Fid)
    requires Inv(s) && f < |s.futures| && !s.futures[f].phase.Settled?
    ensures g < |s.futures| && !s.futures[g].phase.Settled?
    ensures CanMove(s, g)
    decreases Rank(s.futures[f].kind)
  {
    hide Inv, CanMove;
    var w := WaitsFor(s.futures[f]);
    if w.Some? {
      WaitsDescend(s, f);
    }
    if w.Some? && !IsSettled(s, w.value) {
      g := SomeoneCanMove(s, w.value);
    } else {
      g := f;
      UnblockedMoves(s, f);
    }
  }

  lemma UnblockedMoves(s: State, f: Fid)
    requires f < |s.futures| && !s.futures[f].phase.Settled?
    requires WaitsFor(s.futures[f]).None? || IsSettled(s, WaitsFor(s.futures[f]).value)
    ensures CanMove(s, f)
  {
    hide StatusStep;
    if s.futures[f].phase.StatusClaim? || s.futures[f].phase.Joined? {
      UnblockedCreates(s, f);
    } else {
      UnblockedStatusMoves(s, f);
    }
  }

  lemma UnblockedCreates(s: State, f: Fid)
    requires f < |s.futures| && (s.futures[f].phase.StatusClaim? || s.futures[f].phase.Joined?)
    requires WaitsFor(s.futures[f]).None? || IsSettled(s, WaitsFor(s.futures[f]).value)
    ensures StatusStep(s, f, 0, false, false).futures[f].phase != s.futures[f].phase
  {
  }

  lemma UnblockedStatusMoves(s: State, f: Fid)
    requires f < |s.futures| && !s.futures[f].phase.StatusClaim? && !s.futures[f].phase.Joined?
    requires WaitsFor(s.futures[f]).None? || IsSettled(s, WaitsFor(s.futures[f]).value)
    ensures s.futures[f].phase.ReadCache? || s.futures[f].phase.JoinedPrivate? || s.futures[f].phase.Fetching?
            || s.futures[f].phase.Swapping? ==>
            StatusStep(s, f, 0, false, false).futures[f].phase != s.futures[f].phase
  {
  }

  /** A sync-led refresh that occupies a worker finds no lookup to wait for. */
  lemma SyncRefreshNeverBlocksAWorker(choices: seq<Choice>, f: Fid)
    requires var v := Run(INITIAL, choices);
             f < |v.futures| && v.futures[f].kind.Refresh? && v.futures[f].sync && v.futures[f].phase.ReadPrevious?
    ensures var v := Run(INITIAL, choices);
            v.lookup.None? && Step(v, WorkSteps(f, 0, 0, false, false)).futures[f].phase == Acquiring(v.clock + 1)
  {
    hide Run;
    InitialInv();
    RunInv(INITIAL, choices);
    assert FutureInv(Run(INITIAL, choices), f);
  }

  // ---- Shutdown ----

  /** All work is done and no call is active. */
  predicate Drained(s: State) {
    && (forall w | w in s.futures :: w.phase.Settled?)
    && (forall c | c in s.calls :: !Active(c))
  }

  /** What shutdown drains is everything: whatever it does not see is already done. */
  lemma NothingPendingIsDrained(s: State)
    requires Inv(s) && NothingPending(s)
    ensures Drained(s)
  {
    hide OrderInv, CacheInv, TimeOk, CallOk;
    forall w | w in s.futures
      ensures w.phase.Settled?
    {
      var f :| 0 <= f < |s.futures| && s.futures[f] == w;
      assert FutureInv(s, f);
    }
  }

  lemma DrainedStays(s: State, c: Choice)
    requires Drained(s) && s.closing
    ensures var v := Step(s, c); v.futures == s.futures && v.calls == s.calls && v.closing
  {
    if c.CallSteps? && c.call < |s.calls| {
      assert s.calls[c.call] in s.calls;
    }
    if c.CallRaises? && c.call < |s.calls| {
      assert s.calls[c.call] in s.calls;
    }
    if (c.WorkSteps? || c.WorkFails?) && c.future < |s.futures| {
      assert s.futures[c.future] in s.futures;
    }
  }

  /** Once closing has seen nothing pending, every future there is is done, and no run ever creates
      another one or starts another call: resources can be closed. */
  lemma {:induction false} ShutdownIsComplete(s: State, choices: seq<Choice>)
    requires Inv(s) && s.closing && NothingPending(s)
    ensures Drained(s)
    ensures var v := Run(s, choices); v.futures == s.futures && v.calls == s.calls
    decreases |choices|
  {
    hide Step;
    NothingPendingIsDrained(s);
    DrainedForever(s, choices);
  }

  lemma {:induction false} DrainedForever(s: State, choices: seq<Choice>)
    requires Drained(s) && s.closing
    ensures var v := Run(s, choices); v.futures == s.futures && v.calls == s.calls
    decreases |choices|
  {
    hide Step;
    if choices != [] {
      DrainedStays(s, choices[0]);
      DrainedForever(Step(s, choices[0]), choices[1..]);
    }
  }
}
