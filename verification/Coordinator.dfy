/** The manager's own dictionaries, and its regions under the coordination lock in imperative form.  Each
    region is one step of the machine for its domain and leaves every other domain as it was, so the whole
    manager keeps the invariant; and `close` drains all of it. */
module Coordinators {
  import opened Options
  import opened Coordination
  import opened CoordinationSafety
  import opened CoordinationTheorems

  function Get<T>(m: map<string, T>, d: string): Option<T> {
    if d in m then Some(m[d]) else None
  }

  function Put<T>(m: map<string, T>, d: string, v: Option<T>): map<string, T> {
    if v.Some? then m[d := v.value] else m - {d}
  }

  datatype CloseResult = Closed | Refused | StillWaiting

  class Coordinator {
    var verificationFutures: map<string, Fid>
    var refreshFutures: map<string, Fid>
    var statusFutures: map<string, Fid>
    var cache: map<string, Evidence>
    /** The futures ever created for a domain, and the calls ever made for it. */
    var futures: map<string, seq<Future>>
    var calls: map<string, seq<Call>>
    var closing: bool
    var closed: bool
    /** The machine's own clock: the steps of a domain, and those of all domains at once. */
    var ticks: map<string, nat>
    var common: nat

    constructor ()
      ensures Valid() && (forall d :: View(d) == INITIAL) && !closed
    {
      verificationFutures, refreshFutures, statusFutures, cache := map[], map[], map[], map[];
      futures, calls, closing, closed, ticks, common := map[], map[], false, false, map[], 0;
      new;
      InitialInv();
    }

    /** The projection of the manager's state to one domain. */
    function View(d: string): State
      reads this
    {
      State(common + TicksOf(d),
            Get(verificationFutures, d), Get(refreshFutures, d), Get(statusFutures, d), Get(cache, d),
            FuturesOf(d), CallsOf(d), closing)
    }

    ghost predicate Valid()
      reads this
    {
      forall d :: Inv(View(d))
    }

    function TicksOf(d: string): nat
      reads this
    {
      if d in ticks then ticks[d] else 0
    }

    function FuturesOf(d: string): seq<Future>
      reads this
    {
      if d in futures then futures[d] else []
    }

    function CallsOf(d: string): seq<Call>
      reads this
    {
      if d in calls then calls[d] else []
    }

    twostate predicate OnlyTouches(d: string)
      reads this
    {
      (forall x | x != d :: View(x) == old(View(x))) && closed == old(closed)
    }

    method Tick(d: string)
      modifies this`ticks
      ensures View(d) == old(View(d)).(clock := old(View(d)).clock + 1) && OnlyTouches(d)
    {
      ticks := ticks[d := TicksOf(d) + 1];
    }

    method SetCallPc(d: string, i: nat, pc: CallPc)
      requires i < |CallsOf(d)|
      modifies this`calls
      ensures View(d) == SetPc(old(View(d)), i, pc) && OnlyTouches(d)
    {
      calls := calls[d := calls[d][i := calls[d][i].(pc := pc)]];
    }

    method SetFuture(d: string, f: Fid, w: Future)
      requires f < |FuturesOf(d)|
      modifies this`futures
      ensures View(d) == old(View(d)).(futures := old(FuturesOf(d))[f := w]) && OnlyTouches(d)
    {
      futures := futures[d := futures[d][f := w]];
    }

    /** The dictionary of this kind, at one domain. */
    method StoreSlot(d: string, k: Kind, v: Option<Fid>)
      modifies this`verificationFutures, this`refreshFutures, this`statusFutures
      ensures View(d) == SetSlot(old(View(d)), k, v) && OnlyTouches(d)
    {
      hide Get, Put;
      match k
      case Lookup =>
        GetPut(verificationFutures, d, v);
        verificationFutures := Put(verificationFutures, d, v);
      case Refresh =>
        GetPut(refreshFutures, d, v);
        refreshFutures := Put(refreshFutures, d, v);
      case Status =>
        GetPut(statusFutures, d, v);
        statusFutures := Put(statusFutures, d, v);
      case Private(_) =>
    }

    method CreateFuture(d: string, k: Kind, sync: bool, leader: Leader, p: Phase) returns (f: Fid)
      modifies this`futures, this`verificationFutures, this`refreshFutures, this`statusFutures
      ensures f == |old(FuturesOf(d))| && OnlyTouches(d)
      ensures View(d) == Create(old(View(d)), k, sync, leader, p)
    {
      var existing := FuturesOf(d);
      f := |existing|;
      futures := futures[d := existing + [Future(k, sync, leader, p, k.Private?)]];
      StoreSlot(d, k, Some(f));
    }

    /** `pending.pop(domain)` on the dictionary of this kind, if it holds this future. */
    method DropFromPending(d: string, k: Kind, f: Fid)
      modifies this`verificationFutures, this`refreshFutures, this`statusFutures
      ensures View(d) == (if Slot(old(View(d)), k) == Some(f) then SetSlot(old(View(d)), k, None) else old(View(d)))
      ensures OnlyTouches(d)
    {
      if Slot(View(d), k) == Some(f) {
        StoreSlot(d, k, None);
      }
    }

    method SetCache(d: string, e: Option<Evidence>)
      modifies this`cache
      ensures View(d) == old(View(d)).(cache := e) && OnlyTouches(d)
    {
      cache := Put(cache, d, e);
    }

    // ---- The regions, on their own ----

    method EnterCallRegion(d: string, sync: bool, refresh: bool) returns (entered: bool)
      modifies this`calls
      ensures entered == !old(closing)
      ensures OnlyTouches(d)
      ensures View(d) == if entered
              then old(View(d)).(calls := old(CallsOf(d)) + [Call(sync, refresh, Entered)]) else old(View(d))
    {
      entered := !closing;
      if entered {
        calls := calls[d := CallsOf(d) + [Call(sync, refresh, Entered)]];
      }
    }

    method CoalesceRegion(d: string, i: nat, w: Want)
      requires i < |CallsOf(d)|
      modifies this`calls, this`futures, this`verificationFutures, this`refreshFutures, this`statusFutures
      ensures View(d) == CoalesceStep(old(View(d)), i, w) && OnlyTouches(d)
    {
      var lookup, refresh := Get(verificationFutures, d), Get(refreshFutures, d);
      var found := match w
        case WantLookup => OrElse(refresh, lookup)
        case WantRefresh => refresh
        case WantStatus(_) => Get(statusFutures, d)
        case WantPrivate(_) => None;
      if found.Some? {
        SetCallPc(d, i, CoalesceJoined(w, found.value));
      } else {
        var first := if w.WantStatus? then ReadCache(w.cached)
                     else if w.WantRefresh? && lookup.Some? then AwaitClaimed(lookup.value)
                     else if w.WantRefresh? || w == WantPrivate(true) then ReadPrevious
                     else Queued;
        var f := CreateFuture(d, KindOf(w), true, ByCall(i), first);
        SetCallPc(d, i, Leading(f));
      }
    }

    method AsyncClaimRegion(d: string, i: nat, w: Want)
      requires i < |CallsOf(d)| && (w.WantLookup? || w.WantStatus?)
      modifies this`calls, this`futures, this`verificationFutures, this`refreshFutures, this`statusFutures
      ensures View(d) == ClaimStep(old(View(d)), i, w) && OnlyTouches(d)
    {
      var found := OrElse(OrElse(Get(refreshFutures, d), Get(verificationFutures, d)), Get(statusFutures, d));
      if found.Some? {
        SetCallPc(d, i, AsyncJoined(found.value));
      } else {
        var f := CreateFuture(d, KindOf(w), false, ByCall(i), if w.WantStatus? then ReadCache(w.cached) else Queued);
        SetCallPc(d, i, Leading(f));
      }
    }

    method StatusJoinsOrLeadsRegion(d: string, f: Fid, cached: Evidence)
      requires f < |FuturesOf(d)| && FuturesOf(d)[f].phase == StatusClaim(cached)
      modifies this`futures, this`verificationFutures, this`refreshFutures, this`statusFutures
      ensures View(d) == WorkStep(old(View(d)), f, 0, 0, false, false) && OnlyTouches(d)
    {
      var found := OrElse(Get(refreshFutures, d), Get(verificationFutures, d));
      var leads := found.None?;
      if leads {
        var g := CreateFuture(d, Lookup, FuturesOf(d)[f].sync, ByStatus(f), Queued);
        found := Some(g);
      }
      SetFuture(d, f, FuturesOf(d)[f].(phase := Joined(found.value, leads, cached)));
    }

    method CacheVerifiedRegion(d: string, f: Fid, e: Evidence, stale: bool)
      requires f < |FuturesOf(d)| && FuturesOf(d)[f].phase == Acquired(e)
      modifies this`cache, this`futures
      ensures View(d) == WorkStep(old(View(d)), f, 0, 0, false, stale) && OnlyTouches(d)
    {
      hide StatusStep;
      if Caches(FuturesOf(d)[f].kind) {
        SetCache(d, if e.ttl > 0 && !stale then Some(e) else None);
      }
      SetFuture(d, f, FuturesOf(d)[f].(phase := Returning(e)));
    }

    method CacheRefreshedStatusRegion(d: string, f: Fid, latest: Evidence, refreshed: Evidence, stale: bool)
      requires f < |FuturesOf(d)| && FuturesOf(d)[f].phase == Swapping(latest, refreshed)
      modifies this`cache, this`futures
      ensures View(d) == WorkStep(old(View(d)), f, 0, 0, false, stale) && OnlyTouches(d)
    {
      var current := Get(cache, d);
      var outcome := if current.None? then VerificationError(false)
                     else if current.value != latest then Verified(current.value)
                     else Verified(refreshed);
      if current == Some(latest) {
        SetCache(d, if stale then None else Some(refreshed));
      }
      SetFuture(d, f, FuturesOf(d)[f].(phase := After(outcome)));
    }

    method TrackFinishedRegion(d: string, f: Fid, o: Outcome)
      requires f < |FuturesOf(d)| && FuturesOf(d)[f].phase == Finishing(o)
      modifies this`futures
      ensures View(d) == WorkStep(old(View(d)), f, 0, 0, false, false) && OnlyTouches(d)
    {
      hide StatusStep;
      SetFuture(d, f, FuturesOf(d)[f].(phase := Tracked(o), tracked := true));
    }

    method RemoveFinishedRegion(d: string, f: Fid, o: Outcome)
      requires f < |FuturesOf(d)| && FuturesOf(d)[f].phase == Tracked(o)
      modifies this`cache, this`futures, this`verificationFutures, this`refreshFutures, this`statusFutures
      ensures View(d) == WorkStep(old(View(d)), f, 0, 0, false, false) && OnlyTouches(d)
    {
      hide StatusStep;
      if o == VerificationError(true) {
        SetCache(d, None);
      }
      DropFromPending(d, FuturesOf(d)[f].kind, f);
      SetFuture(d, f, FuturesOf(d)[f].(phase := Removed(o)));
    }

    // ---- Lock regions ----

    /** `_verification_call`: refused while closing. */
    method EnterCall(d: string, sync: bool, refresh: bool) returns (entered: bool)
      requires Valid()
      modifies this
      ensures Valid() && entered == !old(closing)
      ensures View(d) == Step(old(View(d)), NewCall(sync, refresh)) && OnlyTouches(d)
    {
      hide Inv, CoalesceStep, ClaimStep, WorkStep, EnterStep, LookStep, LeadStep;
      Tick(d);
      entered := EnterCallRegion(d, sync, refresh);
      StepInv(old(View(d)), NewCall(sync, refresh));
      forall x ensures Inv(View(x)) { assert x != d ==> View(x) == old(View(x)); }
    }

    /** The claiming region of `_coalesce`: joins what is pending, or leads. */
    method Coalesce(d: string, i: nat, w: Want)
      requires Valid() && i < |CallsOf(d)| && CallsOf(d)[i].pc == Coalescing(w)
      modifies this
      ensures Valid() && View(d) == Step(old(View(d)), CallSteps(i, false)) && OnlyTouches(d)
    {
      hide Inv, CoalesceStep, ClaimStep, WorkStep, EnterStep, LookStep, LeadStep;
      Tick(d);
      CoalesceRegion(d, i, w);
      StepInv(old(View(d)), CallSteps(i, false));
      forall x ensures Inv(View(x)) { assert x != d ==> View(x) == old(View(x)); }
    }

    /** The claiming region of `_async_reusable_verification`. */
    method AsyncClaim(d: string, i: nat, w: Want)
      requires Valid() && i < |CallsOf(d)| && CallsOf(d)[i].pc == Claiming(w) && (w.WantLookup? || w.WantStatus?)
      modifies this
      ensures Valid() && View(d) == Step(old(View(d)), CallSteps(i, false)) && OnlyTouches(d)
    {
      hide Inv, CoalesceStep, ClaimStep, WorkStep, EnterStep, LookStep, LeadStep;
      Tick(d);
      AsyncClaimRegion(d, i, w);
      StepInv(old(View(d)), CallSteps(i, false));
      forall x ensures Inv(View(x)) { assert x != d ==> View(x) == old(View(x)); }
    }

    /** The claiming region of `_refresh_status` when the cache turned out empty: joins a refresh or a
        lookup, or leads a lookup of its own. */
    method StatusJoinsOrLeads(d: string, f: Fid, cached: Evidence)
      requires Valid() && f < |FuturesOf(d)| && FuturesOf(d)[f].phase == StatusClaim(cached)
      modifies this
      ensures Valid() && View(d) == Step(old(View(d)), WorkSteps(f, 0, 0, false, false)) && OnlyTouches(d)
    {
      hide Inv, CoalesceStep, ClaimStep, WorkStep, EnterStep, LookStep, LeadStep;
      Tick(d);
      StatusJoinsOrLeadsRegion(d, f, cached);
      StepInv(old(View(d)), WorkSteps(f, 0, 0, false, false));
      forall x ensures Inv(View(x)) { assert x != d ==> View(x) == old(View(x)); }
    }

    /** The cache region of `_cache_verification`, for the evidence that `f` acquired. */
    method CacheVerified(d: string, f: Fid, e: Evidence, stale: bool)
      requires Valid() && f < |FuturesOf(d)| && FuturesOf(d)[f].phase == Acquired(e)
      modifies this
      ensures Valid() && View(d) == Step(old(View(d)), WorkSteps(f, 0, 0, false, stale)) && OnlyTouches(d)
    {
      hide Inv, CoalesceStep, ClaimStep, WorkStep, EnterStep, LookStep, LeadStep;
      Tick(d);
      CacheVerifiedRegion(d, f, e, stale);
      StepInv(old(View(d)), WorkSteps(f, 0, 0, false, stale));
      forall x ensures Inv(View(x)) { assert x != d ==> View(x) == old(View(x)); }
    }

    /** The compare-and-swap region of `_cache_refreshed_status`. */
    method CacheRefreshedStatus(d: string, f: Fid, latest: Evidence, refreshed: Evidence, stale: bool)
      requires Valid() && f < |FuturesOf(d)| && FuturesOf(d)[f].phase == Swapping(latest, refreshed)
      modifies this
      ensures Valid() && View(d) == Step(old(View(d)), WorkSteps(f, 0, 0, false, stale)) && OnlyTouches(d)
    {
      hide Inv, CoalesceStep, ClaimStep, WorkStep, EnterStep, LookStep, LeadStep;
      Tick(d);
      CacheRefreshedStatusRegion(d, f, latest, refreshed, stale);
      StepInv(old(View(d)), WorkSteps(f, 0, 0, false, stale));
      forall x ensures Inv(View(x)) { assert x != d ==> View(x) == old(View(x)); }
    }

    /** `_finish_verification`, its tracking region: the future stays drainable once it leaves its
        dictionary. */
    method TrackFinished(d: string, f: Fid, o: Outcome)
      requires Valid() && f < |FuturesOf(d)| && FuturesOf(d)[f].phase == Finishing(o)
      modifies this
      ensures Valid() && View(d) == Step(old(View(d)), WorkSteps(f, 0, 0, false, false)) && OnlyTouches(d)
    {
      hide Inv, CoalesceStep, ClaimStep, WorkStep, EnterStep, LookStep, LeadStep;
      Tick(d);
      TrackFinishedRegion(d, f, o);
      StepInv(old(View(d)), WorkSteps(f, 0, 0, false, false));
      forall x ensures Inv(View(x)) { assert x != d ==> View(x) == old(View(x)); }
    }

    /** `_finish_verification`, its removal region. */
    method RemoveFinished(d: string, f: Fid, o: Outcome)
      requires Valid() && f < |FuturesOf(d)| && FuturesOf(d)[f].phase == Tracked(o)
      modifies this
      ensures Valid() && View(d) == Step(old(View(d)), WorkSteps(f, 0, 0, false, false)) && OnlyTouches(d)
    {
      hide Inv, CoalesceStep, ClaimStep, WorkStep, EnterStep, LookStep, LeadStep;
      Tick(d);
      RemoveFinishedRegion(d, f, o);
      StepInv(old(View(d)), WorkSteps(f, 0, 0, false, false));
      forall x ensures Inv(View(x)) { assert x != d ==> View(x) == old(View(x)); }
    }

    // ---- Shutdown ----

    /** One domain's share of `_pending_verification_work`: whether an unfinished future is in the active
        set, among the workers, or in a dictionary. */
    method HasPendingWork(d: string) returns (pending: bool)
      ensures pending == !NothingPending(View(d))
    {
      var cs, ws := CallsOf(d), FuturesOf(d);
      pending := false;
      for i := 0 to |cs|
        invariant pending <==> exists j :: 0 <= j < i && Active(cs[j])
      {
        pending := pending || Active(cs[i]);
      }
      var active := pending;
      for f := 0 to |ws|
        invariant pending <==> active || exists g :: 0 <= g < f && ws[g].tracked && !ws[g].phase.Settled?
      {
        pending := pending || (ws[f].tracked && !ws[f].phase.Settled?);
      }
      var slots := [Get(verificationFutures, d), Get(refreshFutures, d), Get(statusFutures, d)];
      var known := pending;
      for n := 0 to 3
        invariant pending <==> known || exists m :: 0 <= m < n && Unfinished(slots[m], ws)
      {
        pending := pending || Unfinished(slots[n], ws);
      }
      assert slots[0] == View(d).lookup && slots[1] == View(d).refresh && slots[2] == View(d).status;
    }

    /** `_pending_verification_work`: over all domains the manager has met. */
    method PendingVerificationWork() returns (pending: bool)
      ensures !pending <==> forall d :: NothingPending(View(d))
    {
      var met := calls.Keys + futures.Keys + verificationFutures.Keys + refreshFutures.Keys + statusFutures.Keys;
      var left := met;
      while left != {}
        invariant left <= met && forall d | d !in left :: NothingPending(View(d))
        decreases left
      {
        var d :| d in left;
        pending := HasPendingWork(d);
        if pending {
          return;
        }
        left := left - {d};
      }
      pending := false;
    }

    method StoreSlots(d: string, s: State)
      modifies this`verificationFutures, this`refreshFutures, this`statusFutures
      ensures View(d) == old(View(d)).(lookup := s.lookup, refresh := s.refresh, status := s.status) && OnlyTouches(d)
    {
      StoreSlot(d, Lookup, s.lookup);
      StoreSlot(d, Refresh, s.refresh);
      StoreSlot(d, Status, s.status);
    }

    method StoreLists(d: string, s: State)
      modifies this`futures, this`calls
      ensures View(d) == old(View(d)).(futures := s.futures, calls := s.calls) && OnlyTouches(d)
    {
      hide Get;
      futures := futures[d := s.futures];
      calls := calls[d := s.calls];
    }

    method StoreRest(d: string, s: State)
      requires s.clock >= common
      modifies this`ticks, this`cache, this`futures, this`calls
      ensures View(d) == old(View(d)).(clock := s.clock, cache := s.cache, futures := s.futures, calls := s.calls)
      ensures OnlyTouches(d)
    {
      hide Get, Put;
      SetCache(d, s.cache);
      StoreLists(d, s);
      ticks := ticks[d := s.clock - common];
    }

    /** What another thread does to a domain, whichever region or completion that is. */
    method OtherThread(d: string, c: Choice)
      requires Valid() && !c.Close?
      modifies this
      ensures Valid() && View(d) == Step(old(View(d)), c) && OnlyTouches(d)
    {
      hide Inv, Step;
      StepKeepsCommon(View(d), c);
      var s := Step(View(d), c);
      StoreSlots(d, s);
      StoreRest(d, s);
      StepInv(old(View(d)), c);
      forall x ensures Inv(View(x)) { assert x != d ==> View(x) == old(View(x)); }
    }

    /** `close`: refused on an event loop with work pending; otherwise no call enters any more, and each
        round waits for what is pending while other threads go on.  When it gets to closing resources,
        every future of every domain is done and no call is active. */
    method Close(onEventLoop: bool, rounds: seq<seq<(string, Choice)>>) returns (r: CloseResult)
      requires Valid() && forall i, j | 0 <= i < |rounds| && 0 <= j < |rounds[i]| :: !rounds[i][j].1.Close?
      modifies this
      ensures Valid()
      ensures r.Closed? ==> closed && (old(closed) || (closing && forall d :: Drained(View(d))))
      ensures r.Refused? <==> !old(closed) && onEventLoop && exists d :: !NothingPending(old(View(d)))
      ensures r.Refused? ==> closed == old(closed) && forall d :: View(d) == old(View(d))
      ensures r.StillWaiting? ==> closing && closed == old(closed) && exists d :: !NothingPending(View(d))
    {
      hide Inv, Step, NothingPending, Drained;
      if closed {
        return Closed;
      }
      var pending := PendingVerificationWork();
      assert pending <==> exists d :: !NothingPending(old(View(d))) by {
        assert forall d :: View(d) == old(View(d));
        if pending {
          var d :| !NothingPending(View(d));
          assert View(d) == old(View(d));
        }
      }
      if pending && onEventLoop {
        return Refused;
      }
      StartClosing();
      pending := PendingVerificationWork();
      var n := 0;
      while pending && n < |rounds|
        invariant n <= |rounds| && Valid() && closing && !closed
        invariant !pending <==> forall d :: NothingPending(View(d))
      {
        Wait(rounds[n]);
        pending := PendingVerificationWork();
        n := n + 1;
      }
      if pending {
        ghost var d :| !NothingPending(View(d));
        return StillWaiting;
      }
      label Before:
      closed := true;
      forall d
        ensures Inv(View(d)) && Drained(View(d))
      {
        assert View(d) == old@Before(View(d));
        assert old@Before(Inv(View(d)));
        NothingPendingIsDrained(View(d));
      }
      return Closed;
    }

    method StartClosing()
      requires Valid()
      modifies this`closing, this`common
      ensures Valid() && closing && forall d :: View(d) == Step(old(View(d)), Choice.Close)
    {
      hide Inv;
      closing, common := true, common + 1;
      forall d
        ensures Inv(View(d))
      {
        assert Inv(old(View(d)));
        StepInv(old(View(d)), Choice.Close);
        assert View(d) == Step(old(View(d)), Choice.Close);
      }
    }

    /** A round of waiting: other threads take these steps. */
    method Wait(steps: seq<(string, Choice)>)
      requires Valid() && closing && forall j | 0 <= j < |steps| :: !steps[j].1.Close?
      modifies this
      ensures Valid() && closing && closed == old(closed)
    {
      hide Inv, Step, Valid;
      for j := 0 to |steps|
        invariant Valid() && closing && closed == old(closed)
      {
        StepKeepsCommon(View(steps[j].0), steps[j].1);
        OtherThread(steps[j].0, steps[j].1);
        assert View(steps[j].0).closing;
      }
    }
  }

  predicate Unfinished(slot: Option<Fid>, ws: seq<Future>) {
    slot.Some? && !(slot.value < |ws| && ws[slot.value].phase.Settled?)
  }

  lemma GetPut<T>(m: map<string, T>, d: string, v: Option<T>)
    ensures Get(Put(m, d, v), d) == v && forall x | x != d :: Get(Put(m, d, v), x) == Get(m, x)
  {
  }

  lemma StepKeepsCommon(s: State, c: Choice)
    requires !c.Close?
    ensures Step(s, c).clock == s.clock + 1 && Step(s, c).closing == s.closing
  {
    hide CallStep, WorkStep;
    var s1 := s.(clock := s.clock + 1);
    if c.CallSteps? && c.call < |s.calls| {
      CallEffect(s1, c.call, c.statusFresh);
    }
    if c.WorkSteps? && c.future < |s.futures| {
      WorkHasEffect(s1, c.future, c.ttl, c.now, c.active, c.stale);
    }
  }
}
