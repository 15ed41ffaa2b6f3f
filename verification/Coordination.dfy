/** Verification coordination for one domain (dnsid/manager.py): the three slots of in-flight futures
    (lookup, explicit refresh, status refresh), the identity cache, the calls that lead or join them,
    and shutdown.  One step is one region under the coordination lock, one cache access, or one
    completion; steps of all calls and all leaders interleave freely.

    The regions touch only the entries of their own domain, so the machine is stated for one domain;
    Coordinators shows the projection for the manager's dictionaries. */
module Coordination {
  import opened Options

  /** A future, by the order of creation. */
  type Fid = nat

  /** Verified evidence: the future whose work acquired it, its DNS TTL, when that acquisition began
      (on the machine's own clock), and the last status check (as the wall clock said). */
  datatype Evidence = Evidence(origin: Fid, ttl: nat, acquiredAt: nat, checkedAt: int)

  /** `notActive` is the STATUS_NOT_ACTIVE verification error. */
  datatype Outcome = Verified(evidence: Evidence) | VerificationError(notActive: bool) | OtherError

  /** A private future belongs to one zero-TTL retry: it is in no slot and never writes the cache. */
  datatype Kind = Lookup | Refresh | Status | Private(revalidate: bool)

  /** What a call asks the coordinator for; a status refresh comes with the entry the call saw. */
  datatype Want = WantLookup | WantRefresh | WantStatus(cached: Evidence) | WantPrivate(revalidate: bool)

  datatype Leader = ByCall(call: nat) | ByStatus(future: Fid)

  /** How far the work of a future is.  Work that returns evidence is checked against its budget once more
      and may still fail then, whatever it wrote. */
  datatype Phase =
    | Queued
    | AwaitClaimed(previous: Fid)
    | ReadPrevious
    | AwaitPrevious(previous: Fid)
    | Acquiring(since: nat)
    | Acquired(evidence: Evidence)
    | ReadCache(cached: Evidence)
    | StatusClaim(cached: Evidence)
    | Joined(joined: Fid, leads: bool, cached: Evidence)
    | JoinedPrivate(joined: Fid)
    | Fetching(latest: Evidence)
    | Swapping(latest: Evidence, refreshed: Evidence)
    | Returning(evidence: Evidence)
    | Finishing(outcome: Outcome)
    | Tracked(outcome: Outcome)
    | Removed(outcome: Outcome)
    | Settled(outcome: Outcome)

  datatype Future = Future(kind: Kind, sync: bool, leader: Leader, phase: Phase, tracked: bool)

  datatype CallPc =
    | Entered
    | SyncJoined(future: Fid)
    | Looking
    | Coalescing(want: Want)
    | CoalesceJoined(want: Want, future: Fid)
    | Forgetting(want: Want, future: Fid)
    | Claiming(want: Want)
    | AsyncJoined(future: Fid)
    | Leading(future: Fid)
    | Returned(evidence: Evidence)
    | Raised

  datatype Call = Call(sync: bool, refresh: bool, pc: CallPc)

  datatype State = State(
    clock: nat, lookup: Option<Fid>, refresh: Option<Fid>, status: Option<Fid>,
    cache: Option<Evidence>, futures: seq<Future>, calls: seq<Call>, closing: bool)

  /** What the environment decides.  `ttl`, `now` and `stale` are the DNS TTL that an acquisition
      meets, the clock reading of a status check, and whether evidence expired before a cache put. */
  datatype Choice =
    | NewCall(sync: bool, refresh: bool)
    | CallSteps(call: nat, statusFresh: bool)
    | CallRaises(call: nat)
    | WorkSteps(future: Fid, ttl: nat, now: int, active: bool, stale: bool)
    | WorkFails(future: Fid, outcome: Outcome)
    | Evict
    | Close

  // ---- Slots ----

  function KindOf(w: Want): Kind {
    match w
    case WantLookup => Lookup
    case WantRefresh => Refresh
    case WantStatus(_) => Status
    case WantPrivate(revalidate) => Private(revalidate)
  }

  function Slot(s: State, k: Kind): Option<Fid> {
    match k
    case Lookup => s.lookup
    case Refresh => s.refresh
    case Status => s.status
    case Private(_) => None
  }

  function SetSlot(s: State, k: Kind, f: Option<Fid>): State {
    match k
    case Lookup => s.(lookup := f)
    case Refresh => s.(refresh := f)
    case Status => s.(status := f)
    case Private(_) => s
  }

  function OrElse(a: Option<Fid>, b: Option<Fid>): Option<Fid> {
    if a.Some? then a else b
  }

  function Full(s: State): Option<Fid> {
    OrElse(s.refresh, s.lookup)
  }

  predicate IsSettled(s: State, f: Fid) {
    f < |s.futures| && s.futures[f].phase.Settled?
  }

  // ---- Building steps ----

  function SetPhase(s: State, f: Fid, p: Phase): State
    requires f < |s.futures|
  {
    s.(futures := s.futures[f := s.futures[f].(phase := p)])
  }

  function SetPc(s: State, i: nat, pc: CallPc): State
    requires i < |s.calls|
  {
    s.(calls := s.calls[i := s.calls[i].(pc := pc)])
  }

  /** Creates a future and, unless it is private, puts it in its slot.  A private one is tracked as a
      worker from the start. */
  function Create(s: State, k: Kind, sync: bool, leader: Leader, p: Phase): State {
    var f := |s.futures|;
    SetSlot(s, k, Some(f)).(futures := s.futures + [Future(k, sync, leader, p, k.Private?)])
  }

  /** The first phase of the work; a sync-led refresh notes the lookup it must let finish first. */
  function FirstPhase(s: State, w: Want, sync: bool): Phase {
    match w
    case WantLookup => Queued
    case WantRefresh => if sync && s.lookup.Some? then AwaitClaimed(s.lookup.value) else ReadPrevious
    case WantStatus(cached) => ReadCache(cached)
    case WantPrivate(revalidate) => if revalidate then ReadPrevious else Queued
  }

  function Lead(s: State, i: nat, w: Want, sync: bool): State
    requires i < |s.calls|
  {
    SetPc(Create(s, KindOf(w), sync, ByCall(i), FirstPhase(s, w, sync)), i, Leading(|s.futures|))
  }

  // ---- Calls ----

  /** What a caller that did not lead does with a settled result: reuse it, unless it has a zero TTL. */
  function Reuse(s: State, i: nat, f: Fid, onZeroTtl: CallPc): State
    requires i < |s.calls| && IsSettled(s, f)
  {
    match s.futures[f].phase.outcome
    case Verified(e) => if e.ttl != 0 then SetPc(s, i, Returned(e)) else SetPc(s, i, onZeroTtl)
    case _ => SetPc(s, i, Raised)
  }

  /** A call's first region: an explicit refresh asks for its slot, a lookup for anything in flight. */
  function EnterStep(s: State, i: nat): State
    requires i < |s.calls|
  {
    var c := s.calls[i];
    if c.refresh && c.sync then SetPc(s, i, Coalescing(WantRefresh))
    else if c.refresh then
      if s.refresh.Some? then SetPc(s, i, AsyncJoined(s.refresh.value)) else Lead(s, i, WantRefresh, false)
    else
      var f := OrElse(Full(s), s.status);
      if f.None? then SetPc(s, i, Looking)
      else SetPc(s, i, if c.sync then SyncJoined(f.value) else AsyncJoined(f.value))
  }

  /** The cache read: a hit with a recent status check is returned, an old one asks for a status
      refresh, a miss for a lookup. */
  function LookStep(s: State, i: nat, statusFresh: bool): State
    requires i < |s.calls|
  {
    if s.cache.Some? && statusFresh then SetPc(s, i, Returned(s.cache.value))
    else
      var w := if s.cache.Some? then WantStatus(s.cache.value) else WantLookup;
      SetPc(s, i, if s.calls[i].sync then Coalescing(w) else Claiming(w))
  }

  /** The claiming region of `_coalesce`. */
  function CoalesceStep(s: State, i: nat, w: Want): State
    requires i < |s.calls|
  {
    var f := if w.WantLookup? then Full(s) else Slot(s, KindOf(w));
    if f.Some? then SetPc(s, i, CoalesceJoined(w, f.value)) else Lead(s, i, w, true)
  }

  /** The claiming region of `_async_reusable_verification`. */
  function ClaimStep(s: State, i: nat, w: Want): State
    requires i < |s.calls|
  {
    var f := OrElse(Full(s), s.status);
    if f.Some? then SetPc(s, i, AsyncJoined(f.value)) else Lead(s, i, w, false)
  }

  /** An async caller that joined: zero-TTL evidence makes it retry privately. */
  function AsyncJoinStep(s: State, i: nat, f: Fid): State
    requires i < |s.calls|
  {
    if !IsSettled(s, f) then s
    else if s.futures[f].phase.outcome.Verified? && s.futures[f].phase.outcome.evidence.ttl == 0
    then Lead(s, i, WantPrivate(s.calls[i].refresh), false)
    else Reuse(s, i, f, Raised)
  }

  /** The leader takes its future's outcome as it is. */
  function LeadStep(s: State, i: nat, f: Fid): State
    requires i < |s.calls|
  {
    if !IsSettled(s, f) then s
    else if s.futures[f].phase.outcome.Verified? then SetPc(s, i, Returned(s.futures[f].phase.outcome.evidence))
    else SetPc(s, i, Raised)
  }

  function ForgetStep(s: State, i: nat, w: Want, f: Fid): State
    requires i < |s.calls|
  {
    SetPc(if Slot(s, KindOf(w)) == Some(f) then SetSlot(s, KindOf(w), None) else s, i, Coalescing(w))
  }

  function CallStep(s: State, i: nat, statusFresh: bool): State
    requires i < |s.calls|
  {
    match s.calls[i].pc
    case Entered => EnterStep(s, i)
    case Looking => LookStep(s, i, statusFresh)
    case SyncJoined(f) => if IsSettled(s, f) then Reuse(s, i, f, Coalescing(WantLookup)) else s
    case Coalescing(w) => CoalesceStep(s, i, w)
    case CoalesceJoined(w, f) => if IsSettled(s, f) then Reuse(s, i, f, Forgetting(w, f)) else s
    case Forgetting(w, f) => ForgetStep(s, i, w, f)
    case Claiming(w) => ClaimStep(s, i, w)
    case AsyncJoined(f) => AsyncJoinStep(s, i, f)
    case Leading(f) => LeadStep(s, i, f)
    case _ => s
  }

  // ---- Work ----

  /** How work goes on with what it came to. */
  function After(o: Outcome): Phase {
    if o.Verified? then Returning(o.evidence) else Finishing(o)
  }

  predicate Caches(k: Kind) {
    k.Lookup? || k.Refresh?
  }

  /** The cache region of `_cache_verification`. */
  function CacheVerification(s: State, k: Kind, e: Evidence, stale: bool): State {
    if !Caches(k) then s
    else s.(cache := if e.ttl > 0 && !stale then Some(e) else None)
  }

  /** The compare-and-swap region of `_cache_refreshed_status`. */
  function SwapStatus(s: State, f: Fid, latest: Evidence, refreshed: Evidence, stale: bool): State
    requires f < |s.futures|
  {
    if s.cache.None? then SetPhase(s, f, Finishing(VerificationError(false)))
    else if s.cache.value != latest then SetPhase(s, f, Returning(s.cache.value))
    else SetPhase(s.(cache := if stale then None else Some(refreshed)), f, Returning(refreshed))
  }

  /** The removal region of `_finish_verification`. */
  function RemoveFromSlot(s: State, f: Fid, o: Outcome): State
    requires f < |s.futures|
  {
    var k := s.futures[f].kind;
    var s1 := if o == VerificationError(true) then s.(cache := None) else s;
    SetPhase(if Slot(s1, k) == Some(f) then SetSlot(s1, k, None) else s1, f, Removed(o))
  }

  /** A refresh goes on after the lookup it waited for, whatever verification error that ended in. */
  function AfterPrevious(s: State, f: Fid, p: Fid, next: Phase): State
    requires f < |s.futures|
  {
    if !IsSettled(s, p) then s
    else if s.futures[p].phase.outcome.OtherError? then SetPhase(s, f, Finishing(OtherError))
    else SetPhase(s, f, next)
  }

  /** A status refresh that joined full work: zero-TTL evidence is its own only if it led that work
      itself; otherwise a sync leader starts over and an async one retries privately. */
  function AfterJoined(s: State, f: Fid, o: Outcome, leads: bool, cached: Evidence): State
    requires f < |s.futures|
  {
    var sync := s.futures[f].sync;
    if !o.Verified? || o.evidence.ttl != 0 || (leads && !sync) then SetPhase(s, f, After(o))
    else if sync then SetPhase(s, f, ReadCache(cached))
    else SetPhase(Create(s, Private(false), false, ByStatus(f), Queued), f, JoinedPrivate(|s.futures|))
  }

  function StatusStep(s: State, f: Fid, now: int, active: bool, stale: bool): State
    requires f < |s.futures|
  {
    var w := s.futures[f];
    match w.phase
    case ReadCache(cached) =>
      if s.cache.None? then SetPhase(s, f, StatusClaim(cached))
      else if s.cache.value.checkedAt > cached.checkedAt then SetPhase(s, f, Returning(s.cache.value))
      else SetPhase(s, f, Fetching(s.cache.value))
    case StatusClaim(cached) =>
      if Full(s).Some? then SetPhase(s, f, Joined(Full(s).value, false, cached))
      else SetPhase(Create(s, Lookup, w.sync, ByStatus(f), Queued), f, Joined(|s.futures|, true, cached))
    case Joined(g, leads, cached) =>
      if !IsSettled(s, g) then s
      else AfterJoined(s, f, s.futures[g].phase.outcome, leads, cached)
    case JoinedPrivate(g) =>
      if IsSettled(s, g) then SetPhase(s, f, After(s.futures[g].phase.outcome)) else s
    case Fetching(latest) =>
      if active then SetPhase(s, f, Swapping(latest, latest.(checkedAt := now)))
      else SetPhase(s.(cache := None), f, Finishing(VerificationError(true)))
    case Swapping(latest, refreshed) => SwapStatus(s, f, latest, refreshed, stale)
    case _ => s
  }

  function WorkStep(s: State, f: Fid, ttl: nat, now: int, active: bool, stale: bool): State
    requires f < |s.futures|
  {
    var w := s.futures[f];
    match w.phase
    case Queued => SetPhase(s, f, Acquiring(s.clock))
    case AwaitClaimed(p) => AfterPrevious(s, f, p, ReadPrevious)
    case ReadPrevious =>
      if s.lookup.Some? then SetPhase(s, f, AwaitPrevious(s.lookup.value)) else SetPhase(s, f, Acquiring(s.clock))
    case AwaitPrevious(p) => AfterPrevious(s, f, p, Acquiring(s.clock))
    case Acquiring(since) => SetPhase(s, f, Acquired(Evidence(f, ttl, since, now)))
    case Acquired(e) => SetPhase(CacheVerification(s, w.kind, e, stale), f, Returning(e))
    case Returning(e) => SetPhase(s, f, Finishing(Verified(e)))
    case Finishing(o) => s.(futures := s.futures[f := w.(phase := Tracked(o), tracked := true)])
    case Tracked(o) => RemoveFromSlot(s, f, o)
    case Removed(o) => s.(futures := s.futures[f := w.(phase := Settled(o), tracked := false)])
    case Settled(_) => s
    case _ => StatusStep(s, f, now, active, stale)
  }

  predicate Working(p: Phase) {
    !p.Finishing? && !p.Tracked? && !p.Removed? && !p.Settled?
  }

  // ---- The machine ----

  /** One step.  A choice that does not fit changes nothing but the clock. */
  function Step(s: State, c: Choice): State {
    var s1 := s.(clock := s.clock + 1);
    match c
    case NewCall(sync, refresh) =>
      if s.closing then s1 else s1.(calls := s.calls + [Call(sync, refresh, Entered)])
    case CallSteps(i, statusFresh) =>
      if i < |s.calls| then CallStep(s1, i, statusFresh) else s1
    case CallRaises(i) =>
      if i < |s.calls| && !s.calls[i].pc.Returned? then SetPc(s1, i, Raised) else s1
    case WorkSteps(f, ttl, now, active, stale) =>
      if f < |s.futures| then WorkStep(s1, f, ttl, now, active, stale) else s1
    case WorkFails(f, o) =>
      if f < |s.futures| && Working(s.futures[f].phase) && !o.Verified? then SetPhase(s1, f, Finishing(o)) else s1
    case Evict => s1.(cache := None)
    case Close => s1.(closing := true)
  }

  function Run(s: State, choices: seq<Choice>): State
    decreases |choices|
  {
    if choices == [] then s else Run(Step(s, choices[0]), choices[1..])
  }

  const INITIAL := State(0, None, None, None, None, [], [], false)

  // ---- Shutdown ----

  predicate Active(c: Call) {
    !c.pc.Returned? && !c.pc.Raised?
  }

  /** `_pending_verification_work`: unfinished futures found among the calls, the tracked workers and
      the three slots. */
  predicate NothingPending(s: State) {
    && (forall c | c in s.calls :: !Active(c))
    && (forall w | w in s.futures && w.tracked :: w.phase.Settled?)
    && (s.lookup.Some? ==> IsSettled(s, s.lookup.value))
    && (s.refresh.Some? ==> IsSettled(s, s.refresh.value))
    && (s.status.Some? ==> IsSettled(s, s.status.value))
  }
}
