/** What every step of the coordination machine keeps. */
module CoordinationSafety {
  import opened Options
  import opened Coordination

  // ---- The invariant ----

  /** Out of its slot for good. */
  predicate Gone(p: Phase) {
    p.Removed? || p.Settled?
  }

  /** The slots hold unfinished futures of their own kind. */
  predicate SlotInv(s: State, k: Kind) {
    Slot(s, k).Some? ==>
      var f := Slot(s, k).value;
      f < |s.futures| && s.futures[f].kind == k && !Gone(s.futures[f].phase)
  }

  /** A future that is not gone is in its slot; only private ones have none. */
  predicate InSlot(s: State, f: Fid)
    requires f < |s.futures|
  {
    s.futures[f].kind.Private? || Gone(s.futures[f].phase) || Slot(s, s.futures[f].kind) == Some(f)
  }

  predicate IsKind(fs: seq<Future>, f: Fid, k: Kind) {
    f < |fs| && fs[f].kind == k
  }

  predicate LedByStatus(fs: seq<Future>, g: Fid, f: Fid) {
    g < |fs| && fs[g].leader == ByStatus(f)
  }

  /** Evidence with a zero TTL that `f` ends with was acquired by `f` itself, or by work it led. */
  predicate OutcomeOk(fs: seq<Future>, f: Fid, o: Outcome)
    requires f < |fs|
  {
    o.Verified? ==>
      && (!fs[f].kind.Status? ==> o.evidence.origin == f)
      && (o.evidence.ttl == 0 ==> o.evidence.origin == f || LedByStatus(fs, o.evidence.origin, f))
  }

  /** The phases each kind goes through, and what they may refer to. */
  predicate PhaseOk(fs: seq<Future>, f: Fid)
    requires f < |fs|
  {
    var w := fs[f];
    match w.phase
    case Queued => w.kind.Lookup? || w.kind == Private(false)
    case AwaitClaimed(p) => w.kind.Refresh? && w.sync && IsKind(fs, p, Lookup)
    case ReadPrevious => w.kind.Refresh? || w.kind == Private(true)
    case AwaitPrevious(p) => (w.kind.Refresh? || w.kind == Private(true)) && !w.sync && IsKind(fs, p, Lookup)
    case Acquiring(_) => !w.kind.Status?
    case Acquired(e) => !w.kind.Status? && e.origin == f
    case ReadCache(_) => w.kind.Status?
    case StatusClaim(_) => w.kind.Status?
    case Joined(g, leads, _) =>
      && w.kind.Status? && (IsKind(fs, g, Lookup) || IsKind(fs, g, Refresh))
      && (leads ==> IsKind(fs, g, Lookup) && LedByStatus(fs, g, f))
    case JoinedPrivate(g) => w.kind.Status? && IsKind(fs, g, Private(false)) && LedByStatus(fs, g, f)
    case Fetching(latest) => w.kind.Status? && latest.ttl > 0
    case Swapping(latest, refreshed) => w.kind.Status? && latest.ttl > 0
          && refreshed == latest.(checkedAt := refreshed.checkedAt)
    case Returning(e) => OutcomeOk(fs, f, Verified(e))
    case Finishing(o) => OutcomeOk(fs, f, o)
    case Tracked(o) => OutcomeOk(fs, f, o) && w.tracked
    case Removed(o) => OutcomeOk(fs, f, o) && w.tracked
    case Settled(o) => OutcomeOk(fs, f, o)
  }

  predicate LeaderOk(fs: seq<Future>, calls: nat, f: Fid)
    requires f < |fs|
  {
    && (match fs[f].leader
        case ByCall(i) => i < calls
        case ByStatus(g) => g < |fs| && fs[g].kind.Status? && fs[g].leader.ByCall?)
    && (fs[f].kind.Status? ==> fs[f].leader.ByCall?)
    && (fs[f].kind.Private? && !fs[f].phase.Settled? ==> fs[f].tracked)
    && (fs[f].kind.Private? ==> !fs[f].sync)
  }

  /** Work that will write the cache acquires evidence newer than anything cached. */
  predicate TimeOk(s: State, f: Fid)
    requires f < |s.futures|
  {
    var w := s.futures[f];
    Caches(w.kind) ==>
      && (w.phase.Acquiring? ==> NewerThanCache(s, w.phase.since))
      && (w.phase.Acquired? ==> NewerThanCache(s, w.phase.evidence.acquiredAt))
  }

  predicate NewerThanCache(s: State, t: nat) {
    t <= s.clock && (s.cache.Some? ==> s.cache.value.acquiredAt < t)
  }

  /** An explicit refresh acquires only while no lookup is in flight; and one that was claimed by a
      sync caller finds none once it runs. */
  predicate OrderInv(s: State) {
    s.refresh.Some? && s.refresh.value < |s.futures| ==>
      var w := s.futures[s.refresh.value];
      match w.phase
      case AwaitClaimed(p) => s.lookup.Some? ==> s.lookup == Some(p)
      case ReadPrevious => w.sync ==> s.lookup.None?
      case AwaitPrevious(p) => s.lookup.Some? ==> s.lookup == Some(p)
      case Acquiring(_) => s.lookup.None?
      case Acquired(_) => s.lookup.None?
      case _ => true
  }

  predicate CacheInv(s: State) {
    s.cache.Some? ==> s.cache.value.ttl > 0 && s.cache.value.acquiredAt <= s.clock
  }

  /** The call at the end of the chain of leaders that acquired this evidence. */
  predicate OwnedBy(fs: seq<Future>, f: Fid, i: nat) {
    && f < |fs|
    && match fs[f].leader
       case ByCall(c) => c == i
       case ByStatus(g) => g < |fs| && fs[g].leader == ByCall(i)
  }

  predicate CallOk(fs: seq<Future>, i: nat, pc: CallPc) {
    match pc
    case SyncJoined(f) => f < |fs|
    case CoalesceJoined(w, f) => f < |fs| && !w.WantPrivate?
    case Forgetting(w, f) => f < |fs| && fs[f].phase.Settled? && !w.WantPrivate?
    case Coalescing(w) => !w.WantPrivate?
    case Claiming(w) => w.WantLookup? || w.WantStatus?
    case AsyncJoined(f) => f < |fs|
    case Leading(f) => f < |fs| && fs[f].leader == ByCall(i)
    case Returned(e) => e.ttl == 0 ==> OwnedBy(fs, e.origin, i)
    case _ => true
  }

  predicate FutureInv(s: State, f: Fid)
    requires f < |s.futures|
  {
    InSlot(s, f) && PhaseOk(s.futures, f) && LeaderOk(s.futures, |s.calls|, f) && TimeOk(s, f)
  }

  predicate Inv(s: State) {
    && SlotInv(s, Lookup) && SlotInv(s, Refresh) && SlotInv(s, Status)
    && OrderInv(s) && CacheInv(s)
    && (forall f | 0 <= f < |s.futures| :: FutureInv(s, f))
    && (forall i | 0 <= i < |s.calls| :: CallOk(s.futures, i, s.calls[i].pc))
  }

  // ---- Framing ----

  /** Only phases and tracking change; futures are only ever added. */
  predicate Grows(fs: seq<Future>, gs: seq<Future>) {
    && |fs| <= |gs|
    && forall f | 0 <= f < |fs| ::
         gs[f].kind == fs[f].kind && gs[f].leader == fs[f].leader && gs[f].sync == fs[f].sync
         && (fs[f].phase.Settled? ==> gs[f].phase == fs[f].phase)
  }

  lemma PhaseOkFrame(fs: seq<Future>, gs: seq<Future>, f: Fid)
    requires Grows(fs, gs) && f < |fs| && PhaseOk(fs, f) && gs[f] == fs[f]
    ensures PhaseOk(gs, f)
  {
  }

  lemma LeaderOkFrame(fs: seq<Future>, gs: seq<Future>, m: nat, n: nat, f: Fid)
    requires Grows(fs, gs) && f < |fs| && m <= n && LeaderOk(fs, m, f)
    requires gs[f].kind.Private? && !gs[f].phase.Settled? ==> gs[f].tracked
    ensures LeaderOk(gs, n, f)
  {
  }

  lemma CallOkFrame(fs: seq<Future>, gs: seq<Future>, i: nat, pc: CallPc)
    requires Grows(fs, gs) && CallOk(fs, i, pc)
    ensures CallOk(gs, i, pc)
  {
  }

  /** One future's phase (and tracking) changes; slots and cache stay. */
  lemma PhaseChangeInv(s: State, f: Fid, w: Future)
    requires Inv(s) && f < |s.futures|
    requires var s1 := s.(futures := s.futures[f := w]);
             && Grows(s.futures, s1.futures)
             && (Gone(w.phase) ==> Gone(s.futures[f].phase))
             && InSlot(s1, f) && PhaseOk(s1.futures, f) && LeaderOk(s1.futures, |s.calls|, f) && TimeOk(s1, f)
             && OrderInv(s1)
    ensures Inv(s.(futures := s.futures[f := w]))
  {
    hide OutcomeOk;
    var s1 := s.(futures := s.futures[f := w]);
    forall g | 0 <= g < |s1.futures|
      ensures FutureInv(s1, g)
    {
      assert FutureInv(s, g);
      if g != f {
        PhaseOkFrame(s.futures, s1.futures, g);
        LeaderOkFrame(s.futures, s1.futures, |s.calls|, |s.calls|, g);
      }
    }
    forall i | 0 <= i < |s1.calls|
      ensures CallOk(s1.futures, i, s1.calls[i].pc)
    {
      CallOkFrame(s.futures, s1.futures, i, s.calls[i].pc);
    }
  }

  /** One call's program counter changes. */
  lemma PcChangeInv(s: State, i: nat, pc: CallPc)
    requires Inv(s) && i < |s.calls| && CallOk(s.futures, i, pc)
    ensures Inv(SetPc(s, i, pc))
  {
    hide CallOk, PhaseOk, LeaderOk;
    var s1 := SetPc(s, i, pc);
    forall f | 0 <= f < |s1.futures|
      ensures FutureInv(s1, f)
    {
      assert FutureInv(s, f);
    }
  }

  /** A future is created. */
  lemma CreateInv(s: State, k: Kind, sync: bool, leader: Leader, p: Phase)
    requires Inv(s)
    requires if k.Private? then !sync else Slot(s, k).None?
    requires k.Lookup? ==> s.refresh.None?
    requires match leader
             case ByCall(i) => i < |s.calls|
             case ByStatus(g) => g < |s.futures| && s.futures[g].kind.Status? && !k.Status?
    requires p.Queued? || p.AwaitClaimed? || p.ReadPrevious? || p.ReadCache?
    requires PhaseOk(Create(s, k, sync, leader, p).futures, |s.futures|)
    requires k.Refresh? ==>
              (p.AwaitClaimed? && s.lookup == Some(p.previous)) || (p.ReadPrevious? && (sync ==> s.lookup.None?))
    ensures Inv(Create(s, k, sync, leader, p))
  {
    hide PhaseOk, CallOk, LeaderOk, InSlot, TimeOk;
    var s1 := Create(s, k, sync, leader, p);
    forall f | 0 <= f < |s1.futures|
      ensures FutureInv(s1, f)
    {
      CreateKeepsPlaces(s, k, sync, leader, p, f);
      if f < |s.futures| {
        assert FutureInv(s, f);
        PhaseOkFrame(s.futures, s1.futures, f);
        AppendedLeaderOk(s.futures, s1.futures, |s.calls|, f);
      } else {
        CreatedLeaderOk(s, k, sync, leader, p);
      }
    }
    forall i | 0 <= i < |s1.calls|
      ensures CallOk(s1.futures, i, s1.calls[i].pc)
    {
      CallOkFrame(s.futures, s1.futures, i, s.calls[i].pc);
    }
  }

  lemma CreateKeepsPlaces(s: State, k: Kind, sync: bool, leader: Leader, p: Phase, f: Fid)
    requires Inv(s) && f <= |s.futures|
    requires k.Private? || Slot(s, k).None?
    requires p.Queued? || p.AwaitClaimed? || p.ReadPrevious? || p.ReadCache?
    ensures InSlot(Create(s, k, sync, leader, p), f) && TimeOk(Create(s, k, sync, leader, p), f)
  {
    hide PhaseOk, CallOk, LeaderOk, OrderInv, CacheInv;
    if f < |s.futures| {
      assert FutureInv(s, f);
    }
  }

  lemma AppendedLeaderOk(fs: seq<Future>, gs: seq<Future>, calls: nat, f: Fid)
    requires fs <= gs && f < |fs| && LeaderOk(fs, calls, f)
    ensures LeaderOk(gs, calls, f)
  {
  }

  lemma CreatedLeaderOk(s: State, k: Kind, sync: bool, leader: Leader, p: Phase)
    requires Inv(s) && (k.Private? ==> !sync)
    requires match leader
             case ByCall(i) => i < |s.calls|
             case ByStatus(g) => g < |s.futures| && s.futures[g].kind.Status? && !k.Status?
    ensures LeaderOk(Create(s, k, sync, leader, p).futures, |s.calls|, |s.futures|)
  {
    hide PhaseOk, CallOk, InSlot, TimeOk, CacheInv, OrderInv, SlotInv;
    if leader.ByStatus? {
      assert FutureInv(s, leader.future);
    }
  }

  /** The cache is emptied. */
  lemma EvictInv(s: State)
    requires Inv(s)
    ensures Inv(s.(cache := None))
  {
    hide PhaseOk, LeaderOk, CallOk;
    var s1 := s.(cache := None);
    forall f | 0 <= f < |s1.futures|
      ensures FutureInv(s1, f)
    {
      assert FutureInv(s, f);
    }
  }

  lemma TickInv(s: State)
    requires Inv(s)
    ensures Inv(s.(clock := s.clock + 1))
  {
    hide PhaseOk, LeaderOk, CallOk;
    var s1 := s.(clock := s.clock + 1);
    forall f | 0 <= f < |s1.futures|
      ensures FutureInv(s1, f)
    {
      assert FutureInv(s, f);
    }
  }

  // ---- Steps of calls ----

  lemma LeadInv(s: State, i: nat, w: Want, sync: bool)
    requires Inv(s) && i < |s.calls|
    requires if w.WantPrivate? then !sync else Slot(s, KindOf(w)).None?
    requires w.WantLookup? ==> s.refresh.None?
    ensures Inv(Lead(s, i, w, sync))
  {
    hide OrderInv, CacheInv, FutureInv;
    CreateInv(s, KindOf(w), sync, ByCall(i), FirstPhase(s, w, sync));
    PcChangeInv(Create(s, KindOf(w), sync, ByCall(i), FirstPhase(s, w, sync)), i, Leading(|s.futures|));
  }

  lemma ReuseInv(s: State, i: nat, f: Fid, onZeroTtl: CallPc)
    requires Inv(s) && i < |s.calls| && IsSettled(s, f) && CallOk(s.futures, i, onZeroTtl)
    ensures Inv(Reuse(s, i, f, onZeroTtl))
  {
    hide Inv;
    var pc := Reuse(s, i, f, onZeroTtl).calls[i].pc;
    PcChangeInv(s, i, pc);
  }

  /** A leading call returns its own future's outcome: zero-TTL evidence there is its own. */
  lemma LeadStepInv(s: State, i: nat, f: Fid)
    requires Inv(s) && i < |s.calls| && s.calls[i].pc == Leading(f)
    ensures Inv(LeadStep(s, i, f))
  {
    hide SlotInv, OrderInv, CacheInv, InSlot, TimeOk;
    assert CallOk(s.futures, i, Leading(f));
    if IsSettled(s, f) {
      assert FutureInv(s, f);
      PcChangeInv(s, i, LeadStep(s, i, f).calls[i].pc);
    }
  }

  /** Forgetting a settled future never finds it in its slot any more. */
  lemma ForgetStepInv(s: State, i: nat, w: Want, f: Fid)
    requires Inv(s) && i < |s.calls| && s.calls[i].pc == Forgetting(w, f)
    ensures ForgetStep(s, i, w, f) == SetPc(s, i, Coalescing(w))
    ensures Inv(ForgetStep(s, i, w, f))
  {
    hide OrderInv, CacheInv, FutureInv;
    assert CallOk(s.futures, i, Forgetting(w, f));
    PcChangeInv(s, i, Coalescing(w));
  }

  lemma EnterStepInv(s: State, i: nat)
    requires Inv(s) && i < |s.calls|
    ensures Inv(EnterStep(s, i))
  {
    hide OrderInv, CacheInv, FutureInv;
    var c := s.calls[i];
    if c.refresh && !c.sync && s.refresh.None? {
      LeadInv(s, i, WantRefresh, false);
    } else {
      PcChangeInv(s, i, EnterStep(s, i).calls[i].pc);
    }
  }

  lemma LookStepInv(s: State, i: nat, statusFresh: bool)
    requires Inv(s) && i < |s.calls|
    ensures Inv(LookStep(s, i, statusFresh))
  {
    hide OrderInv, FutureInv;
    PcChangeInv(s, i, LookStep(s, i, statusFresh).calls[i].pc);
  }

  lemma CoalesceStepInv(s: State, i: nat, w: Want)
    requires Inv(s) && i < |s.calls| && !w.WantPrivate?
    ensures Inv(CoalesceStep(s, i, w))
  {
    hide OrderInv, CacheInv, FutureInv, Lead;
    var f := if w.WantLookup? then Full(s) else Slot(s, KindOf(w));
    if f.Some? {
      PcChangeInv(s, i, CoalesceJoined(w, f.value));
    } else {
      LeadInv(s, i, w, true);
    }
  }

  lemma ClaimStepInv(s: State, i: nat, w: Want)
    requires Inv(s) && i < |s.calls| && (w.WantLookup? || w.WantStatus?)
    ensures Inv(ClaimStep(s, i, w))
  {
    hide OrderInv, CacheInv, FutureInv, Lead;
    var f := OrElse(Full(s), s.status);
    if f.Some? {
      PcChangeInv(s, i, AsyncJoined(f.value));
    } else {
      LeadInv(s, i, w, false);
    }
  }

  lemma AsyncJoinStepInv(s: State, i: nat, f: Fid)
    requires Inv(s) && i < |s.calls|
    ensures Inv(AsyncJoinStep(s, i, f))
  {
    hide Inv, Lead, Reuse;
    if IsSettled(s, f) {
      if s.futures[f].phase.outcome.Verified? && s.futures[f].phase.outcome.evidence.ttl == 0 {
        LeadInv(s, i, WantPrivate(s.calls[i].refresh), false);
      } else {
        ReuseInv(s, i, f, Raised);
      }
    }
  }

  lemma CallStepInv(s: State, i: nat, statusFresh: bool)
    requires Inv(s) && i < |s.calls|
    ensures Inv(CallStep(s, i, statusFresh))
  {
    hide SlotInv, OrderInv, CacheInv, FutureInv, EnterStep, LookStep, CoalesceStep, ClaimStep, AsyncJoinStep,
         LeadStep, ForgetStep, Reuse;
    assert CallOk(s.futures, i, s.calls[i].pc);
    match s.calls[i].pc
    case Entered => EnterStepInv(s, i);
    case Looking => LookStepInv(s, i, statusFresh);
    case SyncJoined(f) => if IsSettled(s, f) { ReuseInv(s, i, f, Coalescing(WantLookup)); }
    case Coalescing(w) => CoalesceStepInv(s, i, w);
    case CoalesceJoined(w, f) => if IsSettled(s, f) { ReuseInv(s, i, f, Forgetting(w, f)); }
    case Forgetting(w, f) => ForgetStepInv(s, i, w, f);
    case Claiming(w) => ClaimStepInv(s, i, w);
    case AsyncJoined(f) => AsyncJoinStepInv(s, i, f);
    case Leading(f) => LeadStepInv(s, i, f);
    case _ =>
  }

  // ---- Steps of work ----

  /** At most one future acquires evidence for the cache. */
  lemma OneAcquirer(s: State, f: Fid, g: Fid)
    requires Inv(s) && f < |s.futures| && g < |s.futures|
    requires Caches(s.futures[f].kind) && (s.futures[f].phase.Acquiring? || s.futures[f].phase.Acquired?)
    requires Caches(s.futures[g].kind) && (s.futures[g].phase.Acquiring? || s.futures[g].phase.Acquired?)
    ensures f == g
  {
    hide PhaseOk, LeaderOk, CallOk, TimeOk;
    assert FutureInv(s, f) && FutureInv(s, g);
  }

  /** A phase change of a working future that stays in its slot. */
  lemma WorkPhaseInv(s: State, f: Fid, p: Phase)
    requires Inv(s) && f < |s.futures| && !Gone(s.futures[f].phase) && !Gone(p) && !p.Tracked?
    requires PhaseOk(SetPhase(s, f, p).futures, f)
    requires p.Acquiring? ==> p.since == s.clock && (s.cache.Some? ==> s.cache.value.acquiredAt < s.clock)
    requires p.Acquired? ==> s.futures[f].phase == Acquiring(p.evidence.acquiredAt)
    requires s.futures[f].kind.Refresh? ==> OrderInv(SetPhase(s, f, p))
    ensures Inv(SetPhase(s, f, p))
  {
    hide OutcomeOk, CallOk;
    assert FutureInv(s, f);
    LeaderOkFrame(s.futures, SetPhase(s, f, p).futures, |s.calls|, |s.calls|, f);
    PhaseChangeInv(s, f, s.futures[f].(phase := p));
  }

  /** Acquired evidence is cached. */
  lemma CacheWriteInv(s: State, f: Fid, stale: bool)
    requires Inv(s) && f < |s.futures| && s.futures[f].phase.Acquired?
    ensures var e := s.futures[f].phase.evidence;
            Inv(SetPhase(CacheVerification(s, s.futures[f].kind, e, stale), f, Returning(e)))
  {
    hide LeaderOk, CallOk;
    var w := s.futures[f];
    var e := w.phase.evidence;
    assert FutureInv(s, f);
    WorkPhaseInv(s, f, Returning(e));
    var s1 := SetPhase(s, f, Returning(e));
    var s2 := CacheVerification(s1, w.kind, e, stale);
    forall g | 0 <= g < |s2.futures|
      ensures FutureInv(s2, g)
    {
      assert FutureInv(s1, g) && FutureInv(s, g);
      if Caches(w.kind) && g != f && Caches(s.futures[g].kind)
          && (s.futures[g].phase.Acquiring? || s.futures[g].phase.Acquired?) {
        OneAcquirer(s, f, g);
      }
    }
  }

  /** A status refresh swaps in the entry it read with a new check time; its acquisition is the same. */
  lemma SwapInv(s: State, f: Fid, stale: bool)
    requires Inv(s) && f < |s.futures| && s.futures[f].phase.Swapping?
    ensures Inv(SwapStatus(s, f, s.futures[f].phase.latest, s.futures[f].phase.refreshed, stale))
  {
    hide LeaderOk, CallOk, TimeOk, OrderInv, InSlot;
    SwapOutcomes(s, f);
    var p := s.futures[f].phase;
    if s.cache.None? {
      WorkPhaseInv(s, f, Finishing(VerificationError(false)));
    } else if s.cache.value != p.latest {
      WorkPhaseInv(s, f, Returning(s.cache.value));
    } else {
      WorkPhaseInv(s, f, Returning(p.refreshed));
      SwapCacheInv(SetPhase(s, f, Returning(p.refreshed)), p.latest, p.refreshed, stale);
    }
  }

  /** What a swap may end with is evidence of a positive TTL. */
  lemma SwapOutcomes(s: State, f: Fid)
    requires Inv(s) && f < |s.futures| && s.futures[f].phase.Swapping?
    ensures var p := s.futures[f].phase;
            && s.futures[f].kind.Status? && p.latest.ttl > 0
            && p.refreshed == p.latest.(checkedAt := p.refreshed.checkedAt)
            && (s.cache.Some? ==> s.cache.value.ttl > 0)
  {
    hide LeaderOk, CallOk, TimeOk, OrderInv, InSlot;
    assert FutureInv(s, f);
  }

  lemma SwapCacheInv(s: State, latest: Evidence, refreshed: Evidence, stale: bool)
    requires Inv(s) && s.cache == Some(latest) && refreshed == latest.(checkedAt := refreshed.checkedAt)
    ensures Inv(s.(cache := if stale then None else Some(refreshed)))
  {
    hide LeaderOk, CallOk, PhaseOk;
    var s1 := s.(cache := if stale then None else Some(refreshed));
    forall g | 0 <= g < |s1.futures|
      ensures FutureInv(s1, g)
    {
      assert FutureInv(s, g);
    }
  }

  lemma TrackInv(s: State, f: Fid)
    requires Inv(s) && f < |s.futures| && s.futures[f].phase.Finishing?
    ensures Inv(s.(futures := s.futures[f := s.futures[f].(phase := Tracked(s.futures[f].phase.outcome),
            tracked := true)]))
  {
    hide CallOk;
    assert FutureInv(s, f);
    PhaseChangeInv(s, f, s.futures[f].(phase := Tracked(s.futures[f].phase.outcome), tracked := true));
  }

  lemma SettleInv(s: State, f: Fid)
    requires Inv(s) && f < |s.futures| && s.futures[f].phase.Removed?
    ensures Inv(s.(futures := s.futures[f := s.futures[f].(phase := Settled(s.futures[f].phase.outcome),
            tracked := false)]))
  {
    hide CallOk;
    assert FutureInv(s, f);
    PhaseChangeInv(s, f, s.futures[f].(phase := Settled(s.futures[f].phase.outcome), tracked := false));
  }

  /** Removing a tracked future empties its own slot and no other. */
  lemma RemovalEmptiesItsSlot(s: State, f: Fid, o: Outcome)
    requires f < |s.futures| && s.futures[f].phase.Tracked? && InSlot(s, f)
    ensures var s1 := RemoveFromSlot(s, f, o);
            var k := s.futures[f].kind;
            && s1.futures == s.futures[f := s.futures[f].(phase := Removed(o))] && s1.calls == s.calls
            && s1.clock == s.clock
            && (s1.cache == s.cache || s1.cache.None?)
            && s1.lookup == (if k.Lookup? then None else s.lookup)
            && s1.refresh == (if k.Refresh? then None else s.refresh)
            && s1.status == (if k.Status? then None else s.status)
  {
  }

  lemma RemovalKeepsSlots(s: State, f: Fid, o: Outcome)
    requires Inv(s) && f < |s.futures| && s.futures[f].phase.Tracked?
    ensures var s1 := RemoveFromSlot(s, f, o);
            && SlotInv(s1, Lookup) && SlotInv(s1, Refresh) && SlotInv(s1, Status) && OrderInv(s1)
            && forall g | 0 <= g < |s1.futures| :: InSlot(s1, g)
  {
    hide PhaseOk, LeaderOk, TimeOk, CallOk, CacheInv, RemoveFromSlot;
    var s1 := RemoveFromSlot(s, f, o);
    assert FutureInv(s, f);
    RemovalEmptiesItsSlot(s, f, o);
    forall g | 0 <= g < |s1.futures|
      ensures InSlot(s1, g)
    {
      assert FutureInv(s, g);
    }
  }

  lemma RemoveInv(s: State, f: Fid)
    requires Inv(s) && f < |s.futures| && s.futures[f].phase.Tracked?
    ensures Inv(RemoveFromSlot(s, f, s.futures[f].phase.outcome))
  {
    hide PhaseOk, LeaderOk, CallOk, SlotInv, OrderInv, RemoveFromSlot;
    var o := s.futures[f].phase.outcome;
    var s1 := RemoveFromSlot(s, f, o);
    assert FutureInv(s, f);
    RemovalKeepsSlots(s, f, o);
    RemovalEmptiesItsSlot(s, f, o);
    forall g | 0 <= g < |s1.futures|
      ensures FutureInv(s1, g)
    {
      assert FutureInv(s, g) && InSlot(s1, g);
      RemovedLeaderOk(s.futures, |s.calls|, f, o, g);
      if g == f {
        RemovedPhaseOk(s, f, o);
      } else {
        PhaseOkFrame(s.futures, s1.futures, g);
      }
    }
    forall i | 0 <= i < |s1.calls|
      ensures CallOk(s1.futures, i, s1.calls[i].pc)
    {
      CallOkFrame(s.futures, s1.futures, i, s.calls[i].pc);
    }
  }

  lemma RemovedLeaderOk(fs: seq<Future>, calls: nat, f: Fid, o: Outcome, g: Fid)
    requires f < |fs| && g < |fs| && fs[f].phase.Tracked? && LeaderOk(fs, calls, g)
    ensures LeaderOk(fs[f := fs[f].(phase := Removed(o))], calls, g)
  {
  }

  lemma RemovedPhaseOk(s: State, f: Fid, o: Outcome)
    requires f < |s.futures| && s.futures[f].phase == Tracked(o) && PhaseOk(s.futures, f)
    ensures PhaseOk(RemoveFromSlot(s, f, o).futures, f)
  {
  }

  /** A status refresh that claims a lookup of its own, or retries privately. */
  lemma StatusLeadsInv(s: State, f: Fid, k: Kind, sync: bool, p: Phase)
    requires Inv(s) && f < |s.futures| && s.futures[f].kind.Status? && !Gone(s.futures[f].phase)
    requires (k.Lookup? && s.lookup.None? && s.refresh.None?) || (k == Private(false) && !sync)
    requires (k.Lookup? && p.Joined? && p.joined == |s.futures|) || (k.Private? && p == JoinedPrivate(|s.futures|))
    ensures Inv(SetPhase(Create(s, k, sync, ByStatus(f), Queued), f, p))
  {
    hide SlotInv, OrderInv, CacheInv, TimeOk, CallOk;
    assert FutureInv(s, f);
    CreateInv(s, k, sync, ByStatus(f), Queued);
    WorkPhaseInv(Create(s, k, sync, ByStatus(f), Queued), f, p);
  }

  lemma AfterJoinedInv(s: State, f: Fid, o: Outcome, g: Fid, leads: bool, cached: Evidence)
    requires Inv(s) && f < |s.futures| && s.futures[f].phase == Joined(g, leads, cached)
    requires IsSettled(s, g) && s.futures[g].phase.outcome == o
    ensures Inv(AfterJoined(s, f, o, leads, cached))
  {
    hide SlotInv, OrderInv, CacheInv, TimeOk, CallOk, InSlot, LeaderOk;
    assert FutureInv(s, f) && FutureInv(s, g);
    if !o.Verified? || o.evidence.ttl != 0 || (leads && !s.futures[f].sync) {
      WorkPhaseInv(s, f, After(o));
    } else if s.futures[f].sync {
      WorkPhaseInv(s, f, ReadCache(cached));
    } else {
      StatusLeadsInv(s, f, Private(false), false, JoinedPrivate(|s.futures|));
    }
  }

  lemma NotActiveInv(s: State, f: Fid)
    requires Inv(s) && f < |s.futures| && s.futures[f].phase.Fetching?
    ensures Inv(SetPhase(s.(cache := None), f, Finishing(VerificationError(true))))
  {
    hide OrderInv, TimeOk, CallOk, InSlot, LeaderOk, SlotInv;
    assert FutureInv(s, f);
    EvictInv(s);
    WorkPhaseInv(s.(cache := None), f, Finishing(VerificationError(true)));
  }

  lemma StatusReadInv(s: State, f: Fid, now: int, active: bool, stale: bool)
    requires Inv(s) && f < |s.futures| && s.futures[f].kind.Status? && s.futures[f].phase.ReadCache?
    ensures Inv(StatusStep(s, f, now, active, stale))
  {
    hide OrderInv, TimeOk, CallOk, InSlot, LeaderOk, SwapStatus, AfterJoined, SlotInv;
    assert FutureInv(s, f);
    WorkPhaseInv(s, f, StatusStep(s, f, now, active, stale).futures[f].phase);
  }

  lemma StatusClaimInv(s: State, f: Fid, now: int, active: bool, stale: bool)
    requires Inv(s) && f < |s.futures| && s.futures[f].kind.Status? && s.futures[f].phase.StatusClaim?
    ensures Inv(StatusStep(s, f, now, active, stale))
  {
    hide OrderInv, TimeOk, CallOk, InSlot, LeaderOk, SwapStatus, AfterJoined;
    assert FutureInv(s, f);
    var cached := s.futures[f].phase.cached;
    if Full(s).Some? {
      WorkPhaseInv(s, f, Joined(Full(s).value, false, cached));
    } else {
      StatusLeadsInv(s, f, Lookup, s.futures[f].sync, Joined(|s.futures|, true, cached));
    }
  }

  lemma StatusStepInv(s: State, f: Fid, now: int, active: bool, stale: bool)
    requires Inv(s) && f < |s.futures| && s.futures[f].kind.Status? && Working(s.futures[f].phase)
    ensures Inv(StatusStep(s, f, now, active, stale))
  {
    hide OrderInv, TimeOk, CallOk, InSlot, LeaderOk, SwapStatus, AfterJoined, SlotInv, Create;
    assert FutureInv(s, f);
    match s.futures[f].phase
    case ReadCache(_) => StatusReadInv(s, f, now, active, stale);
    case StatusClaim(_) => StatusClaimInv(s, f, now, active, stale);
    case Joined(g, leads, cached) =>
      if IsSettled(s, g) { AfterJoinedInv(s, f, s.futures[g].phase.outcome, g, leads, cached); }
    case JoinedPrivate(g) =>
      if IsSettled(s, g) {
        assert FutureInv(s, g);
        WorkPhaseInv(s, f, After(s.futures[g].phase.outcome));
      }
    case Fetching(latest) =>
      if active {
        WorkPhaseInv(s, f, Swapping(latest, latest.(checkedAt := now)));
      } else {
        NotActiveInv(s, f);
      }
    case Swapping(_, _) => SwapInv(s, f, stale);
    case _ =>
  }

  /** The waits of a refresh: after them, no lookup is in flight. */
  lemma AfterPreviousInv(s: State, f: Fid, p: Fid, next: Phase)
    requires Inv(s) && f < |s.futures| && (s.cache.Some? ==> s.cache.value.acquiredAt < s.clock)
    requires (s.futures[f].phase == AwaitClaimed(p) && next == ReadPrevious)
             || (s.futures[f].phase == AwaitPrevious(p) && next == Acquiring(s.clock))
    ensures Inv(AfterPrevious(s, f, p, next))
  {
    hide TimeOk, CallOk, LeaderOk, CacheInv;
    assert FutureInv(s, f);
    if IsSettled(s, p) {
      WorkPhaseInv(s, f, if s.futures[p].phase.outcome.OtherError? then Finishing(OtherError) else next);
    }
  }

  /** A lookup is found in flight only by async work. */
  lemma ReadPreviousInv(s: State, f: Fid)
    requires Inv(s) && f < |s.futures| && (s.cache.Some? ==> s.cache.value.acquiredAt < s.clock)
    requires s.futures[f].phase.ReadPrevious?
    ensures Inv(SetPhase(s, f, if s.lookup.Some? then AwaitPrevious(s.lookup.value) else Acquiring(s.clock)))
  {
    hide CallOk, CacheInv, TimeOk;
    assert FutureInv(s, f);
    WorkPhaseInv(s, f, if s.lookup.Some? then AwaitPrevious(s.lookup.value) else Acquiring(s.clock));
  }

  lemma WorkStepInv(s: State, f: Fid, ttl: nat, now: int, active: bool, stale: bool)
    requires Inv(s) && f < |s.futures| && (s.cache.Some? ==> s.cache.value.acquiredAt < s.clock)
    ensures Inv(WorkStep(s, f, ttl, now, active, stale))
  {
    hide CallOk, LeaderOk, CacheInv, StatusStep, AfterPrevious, CacheVerification, RemoveFromSlot;
    assert FutureInv(s, f);
    match s.futures[f].phase
    case Queued => WorkPhaseInv(s, f, Acquiring(s.clock));
    case AwaitClaimed(p) => AfterPreviousInv(s, f, p, ReadPrevious);
    case ReadPrevious => ReadPreviousInv(s, f);
    case AwaitPrevious(p) => AfterPreviousInv(s, f, p, Acquiring(s.clock));
    case Acquiring(since) => WorkPhaseInv(s, f, Acquired(Evidence(f, ttl, since, now)));
    case Acquired(e) => CacheWriteInv(s, f, stale);
    case Returning(e) => WorkPhaseInv(s, f, Finishing(Verified(e)));
    case Finishing(o) => TrackInv(s, f);
    case Tracked(o) => RemoveInv(s, f);
    case Removed(o) => SettleInv(s, f);
    case Settled(_) =>
    case _ => StatusStepInv(s, f, now, active, stale);
  }

  // ---- The machine ----

  lemma NewCallInv(s: State, c: Call)
    requires Inv(s) && c.pc.Entered?
    ensures Inv(s.(calls := s.calls + [c]))
  {
    hide PhaseOk, CallOk;
    var s1 := s.(calls := s.calls + [c]);
    forall f | 0 <= f < |s1.futures|
      ensures FutureInv(s1, f)
    {
      assert FutureInv(s, f);
    }
    forall i | 0 <= i < |s1.calls|
      ensures CallOk(s1.futures, i, s1.calls[i].pc)
    {
      EnteredIsOk(s.futures, i);
      if i < |s.calls| {
        assert CallOk(s.futures, i, s.calls[i].pc);
      }
    }
  }

  lemma EnteredIsOk(fs: seq<Future>, i: nat)
    ensures CallOk(fs, i, Entered) && CallOk(fs, i, Raised)
  {
  }

  lemma WorkFailsInv(s: State, f: Fid, o: Outcome)
    requires Inv(s) && f < |s.futures| && Working(s.futures[f].phase) && !o.Verified?
    ensures Inv(SetPhase(s, f, Finishing(o)))
  {
    hide CallOk, LeaderOk, CacheInv;
    assert FutureInv(s, f);
    WorkPhaseInv(s, f, Finishing(o));
  }

  lemma CloseInv(s: State)
    requires Inv(s)
    ensures Inv(s.(closing := true))
  {
    hide PhaseOk, CallOk, LeaderOk;
    var s1 := s.(closing := true);
    forall f | 0 <= f < |s1.futures|
      ensures FutureInv(s1, f)
    {
      assert FutureInv(s, f);
    }
  }

  /** Every step of any call, any leader or the environment keeps the invariant. */
  lemma StepInv(s: State, c: Choice)
    requires Inv(s)
    ensures Inv(Step(s, c))
  {
    hide Inv, CallStep, WorkStep;
    TickInv(s);
    var s1 := s.(clock := s.clock + 1);
    match c
    case NewCall(sync, refresh) => NewCallInv(s1, Call(sync, refresh, Entered));
    case CallSteps(i, statusFresh) => if i < |s.calls| { CallStepInv(s1, i, statusFresh); }
    case CallRaises(i) =>
      if i < |s.calls| && !s.calls[i].pc.Returned? {
        EnteredIsOk(s.futures, i);
        PcChangeInv(s1, i, Raised);
      }
    case WorkSteps(f, ttl, now, active, stale) =>
      if f < |s.futures| {
        CacheIsPast(s);
        WorkStepInv(s1, f, ttl, now, active, stale);
      }
    case WorkFails(f, o) =>
      if f < |s.futures| && Working(s.futures[f].phase) && !o.Verified? { WorkFailsInv(s1, f, o); }
    case Evict => EvictInv(s1);
    case Close => CloseInv(s1);
  }

  lemma CacheIsPast(s: State)
    requires Inv(s)
    ensures s.cache.Some? ==> s.cache.value.acquiredAt <= s.clock
  {
  }

  lemma InitialInv()
    ensures Inv(INITIAL)
  {
  }

  lemma {:induction false} RunInv(s: State, choices: seq<Choice>)
    requires Inv(s)
    ensures Inv(Run(s, choices))
    decreases |choices|
  {
    hide Inv, Step;
    if choices != [] {
      StepInv(s, choices[0]);
      RunInv(Step(s, choices[0]), choices[1..]);
    }
  }
}
