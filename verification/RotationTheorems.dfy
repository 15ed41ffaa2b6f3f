/** The theorems about whole rotations: safety over every run, with any number of crashes, raised
    hooks and resumes, exactly which resumes break it, and recovery from every crash point. */
module RotationTheorems {
  import opened Options
  import opened KeyStores
  import opened Rotations
  import opened RotationSafety

  // ---- Safety ----

  /** Application signing is released only once the durable state says activated, its submission is
      accepted and the target signs with the saved new key: at the releasing step, and, from the first
      submission on, at every instant at which signing is not paused. */
  lemma SigningReleasedOnlyAfterActivation(w: World, k: Key, choices: seq<Choice>, c: Choice)
    requires Init(w, k) && AdmissibleRun(w, choices)
    ensures var v := Run(w, choices);
            (v.paused && !Step(v, c).paused) || (v.sent != [] && !v.paused) ==>
              && v.saved.Some? && v.saved.value.activated && IsAccepted(v.saved.value)
              && IsActive(Target(v.providers), v.saved.value.newKid, v.saved.value.newThumbprint)
              && v.saved.value.previousKid !in StoreKids(v.providers.src)
  {
    hide *;
    InitInv(w, k);
    RunKeepsGuard(w, k, choices);
    var v := Run(w, choices);
    OnlyReleaseUnpauses(v, c);
    ReleaseNeedsActivation(v, k);
  }

  lemma OnlyReleaseUnpauses(v: World, c: Choice)
    ensures v.paused && !Step(v, c).paused ==> v.pc.Release?
  {
    hide ValidPersisted, ValidIdempotencyKey, ReferencesAgree, StoreKids, ResolveProviders, ValidateKeys, Jwk, Apply,
         ValidSubmission, CanSignWith, IsActive;
  }

  lemma ReleaseNeedsActivation(v: World, k: Key)
    requires Inv(v, k) && Guarded(v, k)
    ensures v.pc.Release? || (v.sent != [] && !v.paused) ==>
              && v.saved.Some? && v.saved.value.activated && IsAccepted(v.saved.value)
              && IsActive(Target(v.providers), v.saved.value.newKid, v.saved.value.newThumbprint)
              && v.saved.value.previousKid !in StoreKids(v.providers.src)
  {
    hide WellFormed, StoreKids, ReferencesAgree, ValidIdempotencyKey, ValidSubmission;
  }

  /** At every instant the old key signs, or the new one under durable acceptance; and the old key is gone
      only once the new one signs so.  That holds whatever states of the rotation resumes are handed. */
  lemma OldOrNewKeyAlwaysSigns(w: World, k: Key, choices: seq<Choice>)
    requires Init(w, k) && OwnRun(w, choices)
    ensures var v := Run(w, choices);
            && (v.providers.src.active == Some(k)
                || (v.saved.Some? && IsAccepted(v.saved.value)
                      && Target(v.providers).active == Some(NewKey(v.saved.value))))
            && (k.kid !in StoreKids(v.providers.src) ==>
                  v.saved.Some? && IsAccepted(v.saved.value)
                      && Target(v.providers).active == Some(NewKey(v.saved.value)))
  {
    hide *;
    InitInv(w, k);
    RunKeepsInv(w, k, choices);
    SomeKeySigns(Run(w, choices), k);
  }

  lemma SomeKeySigns(v: World, k: Key)
    requires Inv(v, k)
    ensures v.providers.src.active == Some(k)
            || (v.saved.Some? && IsAccepted(v.saved.value) && Target(v.providers).active == Some(NewKey(v.saved.value)))
    ensures k.kid !in StoreKids(v.providers.src) ==>
              v.saved.Some? && IsAccepted(v.saved.value) && Target(v.providers).active == Some(NewKey(v.saved.value))
  {
    hide ValidPersisted, PcInv, KnownInv, SentInv;
    if v.saved.Some? && k in v.providers.src.retained {
      assert k.kid in Kids(v.providers.src.retained);
    }
  }

  /** The new key becomes the active one only by a step under durable acceptance, in every such run. */
  lemma NewKeyActivatesOnlyAccepted(w: World, k: Key, choices: seq<Choice>, c: Choice)
    requires Init(w, k) && OwnRun(w, choices)
    ensures var v := Run(w, choices);
            var n := Target(Step(v, c).providers).active;
            n.Some? && n != Target(v.providers).active ==>
              && v.saved.Some? && IsAccepted(v.saved.value) && v.pc.ActivateNew?
              && n == Some(NewKey(v.saved.value)) && v.paused
  {
    hide *;
    InitInv(w, k);
    RunKeepsInv(w, k, choices);
    OnlyActivationActivates(Run(w, choices), c);
    ActivatesTheNewKey(Run(w, choices), k, c);
  }

  lemma OnlyActivationActivates(v: World, c: Choice)
    ensures var n := Target(Step(v, c).providers).active;
            n.Some? && n != Target(v.providers).active ==> v.pc.ActivateNew? && c.Hook?
  {
    hide ValidPersisted, ValidIdempotencyKey, ReferencesAgree, StoreKids, ResolveProviders, ValidateKeys, Jwk,
         ValidSubmission, CanSignWith, IsActive, IndexOf, HookStep;
    if c.Hook? {
      OtherHooksActivateNothing(v, c);
    }
  }

  lemma OtherHooksActivateNothing(v: World, c: Choice)
    requires c.Hook?
    ensures var n := Target(HookStep(v, c).providers).active;
            n.Some? && n != Target(v.providers).active ==> v.pc.ActivateNew?
  {
    hide ActivateStep, SupersedeStep, IsAccepted, IsRejected, Activated, Completed;
    if v.pc.SupersedeOld? {
      SupersedeActivatesNothing(v, c);
    }
  }

  lemma SupersedeActivatesNothing(v: World, c: Choice)
    requires c.Hook? && v.pc.SupersedeOld?
    ensures var n := Target(SupersedeStep(v, c).providers).active;
            n.Some? ==> n == Target(v.providers).active
  {
    hide Jwk, ListedKids, IndexOf;
  }

  lemma ActivatesTheNewKey(v: World, k: Key, c: Choice)
    requires Inv(v, k)
    ensures v.pc.ActivateNew? && c.Hook? ==>
              var n := Target(Step(v, c).providers).active;
              && v.saved.Some? && IsAccepted(v.saved.value) && v.paused
              && (n == Target(v.providers).active || n == Some(NewKey(v.saved.value)))
  {
    hide ValidPersisted, WellFormed, StoreKids, ValidateKeys, ReferencesAgree, Apply, SentInv, KnownInv;
    if v.pc.ActivateNew? && c.Hook? {
      var r := v.pc.job.rotation;
      ValidateKeysExactly(v.setting, v.providers, k, r);
      if Untouched(v.providers, k, NewKey(r)) {
        ActivationOverlaps(v.providers, k, r);
      }
    }
  }

  /** The new key signs only under durable acceptance, as long as resumes are handed states that fit. */
  lemma NewKeySignsOnlyAccepted(w: World, k: Key, choices: seq<Choice>)
    requires Init(w, k) && AdmissibleRun(w, choices)
    ensures var v := Run(w, choices);
            v.saved.Some? && Target(v.providers).active == Some(NewKey(v.saved.value)) ==> IsAccepted(v.saved.value)
  {
    hide *;
    InitInv(w, k);
    RunKeepsGuard(w, k, choices);
    SignsOnlyAccepted(Run(w, choices), k);
  }

  lemma SignsOnlyAccepted(v: World, k: Key)
    requires Inv(v, k) && Guarded(v, k)
    ensures v.saved.Some? && Target(v.providers).active == Some(NewKey(v.saved.value)) ==> IsAccepted(v.saved.value)
  {
    hide ValidPersisted, PcInv, KnownInv, SentInv;
    if v.saved.Some? && Untouched(v.providers, k, NewKey(v.saved.value)) {
      assert NewKey(v.saved.value).kid in Kids(Target(v.providers).pending);
    }
  }

  /** Every submission, across the rotation and all its resumes, carries one domain, entry and
      idempotency key: those of the durable state, which never change once first persisted; and each
      was made with that rotation durable and signing paused. */
  lemma SubmissionsRepeatTheFirstPersisted(w: World, k: Key, first: seq<Choice>, later: seq<Choice>)
    requires Init(w, k) && OwnRun(w, first + later)
    ensures var u, v := Run(w, first), Run(w, first + later);
            && (u.saved.Some? ==> v.saved.Some? && Core(v.saved.value) == Core(u.saved.value))
            && (v.sent != [] ==> v.saved.Some?)
            && forall e | e in v.sent :: SentFor(e, v.saved.value)
  {
    hide *;
    InitInv(w, k);
    OwnPrefix(w, first, later);
    RunKeepsInv(w, k, first);
    RunKeepsInv(w, k, first + later);
    RunAppends(w, first, later);
    CoreNeverChanges(Run(w, first), k, later);
    SentInvMembers(Run(w, first + later), k);
  }

  lemma {:induction false} OwnPrefix(w: World, a: seq<Choice>, b: seq<Choice>)
    requires OwnRun(w, a + b)
    ensures OwnRun(w, a) && OwnRun(Run(w, a), b)
    decreases |a|
  {
    hide Step, Own;
    if a == [] {
      assert a + b == b;
    } else {
      assert (a + b)[1..] == a[1..] + b && (a + b)[0] == a[0];
      OwnPrefix(Step(w, a[0]), a[1..], b);
    }
  }

  lemma SentInvMembers(v: World, k: Key)
    requires Inv(v, k)
    ensures v.sent != [] ==> v.saved.Some?
    ensures forall e | e in v.sent :: SentFor(e, v.saved.value)
  {
  }

  lemma {:induction false} RunAppends(w: World, a: seq<Choice>, b: seq<Choice>)
    ensures Run(w, a + b) == Run(Run(w, a), b)
    decreases |a|
  {
    hide Step;
    if a == [] {
      assert a + b == b;
    } else {
      assert (a + b)[1..] == a[1..] + b;
      RunAppends(Step(w, a[0]), a[1..], b);
    }
  }

  lemma StepKeepsCore(w: World, k: Key, c: Choice)
    requires Inv(w, k) && w.saved.Some?
    ensures Step(w, c).saved.Some? && Core(Step(w, c).saved.value) == Core(w.saved.value)
  {
    hide Inv, Untouched, Reconciled, ActivateStep, SupersedeStep, RotateStep, ResumeStep, SubmitStep, PrepareStep;
    OnlyPersistsSave(w, c);
    WhatAPersistKnows(w, k);
  }

  lemma {:induction false} CoreNeverChanges(w: World, k: Key, choices: seq<Choice>)
    requires Inv(w, k) && OwnRun(w, choices)
    ensures w.saved.Some? ==> Run(w, choices).saved.Some? && Core(Run(w, choices).saved.value) == Core(w.saved.value)
    decreases |choices|
  {
    hide Inv, Step, Core, Own;
    if choices != [] {
      StepKeepsInv(w, k, choices[0]);
      if w.saved.Some? {
        StepKeepsCore(w, k, choices[0]);
      }
      CoreNeverChanges(Step(w, choices[0]), k, choices[1..]);
    }
  }

  // ---- The durable phase ----

  /** Nothing, prepared, pending, answered, activated, released. */
  function Phase(saved: Option<Rotation>): nat {
    if saved.None? then 0
    else if saved.value.activated then if saved.value.signingPaused then 4 else 5
    else if saved.value.submission.None? then 1
    else if IsAccepted(saved.value) || IsRejected(saved.value) then 3
    else 2
  }

  /** Only a persistence hook changes what is durable. */
  lemma OnlyPersistsSave(w: World, c: Choice)
    ensures Step(w, c).saved != w.saved ==>
              c.Hook? && (w.pc.PersistBefore? || w.pc.PersistIndeterminate? || w.pc.PersistSubmission?
                          || w.pc.PersistActivated? || w.pc.PersistCompleted?)
  {
    hide ValidPersisted, ValidIdempotencyKey, ReferencesAgree, StoreKids, ResolveProviders, ValidateKeys, Jwk, Apply,
         ValidSubmission, CanSignWith, IsActive;
  }

  /** The durable phase moves backwards at one place only: the persist that opens a resume, exactly when
      the state handed to the resume is behind the durable one. */
  lemma PhaseRegressesExactlyWhen(w: World, k: Key, c: Choice)
    requires Inv(w, k)
    ensures Phase(Step(w, c).saved) < Phase(w.saved) <==>
            w.pc.PersistBefore? && c.Hook? && Lands(c) && Phase(Some(w.pc.job.rotation)) < Phase(w.saved)
  {
    hide Inv, Untouched, Reconciled, ActivateStep, SupersedeStep, RotateStep, ResumeStep, SubmitStep, PrepareStep;
    OnlyPersistsSave(w, c);
    if w.saved.Some? {
      WhatAPersistKnows(w, k);
    }
  }

  /** The durable state and the state about to be persisted, as far as the phase is concerned. */
  lemma WhatAPersistKnows(w: World, k: Key)
    requires Inv(w, k) && w.saved.Some?
    ensures w.saved.value.activated ==> IsAccepted(w.saved.value)
    ensures !w.pc.Idle? && !w.pc.Prepare? ==> Core(w.pc.job.rotation) == Core(w.saved.value)
    ensures !w.pc.Idle? && !w.pc.Prepare? && !w.pc.PersistBefore? ==>
            PastPersist(w, k, w.saved.value, w.pc.job.rotation)
  {
    hide ValidPersisted, WellFormed, StoreKids, ReferencesAgree, SentInv;
    assert KnownOk(w, k, w.saved.value);
  }

  /** In terms of the call.  A resume of a state of this rotation gets to writing it over the durable one
      exactly when it is given the rotation's own providers, the state is neither activated nor rejected, and
      the keys let it pass. */
  lemma ResumeOpensExactlyWhen(w: World, k: Key, c: Choice)
    requires Inv(w, k) && w.pc.Idle? && c.BeginResume? && c.given in w.known
    requires w.saved.Some? && Core(c.given) == Core(w.saved.value)
    ensures var g := c.given;
            Step(w, c).pc.PersistBefore? <==>
              && Resolves(w, c)
              && !g.activated && !IsRejected(g) && Passes(w.providers, k, g)
  {
    hide Inv, Bound, StoresInv, ValidateKeys, ResolveProviders, IsActive, Passes, Situated, HookStep;
    KnownSituated(w, k, c.given);
    ResumeBegins(w, k, c);
    ValidateKeysExactly(w.setting, w.providers, k, c.given);
    BoundIsValid(w.setting, w.providers.target, k, c.given);
    var handles := ResolveProviders(c.given, w.signer, c.previous, c.target, c.previousRef, c.targetRef);
    if handles.Some? {
      assert handles == Some((handles.value.0, handles.value.1));
      assert handles.value == (Src, w.providers.target) ==>
        ValidateKeys(c.given, Store(w.providers, handles.value.0), Store(w.providers, handles.value.1),
            handles.value.0 == handles.value.1)
        == ValidateKeys(c.given, w.providers.src, Target(w.providers), w.providers.target.Src?);
    }
  }

  /** And the durable phase regresses exactly when that state is also behind. */
  lemma ResumeRegressesExactlyWhen(w: World, k: Key, c: Choice)
    requires Inv(w, k) && w.pc.Idle? && c.BeginResume? && c.given in w.known
    requires w.saved.Some? && Core(c.given) == Core(w.saved.value)
    ensures var g := c.given;
            var after := Step(Step(w, c), Hook(true, false));
            && (Step(w, c).pc.PersistBefore? ==> after.saved == Some(g))
            && (Phase(after.saved) < Phase(w.saved) <==>
                && Resolves(w, c)
                && !g.activated && !IsRejected(g) && Passes(w.providers, k, g)
                && Phase(Some(g)) < Phase(w.saved))
  {
    hide Inv, ValidateKeys, ResolveProviders, ResumeStep, Passes, ActivateStep, SupersedeStep, Phase;
    ResumeOpensExactlyWhen(w, k, c);
    ResumeBegins(w, k, c);
  }

  lemma BoundIsValid(t: Setting, target: Handle, k: Key, r: Rotation)
    requires Bound(t, target, k, r)
    ensures ValidPersisted(t.identity, r)
  {
  }

  /** Whatever was durable once stays known, so a later resume can be handed it. */
  lemma {:induction false} DurableStaysKnown(w: World, k: Key, choices: seq<Choice>, r: Rotation)
    requires Inv(w, k) && w.saved == Some(r)
    ensures r in Run(w, choices).known
    decreases |choices|
  {
    hide Inv, Step;
    assert r in w.known by { SavedIsKnown(w, k); }
    KnownGrows(w, choices);
  }

  lemma SavedIsKnown(w: World, k: Key)
    requires Inv(w, k) && w.saved.Some?
    ensures w.saved.value in w.known
  {
    hide SavedInv, StoresInv, SentInv, PcInv, KnownOk;
  }

  lemma {:induction false} KnownGrows(w: World, choices: seq<Choice>)
    ensures w.known <= Run(w, choices).known
    decreases |choices|
  {
    hide Step;
    if choices != [] {
      StepKnowsMore(w, choices[0]);
      KnownGrows(Step(w, choices[0]), choices[1..]);
    }
  }

  lemma StepKnowsMore(w: World, c: Choice)
    ensures w.known <= Step(w, c).known
  {
    hide ValidPersisted, ValidIdempotencyKey, ReferencesAgree, StoreKids, ResolveProviders, ValidateKeys, Apply,
         ValidSubmission, CanSignWith, IsActive, HookStep;
    if c.Hook? {
      HookKnowsMore(w, c);
    }
  }

  lemma HookKnowsMore(w: World, c: Choice)
    requires c.Hook?
    ensures w.known <= HookStep(w, c).known
  {
    hide ActivateStep, SupersedeStep, IsAccepted, IsRejected, Activated, Completed;
    if w.pc.ActivateNew? || w.pc.SupersedeOld? {
      ReconcilingFrame(w, c);
    }
  }

  /** What the two reconciling steps leave alone. */
  lemma ReconcilingFrame(w: World, c: Choice)
    requires c.Hook? && (w.pc.ActivateNew? || w.pc.SupersedeOld?)
    ensures var v := if w.pc.ActivateNew? then ActivateStep(w, c) else SupersedeStep(w, c);
            && !v.pc.PersistBefore? && w.known <= v.known
            && v.setting == w.setting && v.providers.target == w.providers.target
  {
    hide ValidateKeys, Jwk, Apply, ListedKids, Store;
  }

  // ---- Which resumes break what is promised ----

  /** Resuming with the two providers of the rotation's references. */
  function ResumeWith(w: World, g: Rotation): Choice {
    BeginResume(g, Some(Src), Some(w.providers.target), w.setting.previousRef, w.setting.targetRef)
  }

  lemma OwnProvidersResolve(w: World, k: Key, g: Rotation)
    requires Bound(w.setting, w.providers.target, k, g)
    ensures ResolveProviders(g, w.signer, Some(Src), Some(w.providers.target), w.setting.previousRef,
            w.setting.targetRef) ==
            Some((Src, w.providers.target))
  {
    hide ValidPersisted;
  }

  /** A pending result resumed once its acceptance is durable, the keys still untouched, takes the durable
      phase back from accepted to pending. */
  lemma StalePendingRegresses(w: World, k: Key, g: Rotation)
    requires Inv(w, k) && w.pc.Idle? && g in w.known && w.saved.Some? && Core(g) == Core(w.saved.value)
    requires IsAccepted(w.saved.value) && !w.saved.value.activated && Untouched(w.providers, k, NewKey(g))
    requires g.submission.Some? && !IsAccepted(g) && !IsRejected(g)
    ensures Phase(w.saved) == 3 && Phase(Step(Step(w, ResumeWith(w, g)), Hook(true, false)).saved) == 2
  {
    hide Inv, Step, Untouched, Bound, KnownOk, ResolveProviders, ValidPersisted;
    GivenIsSent(w, k, g);
    StaleOpens(w, k, g);
  }

  /** Across providers, resumed while both keys are active, it leaves the new key active under a durable state
      that is not accepted. */
  lemma StalePendingUnderActiveKey(w: World, k: Key, g: Rotation)
    requires Inv(w, k) && w.pc.Idle? && g in w.known && w.saved.Some? && Core(g) == Core(w.saved.value)
    requires w.providers.target.Dst? && Overlapping(w.providers, k, NewKey(g)) && !Untouched(w.providers, k, NewKey(g))
    requires !IsAccepted(g) && !IsRejected(g)
    ensures var v := Step(Step(w, ResumeWith(w, g)), Hook(true, false));
            v.saved == Some(g) && !IsAccepted(v.saved.value)
                && Target(v.providers).active == Some(NewKey(v.saved.value))
  {
    hide Inv, Untouched, Bound, ResolveProviders, ValidPersisted;
    GivenIsSent(w, k, g);
    StaleOpens(w, k, g);
  }

  /** After completion, resuming an accepted copy from before activation writes it back while signing goes
      on. */
  lemma StaleAcceptedUnderRelease(w: World, k: Key, g: Rotation)
    requires Inv(w, k) && Done(w, k) && g in w.known && Core(g) == Core(w.saved.value)
    requires IsAccepted(g) && !g.activated
    ensures var v := Step(Step(w, ResumeWith(w, g)), Hook(true, false));
            Phase(w.saved) == 5 && Phase(v.saved) == 3 && !v.paused && v.sent != []
  {
    hide Inv, Untouched, Bound, ResolveProviders, ValidPersisted, Reconciled;
    StaleOpens(w, k, g);
  }

  /** A rejection is written over as well. */
  lemma StalePendingOverRejection(w: World, k: Key, g: Rotation)
    requires Inv(w, k) && w.pc.Idle? && g in w.known && w.saved.Some? && Core(g) == Core(w.saved.value)
    requires IsRejected(w.saved.value) && !IsRejected(g) && !g.activated
    ensures Step(Step(w, ResumeWith(w, g)), Hook(true, false)).saved == Some(g)
  {
    hide Inv, Step, Bound, KnownOk, ResolveProviders, ValidPersisted;
    PassesWhereRejected(w, k, g);
    StaleOpens(w, k, g);
  }

  lemma PassesWhereRejected(w: World, k: Key, g: Rotation)
    requires Inv(w, k) && w.saved.Some? && IsRejected(w.saved.value) && Core(g) == Core(w.saved.value) && !g.activated
    ensures Passes(w.providers, k, g)
  {
    hide PcInv, KnownInv, SentInv, Untouched, Overlapping, Reconciled, Bound;
    assert NewKey(Core(g)) == NewKey(g) && NewKey(Core(w.saved.value)) == NewKey(w.saved.value);
  }

  lemma StaleOpens(w: World, k: Key, g: Rotation)
    requires Inv(w, k) && w.pc.Idle? && g in w.known && w.saved.Some? && Core(g) == Core(w.saved.value)
    requires !g.activated && !IsRejected(g) && Passes(w.providers, k, g)
    ensures var u := Step(w, ResumeWith(w, g));
            && u == w.(pc := PersistBefore(Job(g, Src, w.providers.target)))
            && Step(u, Hook(true, false)) == u.(saved := Some(g), pc := Pause(u.pc.job))
    ensures g.submission.Some? ==> w.sent != []
  {
    hide Inv, Untouched, Bound, ResolveProviders, ValidPersisted, Passes, ValidateKeys, IsActive, ActivateStep,
         SupersedeStep;
    KnownSituated(w, k, g);
    OwnProvidersResolve(w, k, g);
    ResumeOpensExactlyWhen(w, k, ResumeWith(w, g));
    ResumeBegins(w, k, ResumeWith(w, g));
    assert w.known + {g} == w.known;
  }

  /** What the safety theorems say of one state, together with the rotation that is durable. */
  predicate Safe(w: World, k: Key, s: Rotation) {
    && w.saved.Some? && Core(w.saved.value) == Core(s)
    && (w.sent != [] && !w.paused ==> w.saved.value.activated && IsAccepted(w.saved.value))
    && (IsActive(Target(w.providers), w.saved.value.newKid, w.saved.value.newThumbprint) ==> IsAccepted(w.saved.value))
  }

  /** Exactly the misfits break safety: a resume that is not refused, and whose first effect takes hold,
      leads to an unsafe state if and only if it was handed a misfit. */
  lemma MisfitsBreakSafety(w: World, k: Key, c: Choice)
    requires Inv(w, k) && Guarded(w, k) && w.pc.Idle? && w.saved.Some? && c.BeginResume? && c.given in w.known
    requires !Step(w, c).pc.Idle?
    ensures Safe(Step(Step(w, c), Hook(true, false)), k, w.saved.value) <==> !Misfit(w, c.given)
  {
    hide Inv, Bound, ValidPersisted, ResolveProviders, ValidateKeys, ActivateStep, SupersedeStep, Untouched,
         Overlapping, Reconciled, StoreKids, HookStep, ResumeStep, RotateStep, SubmitStep, PrepareStep;
    if !Misfit(w, c.given) {
      StepKeepsInv(w, k, c);
      StepKeepsGuard(w, k, c);
      StepKeepsInv(Step(w, c), k, Hook(true, false));
      StepKeepsGuard(Step(w, c), k, Hook(true, false));
      OpeningKeepsCore(w, k, c);
      SafeWhenGuarded(Step(Step(w, c), Hook(true, false)), k, w.saved.value);
    } else {
      MisfitIsUnsafe(w, k, c);
    }
  }

  lemma SafeWhenGuarded(v: World, k: Key, s: Rotation)
    requires Inv(v, k) && Guarded(v, k) && v.saved.Some? && Core(v.saved.value) == Core(s)
    ensures Safe(v, k, s)
  {
    hide ValidSubmission, ValidIdempotencyKey, PcInv, SentInv;
    SignsOnlyAccepted(v, k);
    assert KnownOk(v, k, v.saved.value);
    PendingIsNotActive(Target(v.providers), NewKey(v.saved.value));
  }

  lemma PendingIsNotActive(s: KeyStore, n: Key)
    ensures WellFormed(s) && n in s.pending && s.active.Some? ==> s.active.value.kid != n.kid
  {
    assert n in s.pending ==> n.kid in Kids(s.pending);
  }

  lemma OpeningKeepsCore(w: World, k: Key, c: Choice)
    requires Inv(w, k) && w.saved.Some? && Inv(Step(w, c), k) && c.BeginResume?
    ensures var v := Step(Step(w, c), Hook(true, false));
            v.saved.Some? && Core(v.saved.value) == Core(w.saved.value)
  {
    hide Inv, ResumeStep, Core;
    assert Step(w, c).saved == w.saved by { OnlyPersistsSave(w, c); }
    StepKeepsCore(Step(w, c), k, Hook(true, false));
  }

  lemma MisfitIsUnsafe(w: World, k: Key, c: Choice)
    requires Inv(w, k) && w.pc.Idle? && w.saved.Some? && c.BeginResume? && c.given in w.known
    requires !Step(w, c).pc.Idle? && Misfit(w, c.given)
    ensures !Safe(Step(Step(w, c), Hook(true, false)), k, w.saved.value)
  {
    hide Inv, Bound, ValidPersisted, ResolveProviders, ValidateKeys, ActivateStep, SupersedeStep, Untouched,
         Overlapping, Reconciled, StoreKids;
    GivenIsSent(w, k, c.given);
  }

  lemma GivenIsSent(w: World, k: Key, g: Rotation)
    requires Inv(w, k) && g in w.known && w.saved.Some?
    ensures (g.submission.Some? || w.saved.value.submission.Some?) ==> w.sent != []
    ensures w.saved.value.activated ==> IsAccepted(w.saved.value)
    ensures g.activated ==> IsAccepted(g)
    ensures Core(g) != Core(w.saved.value) ==> g == Core(g)
  {
    hide SavedInv, StoresInv, SentInv, PcInv, Bound, Untouched;
    assert KnownOk(w, k, g) && KnownOk(w, k, w.saved.value);
  }

  /** Not every older state is a misfit.  Whenever the persist of the activated state raises although its
      write landed, the error carries the state before it.  Resuming that one takes the durable phase back,
      but safely, since signing is still paused. */
  lemma RaisedActivationRegresses(w: World, k: Key)
    requires Inv(w, k) && w.pc.PersistActivated?
    ensures var raised := Step(w, Hook(true, true));
            var resumed := Step(raised, ResumeWith(raised, w.pc.job.rotation));
            && w.pc.job.rotation in raised.known && !Misfit(raised, w.pc.job.rotation)
            && Phase(raised.saved) == 4
            && Phase(Step(resumed, Hook(true, false)).saved) == 3
  {
    hide Inv, ResumeStep, ValidateKeys, Untouched, Overlapping, ActivateStep, SupersedeStep, SubmitStep, RotateStep,
         Passes;
    RaisedState(w, k);
    var raised := Step(w, Hook(true, true));
    StepKeepsInv(w, k, Hook(true, true));
    ReconciledPasses(raised, k, w.pc.job.rotation);
    StaleOpens(raised, k, w.pc.job.rotation);
  }

  lemma ReconciledPasses(w: World, k: Key, r: Rotation)
    requires IsAccepted(r) && !r.activated
    ensures Passes(w.providers, k, r)
  {
  }

  lemma RaisedState(w: World, k: Key)
    requires Inv(w, k) && w.pc.PersistActivated?
    ensures var r := w.pc.job.rotation;
            var raised := Step(w, Hook(true, true));
            && IsAccepted(r) && !r.activated && !IsRejected(r) && w.paused
            && raised == w.(pc := Idle, saved := Some(Activated(r)), known := w.known + {Activated(r)} + {r})
            && Core(r) == Core(Activated(r))
  {
    hide ValidPersisted, WellFormed, StoreKids, KeysMatch, SentInv, KnownInv;
  }

  // ---- Runs whose resumes are never behind ----

  /** Every resume is handed a state at least as far along as the durable one. */
  predicate ForwardRun(w: World, choices: seq<Choice>)
    decreases |choices|
  {
    choices == [] ||
    (&& (choices[0].BeginResume? && w.pc.Idle? ==> Phase(w.saved) <= Phase(Some(choices[0].given)))
     && ForwardRun(Step(w, choices[0]), choices[1..]))
  }

  /** Then the durable phase only ever moves forward. */
  lemma {:induction false} ForwardResumesMoveForward(w: World, k: Key, choices: seq<Choice>)
    requires Inv(w, k) && AheadAtOpening(w) && OwnRun(w, choices) && ForwardRun(w, choices)
    ensures Phase(w.saved) <= Phase(Run(w, choices).saved)
    decreases |choices|
  {
    hide Inv, Step, Phase, Own;
    if choices != [] {
      var c := choices[0];
      StepKeepsInv(w, k, c);
      PhaseRegressesExactlyWhen(w, k, c);
      AheadStep(w, k, c);
      ForwardResumesMoveForward(Step(w, c), k, choices[1..]);
    }
  }

  /** An opening persist writes nothing behind what is durable. */
  predicate AheadAtOpening(w: World) {
    w.pc.PersistBefore? ==> Phase(w.saved) <= Phase(Some(w.pc.job.rotation))
  }

  lemma AheadStep(w: World, k: Key, c: Choice)
    requires Inv(w, k) && AheadAtOpening(w)
    requires c.BeginResume? && w.pc.Idle? ==> Phase(w.saved) <= Phase(Some(c.given))
    ensures AheadAtOpening(Step(w, c))
  {
    hide Inv, Step;
    OpeningComesFrom(w, c);
    if w.pc.Prepare? {
      PreparedBeforeDurable(w, k);
    }
  }

  /** An invocation comes to its opening persist from the prepared envelope, or as a resume of the state it
      was handed. */
  lemma OpeningComesFrom(w: World, c: Choice)
    ensures var v := Step(w, c);
            v.pc.PersistBefore? && v != w ==>
              && v.saved == w.saved
              && (w.pc.Prepare? || (c.BeginResume? && w.pc.Idle? && v.pc.job.rotation == c.given))
  {
    hide ValidPersisted, ValidIdempotencyKey, ReferencesAgree, StoreKids, ResolveProviders, ValidateKeys, Jwk, Apply,
         ValidSubmission, CanSignWith, IsActive, HookStep;
    if c.Hook? {
      HookNeverOpens(w, c);
    }
  }

  lemma HookNeverOpens(w: World, c: Choice)
    requires c.Hook?
    ensures HookStep(w, c).pc.PersistBefore? ==> HookStep(w, c) == w
  {
    hide ActivateStep, SupersedeStep, IsAccepted, IsRejected, Activated, Completed;
    if w.pc.ActivateNew? || w.pc.SupersedeOld? {
      ReconcilingFrame(w, c);
    }
  }

  lemma PreparedBeforeDurable(w: World, k: Key)
    requires Inv(w, k) && w.pc.Prepare?
    ensures w.saved.None?
  {
    hide SavedInv, StoresInv, SentInv, KnownInv, ReferencesAgree, ValidIdempotencyKey, StoreKids;
  }

  // ---- Rejection ----

  /** Every resume is handed a rejected state, and no new rotation is begun. */
  predicate OnlyRejectedResumes(choices: seq<Choice>) {
    forall c | c in choices :: !c.BeginRotate? && (c.BeginResume? ==> IsRejected(c.given))
  }

  /** Then a durable rejection is final: nothing durable changes any more. */
  lemma {:induction false} RejectionIsFinal(w: World, k: Key, choices: seq<Choice>)
    requires Inv(w, k) && w.pc.Idle? && w.saved.Some? && IsRejected(w.saved.value) && OnlyRejectedResumes(choices)
    ensures var v := Run(w, choices);
            v.saved == w.saved && v.providers == w.providers && v.paused == w.paused && v.sent == w.sent && v.pc.Idle?
    decreases |choices|
  {
    hide Inv, Step;
    if choices != [] {
      assert choices[0] in choices;
      RejectedStep(w, k, choices[0]);
      assert OnlyRejectedResumes(choices[1..]);
      RejectionIsFinal(Step(w, choices[0]), k, choices[1..]);
    }
  }

  lemma RejectedStep(w: World, k: Key, c: Choice)
    requires Inv(w, k) && w.pc.Idle? && w.saved.Some? && IsRejected(w.saved.value)
    requires !c.BeginRotate? && (c.BeginResume? ==> IsRejected(c.given))
    ensures var v := Step(w, c);
            && Inv(v, k) && v.saved == w.saved && v.providers == w.providers && v.paused == w.paused && v.sent == w.sent
            && v.pc.Idle?
  {
    hide Inv, ValidPersisted, ValidateKeys, ResolveProviders, IsActive;
    if c.BeginResume? {
      RejectedIsRefused(w, c);
    }
    StepKeepsInv(w, k, c);
  }

  lemma RejectedIsRefused(w: World, c: Choice)
    requires w.pc.Idle? && c.BeginResume? && IsRejected(c.given)
    ensures ResumeStep(w, c) == w
  {
    hide ValidPersisted, ResolveProviders, Jwk, ListedKids;
  }

  // ---- Recovery ----

  /** The reply of a registry that accepts at this log index. */
  function Accepts(r: Rotation, index: nat): Reply {
    Returned(Submission(Accepted, r.entryHash, Some(index), Some(LogRef(r.logReference, index)), r.newKid))
  }

  /** The uninterrupted choice at each program point. */
  function Smooth(w: World, index: nat): Choice {
    match w.pc
    case Submit(j) => Respond(Accepts(j.rotation, index))
    case Publication(_) => Confirm
    case _ => Hook(true, false)
  }

  /** The program points of a resume that nothing interrupts. */
  predicate OnCourse(w: World) {
    !w.pc.Prepare? && !w.pc.PersistIndeterminate? && (w.pc.PersistSubmission? ==> IsAccepted(w.pc.job.rotation))
  }

  function StepsLeft(pc: Pc): nat {
    match pc
    case PersistBefore(_) => 10
    case Pause(_) => 9
    case Submit(_) => 8
    case PersistSubmission(_) => 7
    case Publication(_) => 6
    case ActivateNew(_) => 5
    case SupersedeOld(_) => 4
    case PersistActivated(_) => 3
    case Release(_) => 2
    case PersistCompleted(_) => 1
    case _ => 0
  }

  function Drive(w: World, index: nat, n: nat): World
    decreases n
  {
    if n == 0 || w.pc.Idle? then w else Drive(Step(w, Smooth(w, index)), index, n - 1)
  }

  /** Completed: durable, released, the new key signing and the old one gone. */
  predicate Done(w: World, k: Key) {
    && w.pc.Idle? && w.saved.Some? && w.saved.value.activated && IsAccepted(w.saved.value)
    && !w.saved.value.signingPaused && !w.paused && Reconciled(w.providers, k, NewKey(w.saved.value))
  }

  /** A resume of any state of the rotation that its keys let pass, with providers that resolve to the
      rotation's own, passes every validation and starts where it should. */
  lemma ResumeProceeds(w: World, k: Key, c: Choice)
    requires Inv(w, k) && w.pc.Idle? && c.BeginResume? && c.given in w.known && !IsRejected(c.given)
    requires Resolves(w, c)
    requires (w.saved.Some? ==> Core(c.given) == Core(w.saved.value)) && Passes(w.providers, k, c.given)
    ensures var r, target := c.given, w.providers.target;
            && ValidateKeys(r, w.providers.src, Target(w.providers), target.Src?).Some?
            && ResumeStep(w, c) == if !r.activated then w.(pc := PersistBefore(Job(r, Src, target)))
                                   else if r.signingPaused then w.(signer := target, pc := Release(Job(r, Src, target)))
                                   else w.(signer := target)
  {
    hide Inv, Bound, StoresInv, ValidateKeys, ResolveProviders, Passes, Situated, IsActive;
    KnownSituated(w, k, c.given);
    ValidateKeysExactly(w.setting, w.providers, k, c.given);
    BoundIsValid(w.setting, w.providers.target, k, c.given);
    ActivatedIsActive(w.setting, w.providers, k, c.given);
  }

  lemma ActivatedIsActive(t: Setting, ps: Providers, k: Key, r: Rotation)
    requires Bound(t, ps.target, k, r)
    ensures Reconciled(ps, k, NewKey(r)) ==> IsActive(Target(ps), r.newKid, r.newThumbprint)
  {
    hide ValidIdempotencyKey, ValidSubmission, ReferencesAgree, StoreKids;
  }

  /** Every state that fits is one of these. */
  lemma FittingPasses(w: World, k: Key, r: Rotation)
    requires Inv(w, k) && r in w.known && !Misfit(w, r)
    ensures Passes(w.providers, k, r)
  {
    hide SentInv, PcInv, StoreKids, ValidIdempotencyKey, ValidSubmission, ReferencesAgree, Reconciled;
    KnownSituated(w, k, r);
    FittingIsUntouched(w, k, r);
    ReconciledIsPast(w.providers, k, NewKey(r));
  }

  /** In every state a run can reach, whatever crashed or raised before and whatever states of the rotation
      resumes were handed, the durable rotation is known, passes the persisted-state and the key validation,
      and its keys are in one of the three situations; and it fits itself, if the handed states did. */
  lemma EveryDurableStateResumes(w: World, k: Key, r: Rotation)
    requires Inv(w, k) && w.saved == Some(r)
    ensures r in w.known && ValidPersisted(w.setting.identity, r)
    ensures Passes(w.providers, k, r) && (Guarded(w, k) ==> !Misfit(w, r))
    ensures !r.signingPaused ==> !w.paused && r.activated
    ensures Situated(w.providers, k, NewKey(r))
  {
    hide ValidPersisted, WellFormed, StoreKids, PcInv, SentInv;
    SavedIsKnown(w, k);
    assert KnownOk(w, k, r);
    if Guarded(w, k) {
      DurableFits(w, k, r);
    }
  }

  lemma DurableFits(w: World, k: Key, r: Rotation)
    requires Inv(w, k) && Guarded(w, k) && w.saved == Some(r)
    ensures !Misfit(w, r)
  {
    hide ValidSubmission, ValidIdempotencyKey, PcInv, SentInv, ReferencesAgree, StoreKids;
    PendingIsNotActive(Target(w.providers), NewKey(r));
  }

  lemma SmoothStepAdvances(w: World, k: Key, index: nat)
    requires Inv(w, k) && OnCourse(w) && !w.pc.Idle?
    ensures var w1 := Step(w, Smooth(w, index));
            && Inv(w1, k) && OnCourse(w1) && StepsLeft(w1.pc) < StepsLeft(w.pc)
            && (w1.pc.Idle? ==> Done(w1, k) && w1.signer == w1.providers.target)
  {
    hide Inv, Done, HookStep, RotateStep, ResumeStep, SubmitStep, PrepareStep;
    StepKeepsInv(w, k, Smooth(w, index));
    match w.pc
    case ActivateNew(j) => SmoothActivation(w, k, index);
    case SupersedeOld(j) => SmoothSupersede(w, k, index);
    case Submit(j) => SmoothSubmission(w, k, index);
    case _ => SmoothHook(w, k, index);
  }

  lemma SmoothHook(w: World, k: Key, index: nat)
    requires Inv(w, k) && OnCourse(w) && !w.pc.Idle? && !w.pc.ActivateNew? && !w.pc.SupersedeOld? && !w.pc.Submit?
    ensures var w1 := Step(w, Smooth(w, index));
            && OnCourse(w1) && StepsLeft(w1.pc) < StepsLeft(w.pc)
            && (w1.pc.Idle? ==> Done(w1, k) && w1.signer == w1.providers.target)
  {
    hide Inv, Reconciled, StoreKids, ActivateStep, SupersedeStep;
    if w.pc.PersistCompleted? {
      CompletionIsDone(w, k);
    }
  }

  lemma CompletionIsDone(w: World, k: Key)
    requires Inv(w, k) && w.pc.PersistCompleted?
    ensures Done(w.(pc := Idle, saved := Some(Completed(w.pc.job.rotation))), k) && w.signer == w.providers.target
  {
    hide SentInv, SettingInv, StoresInv, ValidPersisted, ReferencesAgree, Untouched, Overlapping, Reconciled, StoreKids;
  }

  lemma SmoothSubmission(w: World, k: Key, index: nat)
    requires Inv(w, k) && w.pc.Submit?
    ensures var w1 := Step(w, Smooth(w, index));
            w1.pc.PersistSubmission? && IsAccepted(w1.pc.job.rotation)
  {
    hide WellFormed, StoreKids, ReferencesAgree, ValidIdempotencyKey, KeysMatch, SentInv;
  }

  lemma SmoothActivation(w: World, k: Key, index: nat)
    requires Inv(w, k) && w.pc.ActivateNew?
    ensures Step(w, Smooth(w, index)).pc.SupersedeOld?
  {
    hide ValidPersisted, WellFormed, StoreKids, ValidateKeys, ReferencesAgree, Apply;
    var r := w.pc.job.rotation;
    ValidateKeysExactly(w.setting, w.providers, k, r);
    if Untouched(w.providers, k, NewKey(r)) {
      ActivationOverlaps(w.providers, k, r);
    }
  }

  lemma SmoothSupersede(w: World, k: Key, index: nat)
    requires Inv(w, k) && w.pc.SupersedeOld?
    ensures Step(w, Smooth(w, index)).pc.PersistActivated?
  {
    hide ValidPersisted, WellFormed, ReferencesAgree, Apply, Jwk;
    if Overlapping(w.providers, k, NewKey(w.pc.job.rotation)) {
      SupersedeReconciles(w.providers, k, w.pc.job.rotation);
    }
  }

  lemma {:induction false} DriveCompletes(w: World, k: Key, index: nat, n: nat)
    requires Inv(w, k) && OnCourse(w) && StepsLeft(w.pc) <= n
    requires w.pc.Idle? ==> Done(w, k) && w.signer == w.providers.target
    ensures var v := Drive(w, index, n);
            Inv(v, k) && Done(v, k) && v.signer == v.providers.target
    decreases n
  {
    hide Inv, Step, Done, Smooth;
    if !w.pc.Idle? {
      SmoothStepAdvances(w, k, index);
      DriveCompletes(Step(w, Smooth(w, index)), k, index, n - 1);
    }
  }

  /** Recovery.  After any run, however many crashes, raised hooks and resumes it had, let the process
      die once more.  If a rotation is durable and not rejected, one uninterrupted resume of it, with a
      registry that accepts and publication that matches, completes it; for every call whose arguments
      resolve to the rotation's own providers, those that leave one out included; the manager then signs with
      the target.  The resumes before may have been handed any states of the rotation, also those that broke
      safety. */
  lemma OneResumeCompletes(w: World, k: Key, choices: seq<Choice>, signer: Handle, c: Choice, index: nat)
    requires Init(w, k) && OwnRun(w, choices)
    requires var v := Step(Run(w, choices), Die(signer));
             && v.saved.Some? && !IsRejected(v.saved.value) && c.BeginResume? && c.given == v.saved.value
             && Resolves(v, c)
    ensures var v := Step(Run(w, choices), Die(signer));
            var done := Drive(Step(v, c), index, 10);
            Done(done, k) && done.signer == done.providers.target
  {
    hide Inv, Run, Done, Drive, HookStep, ResumeStep, RotateStep, SubmitStep, PrepareStep, ResolveProviders, Misfit;
    InitInv(w, k);
    RunKeepsInv(w, k, choices);
    var u := Run(w, choices);
    var v := Step(u, Die(signer));
    StepKeepsInv(u, k, Die(signer));
    EveryDurableStateResumes(v, k, v.saved.value);
    PassingResumeCompletes(v, k, c, index);
  }

  /** Which calls those are: both providers given, or the source left out where the manager already has it,
      or, on one provider, the target left out. */
  lemma CallsThatResolve(w: World, k: Key, r: Rotation, signer: Handle)
    requires Inv(w, k) && r in w.known
    ensures var t, target := w.setting, w.providers.target;
            forall previous, next ::
              ResolveProviders(r, signer, previous, next, t.previousRef, t.targetRef) == Some((Src, target)) <==>
              && (previous == Some(Src) || (previous.None? && signer.Src?))
              && (next == Some(target) || (next.None? && target.Src?))
  {
    hide ValidPersisted, SavedInv, StoresInv, SentInv, PcInv;
    assert KnownOk(w, k, r);
  }

  /** One uninterrupted resume of any state of the rotation that its keys let pass completes it: the durable
      state, or one an error carried, even if nothing is durable yet, or one that breaks safety meanwhile. */
  lemma PassingResumeCompletes(v: World, k: Key, c: Choice, index: nat)
    requires Inv(v, k) && v.pc.Idle? && c.BeginResume? && c.given in v.known && !IsRejected(c.given)
    requires Resolves(v, c)
    requires (v.saved.Some? ==> Core(c.given) == Core(v.saved.value)) && Passes(v.providers, k, c.given)
    requires c.given.signingPaused || v.saved == Some(c.given)
    ensures var done := Drive(Step(v, c), index, 10);
            Done(done, k) && done.signer == done.providers.target
  {
    hide Inv, ResumeStep, HookStep, RotateStep, SubmitStep, PrepareStep, Drive, ValidateKeys, ResolveProviders,
         Reconciled, Passes;
    ResumeProceeds(v, k, c);
    StepKeepsInv(v, k, c);
    if c.given.activated && !c.given.signingPaused {
      CompletedIsDone(v, k);
    }
    DriveCompletes(Step(v, c), k, index, 10);
  }

  lemma CompletedIsDone(v: World, k: Key)
    requires Inv(v, k) && v.pc.Idle? && v.saved.Some? && !v.saved.value.signingPaused
    ensures forall h :: Done(v.(signer := h), k)
  {
    hide SentInv, StoresInv, ValidPersisted, ReferencesAgree, Reconciled, PcInv, StoreKids, Untouched;
    assert KnownOk(v, k, v.saved.value);
  }

  /** What a caller of a new rotation has to bring: matching references, a target that generates the source
      key's algorithm, a valid idempotency key, a key that is new, and an entry that names both keys. */
  predicate CanRotate(w: World, k: Key, key: Key, idempotencyKey: string, entry: Entry) {
    && w.signer.Src? && ReferencesAgree(w.providers.target, w.setting.previousRef, w.setting.targetRef)
    && Target(w.providers).active.Some? && Target(w.providers).active.value.alg == k.alg == key.alg
    && ValidIdempotencyKey(idempotencyKey)
    && key.kid == key.thumbprint != "" && key.thumbprint != k.thumbprint
    && key.kid !in StoreKids(w.providers.src) + StoreKids(w.providers.dst)
    && entry.log == w.setting.identity.logReference && entry.domain == w.setting.identity.domain
    && entry.previousKid == k.kid && entry.previousThumbprint == k.thumbprint
    && entry.newKey == key && entry.newKid == key.kid && entry.newThumbprint == key.thumbprint
  }

  /** A new rotation that nothing interrupts completes. */
  lemma UninterruptedRotationCompletes(w: World, k: Key, key: Key, idempotencyKey: string, entry: Entry, index: nat)
    requires Init(w, k) && CanRotate(w, k, key, idempotencyKey, entry)
    ensures var begun := Step(w, BeginRotate(None, key, idempotencyKey, true, false));
            var done := Drive(Step(begun, Prepared(entry)), index, 10);
            Done(done, k) && done.signer == done.providers.target
  {
    hide Inv, Done, Drive, HookStep, ResumeStep, SubmitStep, StoreKids, ValidIdempotencyKey;
    InitInv(w, k);
    var begin := BeginRotate(None, key, idempotencyKey, true, false);
    StepKeepsInv(w, k, begin);
    RotationBegins(w, k, key, idempotencyKey, entry);
    var prepared := Step(Step(w, begin), Prepared(entry));
    StepKeepsInv(Step(w, begin), k, Prepared(entry));
    DriveCompletes(prepared, k, index, 10);
  }

  lemma RotationBegins(w: World, k: Key, key: Key, idempotencyKey: string, entry: Entry)
    requires Init(w, k) && CanRotate(w, k, key, idempotencyKey, entry)
    ensures Step(Step(w, BeginRotate(None, key, idempotencyKey, true, false)), Prepared(entry)).pc.PersistBefore?
  {
    hide WellFormed, StoreKids, ValidIdempotencyKey, Apply, HookStep, ResumeStep, SubmitStep;
    GenerationPends(w.providers, k, key);
    var s := Step(w, BeginRotate(None, key, idempotencyKey, true, false));
    assert s.pc == Prepare(k, key, idempotencyKey);
    PendingSigns(Target(s.providers), key);
  }

  lemma PendingSigns(s: KeyStore, key: Key)
    requires key in s.pending
    ensures CanSignWith(s, key.kid)
  {
  }
}
