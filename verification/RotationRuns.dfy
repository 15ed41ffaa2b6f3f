/** Runs that do occur: from every start that can rotate, admissible runs lead to each situation in which a
    stale resume breaks a promise.  Then the rotation after this one, and what states of this one do to it. */
module RotationRuns {
  import opened Options
  import opened KeyStores
  import opened Texts
  import opened Rotations
  import opened RotationSafety
  import opened RotationTheorems

  // ---- Putting runs together ----

  lemma {:induction false} AdmissibleAppend(w: World, a: seq<Choice>, b: seq<Choice>)
    requires AdmissibleRun(w, a) && AdmissibleRun(Run(w, a), b)
    ensures AdmissibleRun(w, a + b) && Run(w, a + b) == Run(Run(w, a), b)
    decreases |a|
  {
    hide Step, Admissible;
    if a == [] {
      assert a + b == b;
    } else {
      assert (a + b)[1..] == a[1..] + b && (a + b)[0] == a[0];
      AdmissibleAppend(Step(w, a[0]), a[1..], b);
    }
  }

  lemma AdmissibleSnoc(w: World, a: seq<Choice>, c: Choice)
    requires AdmissibleRun(w, a) && Admissible(Run(w, a), c)
    ensures AdmissibleRun(w, a + [c]) && Run(w, a + [c]) == Step(Run(w, a), c)
  {
    hide Step, Admissible;
    assert [c][1..] == [];
    AdmissibleAppend(w, a, [c]);
  }

  /** Whatever goes on within an invocation is admissible. */
  lemma WithinInvocation(w: World, c: Choice)
    requires !c.BeginRotate? && !c.BeginResume?
    ensures Admissible(w, c)
  {
  }

  /** What a rotation is called with never changes. */
  lemma StepKeepsSetting(w: World, c: Choice)
    ensures Step(w, c).setting == w.setting && Step(w, c).providers.target == w.providers.target
  {
    hide ValidPersisted, ValidIdempotencyKey, ReferencesAgree, StoreKids, ResolveProviders, ValidateKeys, Apply,
         ValidSubmission, CanSignWith, IsActive, HookStep;
    if c.Hook? {
      HookKeepsSetting(w, c);
    }
  }

  lemma HookKeepsSetting(w: World, c: Choice)
    requires c.Hook?
    ensures HookStep(w, c).setting == w.setting && HookStep(w, c).providers.target == w.providers.target
  {
    hide ActivateStep, SupersedeStep, IsAccepted, IsRejected, Activated, Completed;
    if w.pc.ActivateNew? || w.pc.SupersedeOld? {
      ReconcilingFrame(w, c);
    }
  }

  lemma {:induction false} RunKeepsSetting(w: World, choices: seq<Choice>)
    ensures Run(w, choices).setting == w.setting && Run(w, choices).providers.target == w.providers.target
    decreases |choices|
  {
    hide Step;
    if choices != [] {
      StepKeepsSetting(w, choices[0]);
      RunKeepsSetting(Step(w, choices[0]), choices[1..]);
    }
  }

  /** An uninterrupted continuation is an admissible run. */
  lemma {:induction false} DriveIsARun(w: World, index: nat, n: nat) returns (choices: seq<Choice>)
    ensures AdmissibleRun(w, choices) && Run(w, choices) == Drive(w, index, n)
    decreases n
  {
    hide Step, Admissible;
    if n == 0 || w.pc.Idle? {
      choices := [];
    } else {
      var c := Smooth(w, index);
      WithinInvocation(w, c);
      var rest := DriveIsARun(Step(w, c), index, n - 1);
      choices := [c] + rest;
      assert choices[1..] == rest;
    }
  }

  // ---- One call with its answer ----

  /** A registry that has not decided yet. */
  function Undecided(r: Rotation): Submission {
    Submission(Pending, r.entryHash, None, None, "")
  }

  /** One that has. */
  function Decided(r: Rotation, accepted: bool, index: nat): Submission {
    if accepted then Accepts(r, index).submission else Submission(Rejected, r.entryHash, None, None, "")
  }

  lemma AnswersAreValid(u: World, k: Key, accepted: bool, index: nat)
    requires Inv(u, k) && u.pc.PersistBefore?
    ensures var r := u.pc.job.rotation;
            ValidSubmission(r, Undecided(r)) && ValidSubmission(r, Decided(r, accepted, index))
  {
    hide WellFormed, StoreKids, ReferencesAgree, ValidIdempotencyKey, KeysMatch, SentInv, Untouched;
  }

  /** Persist, pause, submit, persist the answer. */
  function Round(s: Submission): seq<Choice> {
    [Hook(true, false)] + [Hook(true, false)] + [Respond(Returned(s))] + [Hook(true, false)]
  }

  lemma RoundEnds(u: World, s: Submission)
    requires u.pc.PersistBefore? && !IsAccepted(u.pc.job.rotation) && ValidSubmission(u.pc.job.rotation, s)
    ensures var r := u.pc.job.rotation.(submission := Some(s));
            var v := Run(u, Round(s));
            && AdmissibleRun(u, Round(s))
            && v.saved == Some(r) && r in v.known && u.known <= v.known && v.sent != []
            && v.providers == u.providers && v.setting == u.setting && v.signer == u.signer
            && v.pc == (if s.state == Accepted then Publication(u.pc.job.(rotation := r)) else Idle)
  {
    hide Admissible, Step, ValidSubmission;
    var e := Hook(true, false);
    assert AdmissibleRun(u, []) && Run(u, []) == u && [] + [e] == [e];
    WithinInvocation(u, e);
    AdmissibleSnoc(u, [], e);
    WithinInvocation(Step(u, e), e);
    AdmissibleSnoc(u, [e], e);
    Paused(u);
    var u2 := Step(Step(u, e), e);
    WithinInvocation(u2, Respond(Returned(s)));
    AdmissibleSnoc(u, [e] + [e], Respond(Returned(s)));
    WithinInvocation(Step(u2, Respond(Returned(s))), e);
    AdmissibleSnoc(u, [e] + [e] + [Respond(Returned(s))], e);
    AnswerIsPersisted(u2, s);
  }

  lemma Paused(u: World)
    requires u.pc.PersistBefore? && !IsAccepted(u.pc.job.rotation)
    ensures var j := u.pc.job;
            Step(Step(u, Hook(true, false)), Hook(true, false)) ==
            u.(saved := Some(j.rotation), known := u.known + {j.rotation}, paused := true, pc := Submit(j))
  {
    hide ActivateStep, SupersedeStep;
  }

  lemma AnswerIsPersisted(u: World, s: Submission)
    requires u.pc.Submit? && ValidSubmission(u.pc.job.rotation, s)
    ensures var r := u.pc.job.rotation.(submission := Some(s));
            var v := Step(Step(u, Respond(Returned(s))), Hook(true, false));
            && v.saved == Some(r) && v.known == u.known + {r} && |v.sent| == |u.sent| + 1
            && v.providers == u.providers && v.setting == u.setting && v.signer == u.signer
            && v.pc == (if s.state == Accepted then Publication(u.pc.job.(rotation := r)) else Idle)
  {
    hide ActivateStep, SupersedeStep, ValidSubmission;
    var r := u.pc.job.rotation.(submission := Some(s));
    assert u.known + {r} + {r} == u.known + {r};
  }

  // ---- The stale resumes do occur ----

  /** A pending result is durable, the keys untouched. */
  predicate PendingResult(v: World, k: Key, g: Rotation) {
    && v.pc.Idle? && v.saved == Some(g) && Untouched(v.providers, k, NewKey(g)) && !g.activated
    && g.submission.Some? && !IsAccepted(g) && !IsRejected(g)
  }

  /** All that has changed in the providers is that this key is pending. */
  predicate OnlyGenerated(w: World, v: World, key: Key) {
    var target := Target(w.providers);
    && v.signer == w.signer && v.setting == w.setting
    && v.providers == SetStore(w.providers, w.providers.target, target.(pending := target.pending + [key]))
  }

  lemma PendingIsReachable(w: World, k: Key, key: Key, idempotencyKey: string, entry: Entry)
      returns (choices: seq<Choice>, g: Rotation)
    requires Init(w, k) && CanRotate(w, k, key, idempotencyKey, entry)
    ensures AdmissibleRun(w, choices)
    ensures var v := Run(w, choices);
            Inv(v, k) && Guarded(v, k) && PendingResult(v, k, g) && OnlyGenerated(w, v, key)
  {
    hide Inv, Guarded, Step, Run, AdmissibleRun, Untouched, ValidSubmission, Misfit, CanRotate, Init, Round,
         Bound, ListedKids;
    InitInv(w, k);
    var begin := BeginRotate(None, key, idempotencyKey, true, false);
    Begins(w, k, key, idempotencyKey, entry);
    choices := [] + [begin];
    AdmissibleSnoc(w, [], begin);
    WithinInvocation(Run(w, choices), Prepared(entry));
    AdmissibleSnoc(w, choices, Prepared(entry));
    choices := choices + [Prepared(entry)];
    var opening := Run(w, choices);
    RunKeepsGuard(w, k, choices);
    var r := opening.pc.job.rotation;
    FirstOpening(opening, k);
    AnswersAreValid(opening, k, true, 0);
    RoundEnds(opening, Undecided(r));
    g := r.(submission := Some(Undecided(r)));
    AdmissibleAppend(w, choices, Round(Undecided(r)));
    choices := choices + Round(Undecided(r));
    RunKeepsGuard(w, k, choices);
  }

  lemma Begins(w: World, k: Key, key: Key, idempotencyKey: string, entry: Entry)
    requires Init(w, k) && CanRotate(w, k, key, idempotencyKey, entry)
    ensures var begin := BeginRotate(None, key, idempotencyKey, true, false);
            var v := Step(Step(w, begin), Prepared(entry));
            && AdmissibleRun(w, []) && Run(w, []) == w && Admissible(w, begin)
            && v.pc.PersistBefore? && v.saved.None? && OnlyGenerated(w, v, key)
  {
    hide WellFormed, StoreKids, ValidIdempotencyKey, HookStep, ResumeStep, SubmitStep, Kids, IndexOf;
    RotationBegins(w, k, key, idempotencyKey, entry);
  }

  lemma FirstOpening(u: World, k: Key)
    requires Inv(u, k) && u.pc.PersistBefore? && u.saved.None?
    ensures var r := u.pc.job.rotation;
            !IsAccepted(r) && !r.activated && Untouched(u.providers, k, NewKey(r))
  {
    hide WellFormed, StoreKids, ReferencesAgree, ValidIdempotencyKey, SentInv, Untouched;
  }

  /** The pending result is resumed, the answer is persisted, and the process dies. */
  lemma DecisionIsReachable(w: World, k: Key, key: Key, idempotencyKey: string, entry: Entry, accepted: bool,
                            index: nat)
      returns (choices: seq<Choice>, g: Rotation)
    requires Init(w, k) && CanRotate(w, k, key, idempotencyKey, entry)
    ensures AdmissibleRun(w, choices)
    ensures var v := Run(w, choices);
            && Inv(v, k) && v.pc.Idle? && g in v.known && Untouched(v.providers, k, NewKey(g))
            && v.saved == Some(g.(submission := Some(Decided(g, accepted, index))))
            && !g.activated && g.submission.Some? && !IsAccepted(g) && !IsRejected(g)
  {
    hide Inv, Guarded, Step, Run, AdmissibleRun, Untouched, ValidSubmission, Misfit, CanRotate, Init, Round,
         Bound, ListedKids;
    choices, g := PendingIsReachable(w, k, key, idempotencyKey, entry);
    InitInv(w, k);
    choices := ResumeDurable(w, k, choices, g);
    var opening := Run(w, choices);
    var s := Decided(g, accepted, index);
    AnswersAreValid(opening, k, accepted, index);
    RoundEnds(opening, s);
    AdmissibleAppend(w, choices, Round(s));
    choices := choices + Round(s);
    WithinInvocation(Run(w, choices), Die(Src));
    AdmissibleSnoc(w, choices, Die(Src));
    Dies(Run(w, choices));
    choices := choices + [Die(Src)];
    RunKeepsGuard(w, k, choices);
  }

  lemma Dies(w: World)
    ensures Step(w, Die(Src)) == w.(pc := Idle, signer := Src)
  {
  }

  /** What is durable and undecided or accepted can be resumed, up to its opening persist. */
  lemma ResumeDurable(w: World, k: Key, before: seq<Choice>, g: Rotation) returns (choices: seq<Choice>)
    requires Inv(w, k) && Guarded(w, k) && AdmissibleRun(w, before)
    requires var u := Run(w, before);
             u.pc.Idle? && u.saved == Some(g) && !g.activated && !IsRejected(g)
    ensures AdmissibleRun(w, choices)
    ensures var u, v := Run(w, before), Run(w, choices);
            Inv(v, k) && Guarded(v, k) && v == u.(pc := PersistBefore(Job(g, Src, u.providers.target))) && g in v.known
  {
    hide Inv, Guarded, Step, Run, AdmissibleRun, Misfit, Passes;
    var u := Run(w, before);
    RunKeepsGuard(w, k, before);
    EveryDurableStateResumes(u, k, g);
    StaleOpens(u, k, g);
    assert Admissible(u, ResumeWith(u, g));
    AdmissibleSnoc(w, before, ResumeWith(u, g));
    choices := before + [ResumeWith(u, g)];
    RunKeepsGuard(w, k, choices);
  }

  /** From every start that can rotate, an admissible run leads to a pending result that is then accepted,
      durably, before a crash: resuming that result once more regresses. */
  lemma StalePendingIsReachable(w: World, k: Key, key: Key, idempotencyKey: string, entry: Entry, index: nat)
      returns (choices: seq<Choice>, g: Rotation)
    requires Init(w, k) && CanRotate(w, k, key, idempotencyKey, entry)
    ensures AdmissibleRun(w, choices)
    ensures var v := Run(w, choices);
            && v.pc.Idle? && g in v.known
            && Phase(v.saved) == 3 && Phase(Step(Step(v, ResumeWith(v, g)), Hook(true, false)).saved) == 2
  {
    hide Inv, Guarded, Step, Run, AdmissibleRun, Untouched, Misfit, CanRotate, Init;
    choices, g := DecisionIsReachable(w, k, key, idempotencyKey, entry, true, index);
    StalePendingRegresses(Run(w, choices), k, g);
  }

  /** One leads to a pending result that is then rejected: resuming it writes over the rejection. */
  lemma StalePendingOverRejectionIsReachable(w: World, k: Key, key: Key, idempotencyKey: string, entry: Entry)
      returns (choices: seq<Choice>, g: Rotation)
    requires Init(w, k) && CanRotate(w, k, key, idempotencyKey, entry)
    ensures AdmissibleRun(w, choices)
    ensures var v := Run(w, choices);
            && v.pc.Idle? && g in v.known && v.saved.Some? && IsRejected(v.saved.value)
            && Step(Step(v, ResumeWith(v, g)), Hook(true, false)).saved == Some(g) && !IsRejected(g)
  {
    hide Inv, Guarded, Step, Run, AdmissibleRun, Untouched, Misfit, CanRotate, Init;
    choices, g := DecisionIsReachable(w, k, key, idempotencyKey, entry, false, 0);
    StalePendingOverRejection(Run(w, choices), k, g);
  }

  /** Across providers, one leads to a crash right after the activation, the pending result still known:
      resuming it leaves the new key active under a state that is not accepted. */
  lemma StalePendingUnderActiveKeyIsReachable(w: World, k: Key, key: Key, idempotencyKey: string, entry: Entry,
                                              index: nat)
      returns (choices: seq<Choice>, g: Rotation)
    requires Init(w, k) && CanRotate(w, k, key, idempotencyKey, entry) && w.providers.target.Dst?
    ensures AdmissibleRun(w, choices)
    ensures var v := Run(w, choices);
            var u := Step(Step(v, ResumeWith(v, g)), Hook(true, false));
            && v.pc.Idle? && g in v.known && v.saved.Some? && IsAccepted(v.saved.value)
            && u.saved == Some(g) && !IsAccepted(g) && Target(u.providers).active == Some(NewKey(g))
  {
    hide Inv, Guarded, Step, Run, AdmissibleRun, Untouched, Overlapping, Misfit, CanRotate, Init, Drive;
    choices, g := DecisionIsReachable(w, k, key, idempotencyKey, entry, true, index);
    var a := Run(w, choices).saved.value;
    InitInv(w, k);
    choices := ResumeDurable(w, k, choices, a);
    var opening := Run(w, choices);
    var rest := DriveIsARun(opening, index, 4);
    AdmissibleAppend(w, choices, rest);
    KnownGrows(opening, rest);
    choices := choices + rest;
    DrivenToActivation(opening, k, index);
    WithinInvocation(Run(w, choices), Die(Src));
    AdmissibleSnoc(w, choices, Die(Src));
    Dies(Run(w, choices));
    choices := choices + [Die(Src)];
    RunKeepsGuard(w, k, choices);
    RunKeepsSetting(w, choices);
    StalePendingUnderActiveKey(Run(w, choices), k, g);
  }

  /** From the opening persist of an accepted state, four uninterrupted steps activate the new key. */
  lemma DrivenToActivation(u: World, k: Key, index: nat)
    requires Inv(u, k) && u.pc.PersistBefore? && IsAccepted(u.pc.job.rotation)
    requires Untouched(u.providers, k, NewKey(u.pc.job.rotation))
    ensures var r := u.pc.job.rotation;
            var v := Drive(u, index, 4);
            v.saved == Some(r) && Overlapping(v.providers, k, NewKey(r)) && !Untouched(v.providers, k, NewKey(r))
  {
    hide Inv, HookStep, Untouched, Overlapping, ResumeStep, RotateStep, SubmitStep, PrepareStep;
    var u1 := Step(u, Hook(true, false));
    var u2 := Step(u1, Hook(true, false));
    var u3 := Step(u2, Confirm);
    DrivenToPublication(u);
    StepKeepsInv(u, k, Hook(true, false));
    StepKeepsInv(u1, k, Hook(true, false));
    StepKeepsInv(u2, k, Confirm);
    ActivatesNow(u3, k);
    assert Drive(Step(u3, Hook(true, false)), index, 0) == Step(u3, Hook(true, false)) == Drive(u3, index, 1);
    assert Drive(u, index, 4) == Drive(u1, index, 3) == Drive(u2, index, 2) == Drive(u3, index, 1);
  }

  lemma DrivenToPublication(u: World)
    requires u.pc.PersistBefore? && IsAccepted(u.pc.job.rotation)
    ensures var j := u.pc.job;
            var u1 := Step(u, Hook(true, false));
            var u2 := Step(u1, Hook(true, false));
            && u1 == u.(saved := Some(j.rotation), known := u.known + {j.rotation}, pc := Pause(j))
            && u2 == u1.(paused := true, pc := Publication(j))
            && Step(u2, Confirm) == u2.(pc := ActivateNew(j))
  {
    hide ActivateStep, SupersedeStep;
  }

  lemma ActivatesNow(w: World, k: Key)
    requires Inv(w, k) && w.pc.ActivateNew? && Untouched(w.providers, k, NewKey(w.pc.job.rotation))
    ensures var r := w.pc.job.rotation;
            var v := Step(w, Hook(true, false));
            v.saved == w.saved && Overlapping(v.providers, k, NewKey(r)) && !Untouched(v.providers, k, NewKey(r))
  {
    hide ValidPersisted, WellFormed, StoreKids, ValidateKeys, ReferencesAgree, Apply;
    var r := w.pc.job.rotation;
    ValidateKeysExactly(w.setting, w.providers, k, r);
    ActivationOverlaps(w.providers, k, r);
  }

  /** And one leads to completion, an accepted copy from before activation still known: resuming it writes it
      back while signing goes on. */
  lemma StaleAcceptedUnderReleaseIsReachable(w: World, k: Key, key: Key, idempotencyKey: string, entry: Entry,
                                             index: nat)
      returns (choices: seq<Choice>, g: Rotation)
    requires Init(w, k) && CanRotate(w, k, key, idempotencyKey, entry)
    ensures AdmissibleRun(w, choices)
    ensures var v := Run(w, choices);
            var u := Step(Step(v, ResumeWith(v, g)), Hook(true, false));
            && Inv(v, k) && Done(v, k) && g in v.known && Core(g) == Core(v.saved.value)
            && IsAccepted(g) && !g.activated && g.signingPaused
            && Phase(v.saved) == 5 && Phase(u.saved) == 3 && !u.paused && u.sent != []
  {
    hide Inv, Guarded, Step, Run, AdmissibleRun, Untouched, Misfit, CanRotate, Init, Drive, Done;
    var pending;
    choices, pending := DecisionIsReachable(w, k, key, idempotencyKey, entry, true, index);
    g := Run(w, choices).saved.value;
    InitInv(w, k);
    choices := ResumeDurable(w, k, choices, g);
    var opening := Run(w, choices);
    assert OnCourse(opening);
    DriveCompletes(opening, k, index, 10);
    var rest := DriveIsARun(opening, index, 10);
    AdmissibleAppend(w, choices, rest);
    KnownGrows(opening, rest);
    AdmissibleIsOwn(opening, rest);
    CoreNeverChanges(opening, k, rest);
    choices := choices + rest;
    NotActivatedIsPaused(Run(w, choices), k, g);
    StaleAcceptedUnderRelease(Run(w, choices), k, g);
  }

  lemma NotActivatedIsPaused(w: World, k: Key, g: Rotation)
    requires Inv(w, k) && g in w.known
    ensures !g.activated ==> g.signingPaused
  {
    hide ValidPersisted, SavedInv, StoresInv, SentInv, PcInv, Untouched, StoreKids;
    assert KnownOk(w, k, g);
  }

  // ---- The rotation after this one ----

  /** A completed rotation leaves its target ready to be the source of the next one. */
  lemma CompletedStartsTheNext(w: World, k: Key, other: KeyStore, target: Handle, t: Setting)
    requires Inv(w, k) && Done(w, k) && WellFormed(other) && t.identity == w.setting.identity
    ensures var n := NewKey(w.saved.value);
            Init(World(t, Providers(target, Target(w.providers), other), None, false, [], Idle, {}, Src), n)
  {
  }

  /** A rejected one leaves its source signing with the same key, ready to start over. */
  lemma RejectedStartsOver(w: World, k: Key, other: KeyStore, target: Handle, t: Setting)
    requires Inv(w, k) && w.saved.Some? && IsRejected(w.saved.value) && WellFormed(other)
    requires t.identity == w.setting.identity
    ensures Init(World(t, Providers(target, w.providers.src, other), None, w.paused, [], Idle, {}, Src), k)
  {
    hide Bound, PcInv, KnownInv, SentInv, StoreKids, WellFormed;
  }

  /** A resume may also be handed a state of some other rotation, however old.  While this one is durable,
      that breaks its safety exactly when the resume is not refused; only the release of an activated one is
      harmless, before the first submission or once this one is activated too. */
  lemma OtherRotationsBreakSafety(w: World, k: Key, c: Choice)
    requires Inv(w, k) && Guarded(w, k) && w.pc.Idle? && w.saved.Some?
    requires c.BeginResume? && Core(c.given) != Core(w.saved.value)
    ensures Safe(Step(Step(w, c), Hook(true, false)), k, w.saved.value) <==>
            Step(w, c).pc.Idle? || (c.given.activated && (w.sent == [] || w.saved.value.activated))
  {
    hide Inv, Guarded, HookStep, ResumeStep, Core;
    SafeWhenGuarded(w, k, w.saved.value);
    WhatAPersistKnows(w, k);
    BeginsAt(w, c);
    OpeningHook(Step(w, c));
  }

  /** Where a resume gets without any effect. */
  lemma BeginsAt(w: World, c: Choice)
    requires w.pc.Idle? && c.BeginResume?
    ensures var v := ResumeStep(w, c);
            && v == w.(signer := v.signer, pc := v.pc)
            && (v.pc.Idle? || (if c.given.activated then v.pc.Release? else v.pc.PersistBefore?))
            && (!v.pc.Idle? ==> v.pc.job.rotation == c.given)
  {
    hide ValidPersisted, ResolveProviders, ValidateKeys;
  }

  /** A state of a completed rotation, handed to a resume during the next one, is not refused exactly when it
      is accepted, its new key still signs, and it is not the completed state itself: in one provider until
      the next rotation activates its own key. */
  lemma CompletedStateOpensExactlyWhen(done: World, k: Key, g: Rotation, w: World, c: Choice, p: Handle, t: Handle)
    requires Inv(done, k) && Done(done, k) && g in done.known && Core(g) == Core(done.saved.value)
    requires w.setting.identity == done.setting.identity && w.pc.Idle? && c.BeginResume? && c.given == g
    requires ResolveProviders(g, w.signer, c.previous, c.target, c.previousRef, c.targetRef) == Some((p, t))
    requires k.kid !in ListedKids(Store(w.providers, p))
    ensures !Step(w, c).pc.Idle? <==>
            && IsAccepted(g) && g.signingPaused && IsActive(Store(w.providers, t), g.newKid, g.newThumbprint)
            && (p == t || Store(w.providers, p).active.None?)
  {
    hide Inv, ResolveProviders, ListedKids, ValidPersisted, Kids;
    KnownSituated(done, k, g);
    BoundIsValid(done.setting, done.providers.target, k, g);
  }

  /** A state of a rejected rotation, whose new key was left pending, is not refused while the rotation begun
      after it has not touched the keys, unless it is the rejected state itself. */
  lemma RejectedStateOpensExactlyWhen(rejected: World, k: Key, g: Rotation, w: World, c: Choice)
    requires Inv(rejected, k) && g in rejected.known && rejected.saved.Some? && Core(g) == Core(rejected.saved.value)
    requires w.setting == rejected.setting && w.providers.target == rejected.providers.target
    requires StoresInv(w.providers, k) && Untouched(w.providers, k, NewKey(g))
    requires w.pc.Idle? && c.BeginResume? && c.given == g && Resolves(w, c)
    ensures !Step(w, c).pc.Idle? <==> !g.activated && !IsRejected(g)
  {
    hide Inv, Bound, StoresInv, ValidPersisted, ValidateKeys, ResolveProviders, IsActive, Untouched;
    KnownSituated(rejected, k, g);
    BoundIsValid(rejected.setting, rejected.providers.target, k, g);
    ValidateKeysExactly(w.setting, w.providers, k, g);
  }

  /** The resume of a completed rotation's state during the next one, whose source is the earlier target. */
  function LateResume(done: World, g: Rotation): Choice {
    BeginResume(g, Some(if done.providers.target.Src? then Src else Dst), Some(Src), done.setting.previousRef,
                done.setting.targetRef)
  }

  /** Such resumes do break the next rotation: wherever a completed rotation left an accepted copy known, the
      next one, in one provider, comes to a pending result that the copy then writes over. */
  lemma CompletedStateDisplacesTheNext(done: World, k: Key, g: Rotation, next: World, key: Key, idempotencyKey: string,
                                       entry: Entry)
      returns (choices: seq<Choice>)
    requires Inv(done, k) && Done(done, k) && g in done.known && Core(g) == Core(done.saved.value)
    requires IsAccepted(g) && !g.activated
    requires Init(next, NewKey(g)) && next.setting.identity == done.setting.identity
    requires next.providers.src == Target(done.providers) && next.providers.target.Src?
    requires done.providers.target.Dst? ==> next.providers.dst == done.providers.src
    requires CanRotate(next, NewKey(g), key, idempotencyKey, entry)
    ensures AdmissibleRun(next, choices)
    ensures var v := Run(next, choices);
            var u := Step(Step(v, LateResume(done, g)), Hook(true, false));
            && v.pc.Idle? && v.saved.Some? && v.saved.value.submission.Some? && u.saved == Some(g)
            && !Safe(u, NewKey(g), v.saved.value)
  {
    hide Inv, Guarded, Step, Run, AdmissibleRun, CanRotate, Init, ListedKids, Reconciled, Bound, ResolveProviders,
         Safe, Kids;
    var s;
    choices, s := PendingIsReachable(next, NewKey(g), key, idempotencyKey, entry);
    var v := Run(next, choices);
    RunKeepsSetting(next, choices);
    GeneratedIsNotListed(next, v, key);
    LateResumeResolves(done, k, g, v);
    CompletedStateOpensExactlyWhen(done, k, g, v, LateResume(done, g),
        if done.providers.target.Src? then Src else Dst, Src);
    AnotherRotation(v, NewKey(g), g);
    OtherRotationsBreakSafety(v, NewKey(g), LateResume(done, g));
    OpensWith(v, LateResume(done, g));
  }

  lemma GeneratedIsNotListed(w: World, v: World, key: Key)
    requires OnlyGenerated(w, v, key)
    ensures ListedKids(v.providers.src) == ListedKids(w.providers.src)
    ensures w.providers.target.Src? ==> v.providers.dst == w.providers.dst
  {
  }

  lemma LateResumeResolves(done: World, k: Key, g: Rotation, v: World)
    requires Inv(done, k) && Done(done, k) && g in done.known && Core(g) == Core(done.saved.value) && !g.activated
    requires ListedKids(v.providers.src) == ListedKids(Target(done.providers))
    requires done.providers.target.Dst? ==> v.providers.dst == done.providers.src
    requires v.providers.src.active == Some(NewKey(g))
    ensures var c, p := LateResume(done, g), if done.providers.target.Src? then Src else Dst;
            && ResolveProviders(g, v.signer, c.previous, c.target, c.previousRef, c.targetRef) == Some((p, Src))
            && k.kid !in ListedKids(Store(v.providers, p)) && (p == Src || Store(v.providers, p).active.None?)
            && IsActive(v.providers.src, g.newKid, g.newThumbprint) && g.signingPaused
  {
    hide Inv;
    KnownSituated(done, k, g);
  }

  lemma AnotherRotation(w: World, n: Key, g: Rotation)
    requires Inv(w, n) && NewKey(g) == n && w.saved.Some?
    ensures Core(g) != Core(w.saved.value)
  {
    hide ValidPersisted, PcInv, SentInv, StoresInv, KeysMatch;
    assert KnownOk(w, n, w.saved.value);
    assert NewKey(Core(g)) == NewKey(g) && NewKey(Core(w.saved.value)) == NewKey(w.saved.value);
  }

  lemma OpensWith(w: World, c: Choice)
    requires w.pc.Idle? && c.BeginResume? && !Step(w, c).pc.Idle? && !c.given.activated
    ensures Step(Step(w, c), Hook(true, false)).saved == Some(c.given)
  {
    hide ResumeStep, HookStep;
    BeginsAt(w, c);
    OpeningHook(Step(w, c));
  }

  // ---- A rotation begun over a durable one ----

  /** The call, with this prepared envelope, comes to its opening persist: it is made on the source provider
      with a new key, a valid idempotency key, matching references and algorithms; generation does not raise;
      and the envelope names the active key and the new one. */
  predicate Prepares(w: World, c: Choice, entry: Entry)
    requires c.BeginRotate?
  {
    var src, target := w.providers.src, Target(w.providers);
    && w.signer.Src?
    && c.idempotencyKey != "" && Strip(c.idempotencyKey) == c.idempotencyKey && Utf8Length(c.idempotencyKey) <= 200
    && (if w.providers.target.Src? then w.setting.previousRef == w.setting.targetRef
        else w.setting.previousRef != "" && w.setting.targetRef != "" && w.setting.previousRef != w.setting.targetRef)
    && src.active.Some? && src.active.value.kid != "" && target.active.Some?
    && var previous := src.active.value;
    && c.key.kid == c.key.thumbprint != "" && c.key.thumbprint != previous.thumbprint
    && c.key.kid !in StoreKids(src) + StoreKids(w.providers.dst)
    && target.active.value.alg == c.key.alg == (if c.algorithm.Some? then c.algorithm.value else previous.alg)
    && !c.raises
    && entry.log == w.setting.identity.logReference && entry.domain == w.setting.identity.domain
    && entry.previousKid == previous.kid && entry.previousThumbprint == previous.thumbprint
    && entry.newKey == c.key && entry.newKid == c.key.kid && entry.newThumbprint == c.key.thumbprint
  }

  lemma RotationOpensExactlyWhen(w: World, c: Choice, entry: Entry)
    requires w.pc.Idle? && c.BeginRotate?
    ensures Step(Step(w, c), Prepared(entry)).pc.PersistBefore? <==> Prepares(w, c, entry)
  {
    hide StoreKids, HookStep, ResumeStep, SubmitStep, CanSignWith, Strip, Utf8Length;
    if w.providers.src.active.Some? && Target(w.providers).active.Some? {
      BothSign(w, c.key);
    }
  }

  lemma BothSign(w: World, key: Key)
    requires w.providers.src.active.Some? && Target(w.providers).active.Some?
    ensures var ps := SetStore(w.providers, w.providers.target, Apply(Target(w.providers), Generate(key)).value);
            CanSignWith(ps.src, w.providers.src.active.value.kid) && CanSignWith(Target(ps), key.kid)
  {
    assert key in Target(w.providers).pending + [key];
  }

  /** Nothing refuses a new rotation while one is durable.  That breaks the durable one's safety exactly when
      the call comes to its opening persist. */
  lemma RotatingAgainBreaksSafety(w: World, k: Key, c: Choice, entry: Entry)
    requires Inv(w, k) && Guarded(w, k) && w.pc.Idle? && w.saved.Some? && c.BeginRotate?
    ensures var after := Step(Step(Step(w, c), Prepared(entry)), Hook(true, false));
            Safe(after, k, w.saved.value) <==> !Prepares(w, c, entry)
  {
    hide Inv, Guarded, Step, StoreKids, Prepares;
    SafeWhenGuarded(w, k, w.saved.value);
    DurableKeyIsStored(w, k);
    RotationOpensExactlyWhen(w, c, entry);
    RotatesAgain(w, c, entry);
    var u := Step(Step(w, c), Prepared(entry));
    if u.pc.PersistBefore? {
      var r := u.pc.job.rotation;
      assert NewKey(Core(r)) == NewKey(r) && NewKey(Core(w.saved.value)) == NewKey(w.saved.value);
    }
  }

  /** And it does happen: from every start that can rotate with two different keys, the rotation to the first
      comes to a pending result, which the one to the second then writes over. */
  lemma RotatingAgainIsReachable(w: World, k: Key, key: Key, idempotencyKey: string, entry: Entry, second: Choice,
                                 secondEntry: Entry)
      returns (choices: seq<Choice>, g: Rotation)
    requires Init(w, k) && CanRotate(w, k, key, idempotencyKey, entry)
    requires second.BeginRotate? && Prepares(w, second, secondEntry) && second.key.kid != key.kid
    ensures AdmissibleRun(w, choices)
    ensures var v := Run(w, choices);
            var u := Step(Step(Step(v, second), Prepared(secondEntry)), Hook(true, false));
            && PendingResult(v, k, g) && u.saved.Some? && NewKey(u.saved.value) == second.key
            && !Safe(u, k, g)
  {
    hide Inv, Guarded, Step, Run, AdmissibleRun, CanRotate, Init, Safe, Prepares, StoreKids, OnlyGenerated;
    choices, g := PendingIsReachable(w, k, key, idempotencyKey, entry);
    var v := Run(w, choices);
    StillPrepares(w, v, k, key, second, secondEntry);
    RotationOpensExactlyWhen(v, second, secondEntry);
    RotatesAgain(v, second, secondEntry);
    RotatingAgainBreaksSafety(v, k, second, secondEntry);
  }

  lemma StillPrepares(w: World, v: World, k: Key, key: Key, c: Choice, entry: Entry)
    requires Init(w, k) && OnlyGenerated(w, v, key) && c.BeginRotate? && Prepares(w, c, entry) && c.key.kid != key.kid
    ensures Prepares(v, c, entry)
  {
    hide WellFormed, Strip, Utf8Length;
    assert Kids(Target(w.providers).pending + [key]) <= Kids(Target(w.providers).pending) + {key.kid};
  }

  /** What the call has done by its opening persist, or when it fails before. */
  lemma RotatesAgain(w: World, c: Choice, entry: Entry)
    requires w.pc.Idle? && c.BeginRotate?
    ensures var u := Step(Step(w, c), Prepared(entry));
            var v := Step(u, Hook(true, false));
            && v.paused == w.paused && v.sent == w.sent && Target(v.providers).active == Target(w.providers).active
            && if u.pc.PersistBefore?
               then v.saved == Some(u.pc.job.rotation) && NewKey(u.pc.job.rotation) == c.key
                    && c.key.kid !in StoreKids(w.providers.src) + StoreKids(w.providers.dst)
               else v.saved == w.saved
  {
    hide StoreKids, CanSignWith, ValidIdempotencyKey, ReferencesAgree, HookStep, ResumeStep, SubmitStep;
    OpeningHook(Step(Step(w, c), Prepared(entry)));
  }

  lemma OpeningHook(u: World)
    ensures u.pc.Idle? ==> HookStep(u, Hook(true, false)) == u
    ensures u.pc.PersistBefore? ==>
              var r := u.pc.job.rotation;
              HookStep(u, Hook(true, false)) == u.(saved := Some(r), known := u.known + {r}, pc := Pause(u.pc.job))
    ensures u.pc.Release? ==> HookStep(u, Hook(true, false)) == u.(paused := false, pc := PersistCompleted(u.pc.job))
  {
    hide ActivateStep, SupersedeStep;
  }

  lemma DurableKeyIsStored(w: World, k: Key)
    requires Inv(w, k) && w.saved.Some?
    ensures NewKey(w.saved.value).kid in StoreKids(w.providers.src) + StoreKids(w.providers.dst)
  {
    hide ValidPersisted, PcInv, SentInv, KnownInv, WellFormed;
    var n := NewKey(w.saved.value);
    assert n in Target(w.providers).pending ==> n.kid in Kids(Target(w.providers).pending);
  }
}
