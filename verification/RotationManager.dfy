/** The rotation methods of `IdentityManager` in their own imperative form.  Each effect is one step of the
    machine; the methods keep the rotation's invariant, and state what their caller gets: when a call
    completes the rotation, and that signing goes on only under a durably activated one. */
module RotationManagers {
  import opened Options
  import opened KeyStores
  import opened Rotations
  import opened RotationSafety
  import opened RotationTheorems
  import opened RotationRuns

  /** What the environment decides during one invocation: how each hook and provider mutation ends,
      what the registry replies, and whether publication is confirmed. */
  datatype Environment = Environment(
    persistBefore: Choice, pause: Choice, reply: Reply, persistSubmission: Choice, published: bool,
    activate: Choice, supersede: Choice, persistActivated: Choice, release: Choice, persistCompleted: Choice)
  {
    predicate Valid() {
      persistBefore.Hook? && pause.Hook? && persistSubmission.Hook? && activate.Hook? && supersede.Hook?
      && persistActivated.Hook? && release.Hook? && persistCompleted.Hook?
    }

    /** Nothing raises, the registry accepts at this index, and publication matches. */
    predicate Smooth(r: Rotation, index: nat) {
      && persistBefore == pause == persistSubmission == activate == supersede == persistActivated == release
         == persistCompleted == Hook(true, false)
      && reply == Accepts(r, index) && published
    }

    function ReleaseScript(): seq<Choice> {
      [release] + [persistCompleted]
    }

    function ReconcileScript(): seq<Choice> {
      [activate] + [supersede]
    }

    function FinishScript(): seq<Choice> {
      [if published then Confirm else Refuse] + (ReconcileScript() + ([persistActivated] + ReleaseScript()))
    }

    function SubmitScript(): seq<Choice> {
      [Respond(reply)] + ([persistSubmission] + FinishScript())
    }

    function ResumeScript(): seq<Choice> {
      [persistBefore] + ([pause] + SubmitScript())
    }
  }

  predicate MidInvocation(choices: seq<Choice>) {
    forall c | c in choices :: !c.Die? && !c.BeginRotate? && !c.BeginResume?
  }

  /** Once an invocation has returned or raised, its remaining decisions decide nothing. */
  lemma {:induction false} NothingLeft(w: World, choices: seq<Choice>)
    requires w.pc.Idle? && MidInvocation(choices)
    ensures Run(w, choices) == w
    decreases |choices|
  {
    if choices != [] {
      assert choices[0] in choices;
      NothingLeft(w, choices[1..]);
    }
  }

  /** What is left of an invocation begins nothing. */
  lemma MidScripts(e: Environment, answer: Choice)
    requires e.Valid() && (answer.Prepared? || answer.Refuse?)
    ensures MidInvocation(e.ReleaseScript()) && MidInvocation(e.ReconcileScript()) && MidInvocation(e.FinishScript())
    ensures MidInvocation([e.persistSubmission] + e.FinishScript()) && MidInvocation(e.SubmitScript())
    ensures MidInvocation([e.pause] + e.SubmitScript()) && MidInvocation(e.ResumeScript())
    ensures MidInvocation([answer] + e.ResumeScript())
  {
    assert MidInvocation(e.ReconcileScript() + ([e.persistActivated] + e.ReleaseScript()));
  }

  lemma RunFirst(w: World, c: Choice, rest: seq<Choice>)
    ensures Run(w, [c] + rest) == Run(Step(w, c), rest)
    ensures Run(w, [c]) == Step(w, c)
  {
  }

  lemma KeepsValid(w: World, k: Key, c: Choice)
    requires !c.BeginRotate? && !c.BeginResume?
    ensures Inv(w, k) ==> Inv(Step(w, c), k)
    ensures Inv(w, k) && Guarded(w, k) ==> Guarded(Step(w, c), k)
  {
    hide Inv, Guarded, Misfit, Step;
    if Inv(w, k) {
      StepKeepsInv(w, k, c);
      if Guarded(w, k) {
        StepKeepsGuard(w, k, c);
      }
    }
  }

  lemma KeepsValidRun(w: World, k: Key, script: seq<Choice>, e: Environment)
    requires e.Valid()
    requires script in [e.ReleaseScript(), e.ReconcileScript(), e.FinishScript(), e.SubmitScript(), e.ResumeScript()]
    ensures Inv(w, k) ==> Inv(Run(w, script), k)
    ensures Inv(w, k) && Guarded(w, k) ==> Guarded(Run(w, script), k)
  {
    hide Inv, Guarded, Run, MidInvocation;
    MidScripts(e, Refuse);
    if Inv(w, k) {
      MidRunKeepsInv(w, k, script);
    }
  }

  class RotationManager {
    const setting: Setting
    var providers: Providers
    var saved: Option<Rotation>
    var paused: bool
    var signer: Handle
    /** The recovery states the application saw, what was submitted, and the program point. */
    ghost var known: set<Rotation>
    ghost var sent: seq<Sent>
    ghost var pc: Pc
    /** The key the rotation starts from. */
    ghost const k: Key

    constructor (setting: Setting, providers: Providers, ghost k: Key)
      ensures View() == World(setting, providers, None, false, [], Idle, {}, Src) && this.k == k
      ensures Init(View(), k) ==> Secure()
    {
      this.setting, this.providers, this.k := setting, providers, k;
      saved, paused, signer, known, sent, pc := None, false, Src, {}, [], Idle;
      new;
      if Init(View(), k) {
        InitInv(View(), k);
      }
    }

    ghost function View(): World
      reads this
    {
      World(setting, providers, saved, paused, sent, pc, known, signer)
    }

    ghost predicate Valid()
      reads this
    {
      Inv(View(), k)
    }

    /** Valid, and no resume was handed a state that does not fit. */
    ghost predicate Secure()
      reads this
    {
      Valid() && Guarded(View(), k)
    }

    // ---- Effects, one program point each ----

    /** Calls the persistence hook with `r`. */
    method PersistRotation(r: Rotation, how: Choice) returns (ok: bool)
      requires how.Hook?
      modifies this`saved, this`known
      ensures ok == !how.raises && known == old(known) + {r}
      ensures saved == if Lands(how) then Some(r) else old(saved)
    {
      known := known + {r};
      if how.landed || !how.raises {
        saved := Some(r);
      }
      ok := !how.raises;
    }

    /** Mutates a provider's key store; its file may be replaced even when the call raises. */
    method MutateProvider(h: Handle, op: Operation, how: Choice) returns (ok: bool)
      requires how.Hook?
      modifies this`providers
      ensures ok == (Apply(Store(old(providers), h), op).Ok? && !how.raises)
      ensures providers == if Apply(Store(old(providers), h), op).Ok? && Lands(how)
                           then SetStore(old(providers), h, Apply(Store(old(providers), h), op).value)
                           else old(providers)
    {
      var result := Apply(Store(providers, h), op);
      if result.Ok? && (how.landed || !how.raises) {
        providers := SetStore(providers, h, result.value);
      }
      ok := result.Ok? && !how.raises;
    }

    /** Goes on to `next`, or raises carrying `recovery`. */
    method ProceedOrRaise(ok: bool, ghost next: Pc, ghost recovery: Option<Rotation>)
      modifies this`known, this`pc
      ensures View() == if ok then old(View()).(pc := next) else Fail(old(View()), recovery)
    {
      if ok {
        pc := next;
      } else {
        known, pc := if recovery.Some? then known + {recovery.value} else known, Idle;
      }
    }

    method PersistOpening(j: Job, how: Choice) returns (ok: bool)
      requires how.Hook? && pc == PersistBefore(j)
      modifies this`saved, this`known, this`pc
      ensures View() == Step(old(View()), how) && pc == if ok then Pause(j) else Idle
      ensures (old(Valid()) ==> Valid()) && (old(Secure()) ==> Secure())
    {
      hide Inv, Guarded;
      ghost var w := View();
      ok := PersistRotation(j.rotation, how);
      ProceedOrRaise(ok, Pause(j), Some(j.rotation));
      KeepsValid(w, k, how);
    }

    method PauseSigning(j: Job, how: Choice) returns (ok: bool)
      requires how.Hook? && pc == Pause(j)
      modifies this`paused, this`known, this`pc
      ensures View() == Step(old(View()), how)
      ensures pc == if !ok then Idle else if IsAccepted(j.rotation) then Publication(j) else Submit(j)
      ensures (old(Valid()) ==> Valid()) && (old(Secure()) ==> Secure())
    {
      hide Inv, Guarded;
      ghost var w := View();
      if how.landed || !how.raises {
        paused := true;
      }
      ok := !how.raises;
      ProceedOrRaise(ok, if IsAccepted(j.rotation) then Publication(j) else Submit(j), Some(j.rotation));
      KeepsValid(w, k, how);
    }

    /** Submits; answers the candidate state to persist, if any. */
    method CallRegistry(j: Job, reply: Reply) returns (candidate: Option<Job>)
      requires pc == Submit(j)
      modifies this`sent, this`known, this`pc
      ensures View() == Step(old(View()), Respond(reply))
      ensures pc == if candidate.None? then Idle
                    else if reply.TransientError? then PersistIndeterminate(candidate.value)
                    else PersistSubmission(candidate.value)
      ensures (old(Valid()) ==> Valid()) && (old(Secure()) ==> Secure())
    {
      hide Inv, Guarded;
      ghost var w := View();
      var r := j.rotation;
      sent := sent + [Sent(r.domain, r.entry, r.idempotencyKey, saved, paused)];
      match reply {
        case TerminalError =>
          candidate := None;
          ProceedOrRaise(false, Idle, Some(r));
        case TransientError =>
          candidate := Some(j.(rotation := r.(submission := Some(Submission(Pending, r.entryHash, None, None, "")))));
          pc := PersistIndeterminate(candidate.value);
        case Returned(s) =>
          candidate := if ValidSubmission(r, s) then Some(j.(rotation := r.(submission := Some(s)))) else None;
          ProceedOrRaise(candidate.Some?, PersistSubmission(j.(rotation := r.(submission := Some(s)))), Some(r));
      }
      KeepsValid(w, k, Respond(reply));
    }

    method PersistReply(j: Job, indeterminate: bool, how: Choice) returns (accepted: bool)
      requires how.Hook? && pc == if indeterminate then PersistIndeterminate(j) else PersistSubmission(j)
      modifies this`saved, this`known, this`pc
      ensures View() == Step(old(View()), how) && pc == if accepted then Publication(j) else Idle
      ensures (old(Valid()) ==> Valid()) && (old(Secure()) ==> Secure())
    {
      hide Inv, Guarded;
      ghost var w := View();
      var ok := PersistRotation(j.rotation, how);
      ok := ok && !indeterminate && !IsRejected(j.rotation);
      accepted := ok && IsAccepted(j.rotation);
      ProceedOrRaise(ok, AfterSubmission(j), Some(j.rotation));
      KeepsValid(w, k, how);
    }

    method RotationPublication(j: Job, published: bool)
      requires pc == Publication(j)
      modifies this`known, this`pc
      ensures View() == Step(old(View()), if published then Confirm else Refuse)
      ensures pc == if published then ActivateNew(j) else Idle
      ensures (old(Valid()) ==> Valid()) && (old(Secure()) ==> Secure())
    {
      hide Inv, Guarded;
      ghost var w := View();
      ProceedOrRaise(published, ActivateNew(j), Some(j.rotation));
      KeepsValid(w, k, if published then Confirm else Refuse);
    }

    method ActivateNewKey(j: Job, how: Choice) returns (ok: bool)
      requires how.Hook? && pc == ActivateNew(j)
      modifies this`providers, this`known, this`pc
      ensures View() == Step(old(View()), how) && pc == if ok then SupersedeOld(j) else Idle
      ensures (old(Valid()) ==> Valid()) && (old(Secure()) ==> Secure())
    {
      hide Inv, Guarded;
      ghost var w := View();
      var active := ValidateKeys(j.rotation, Store(providers, j.previous), Store(providers, j.target), j.previous ==
          j.target);
      ok := active.Some?;
      if active == Some(false) {
        ok := MutateProvider(j.target, Activate(j.rotation.newKid), how);
      }
      ProceedOrRaise(ok, SupersedeOld(j), Some(j.rotation));
      KeepsValid(w, k, how);
    }

    method SupersedeOldKey(j: Job, how: Choice) returns (ok: bool)
      requires how.Hook? && pc == SupersedeOld(j)
      modifies this`providers, this`known, this`pc
      ensures View() == Step(old(View()), how) && pc == if ok then PersistActivated(j) else Idle
      ensures (old(Valid()) ==> Valid()) && (old(Secure()) ==> Secure())
    {
      hide Inv, Guarded, ValidateKeys;
      ghost var w := View();
      var previous := Store(providers, j.previous);
      ok := true;
      if j.rotation.previousKid in ListedKids(previous) {
        var found := Jwk(previous, j.rotation.previousKid);
        ok := found.Some? && found.value.thumbprint == j.rotation.previousThumbprint;
        if ok {
          ok := MutateProvider(j.previous, Supersede(j.rotation.previousKid, j.previous != j.target), how);
        }
      }
      ProceedOrRaise(ok, PersistActivated(j), Some(j.rotation));
      KeepsValid(w, k, how);
    }

    method PersistActivation(j: Job, how: Choice) returns (ok: bool)
      requires how.Hook? && pc == PersistActivated(j)
      modifies this`saved, this`known, this`pc, this`signer
      ensures View() == Step(old(View()), how)
      ensures pc == if ok then Release(j.(rotation := Activated(j.rotation))) else Idle
      ensures (old(Valid()) ==> Valid()) && (old(Secure()) ==> Secure())
    {
      hide Inv, Guarded;
      ghost var w := View();
      ok := PersistRotation(Activated(j.rotation), how);
      if ok {
        signer := j.target;
      }
      ProceedOrRaise(ok, Release(j.(rotation := Activated(j.rotation))), Some(j.rotation));
      KeepsValid(w, k, how);
    }

    method ReleaseSigning(j: Job, how: Choice) returns (ok: bool)
      requires how.Hook? && pc == Release(j)
      modifies this`paused, this`known, this`pc
      ensures View() == Step(old(View()), how) && pc == if ok then PersistCompleted(j) else Idle
      ensures (old(Valid()) ==> Valid()) && (old(Secure()) ==> Secure())
    {
      hide Inv, Guarded;
      ghost var w := View();
      if how.landed || !how.raises {
        paused := false;
      }
      ok := !how.raises;
      ProceedOrRaise(ok, PersistCompleted(j), Some(j.rotation));
      KeepsValid(w, k, how);
    }

    method PersistCompletion(j: Job, how: Choice)
      requires how.Hook? && pc == PersistCompleted(j)
      modifies this`saved, this`known, this`pc
      ensures View() == Step(old(View()), how) && pc.Idle?
      ensures (old(Valid()) ==> Valid()) && (old(Secure()) ==> Secure())
    {
      hide Inv, Guarded;
      ghost var w := View();
      var ok := PersistRotation(Completed(j.rotation), how);
      ProceedOrRaise(ok, Idle, Some(j.rotation));
      KeepsValid(w, k, how);
    }

    // ---- The methods of the source ----

    method ReconcileRotationKeys(j: Job, e: Environment) returns (ok: bool)
      requires e.Valid() && pc == ActivateNew(j)
      modifies this`providers, this`known, this`pc
      ensures View() == Run(old(View()), e.ReconcileScript())
      ensures pc == if ok then PersistActivated(j) else Idle
    {
      hide Step, Run;
      RunFirst(View(), e.activate, [e.supersede]);
      ok := ActivateNewKey(j, e.activate);
      RunFirst(View(), e.supersede, []);
      if ok {
        ok := SupersedeOldKey(j, e.supersede);
      } else {
        NothingLeft(View(), [e.supersede]);
      }
    }

    /** What an accepted rotation and an activated resume end with. */
    method ReleaseAndComplete(j: Job, e: Environment)
      requires e.Valid() && pc == Release(j)
      modifies this`saved, this`paused, this`known, this`pc
      ensures View() == Run(old(View()), e.ReleaseScript()) && pc.Idle?
      ensures (old(Valid()) ==> Valid()) && (old(Secure()) ==> Secure())
    {
      hide Inv, Guarded, Step, Run;
      ghost var w := View();
      RunFirst(View(), e.release, [e.persistCompleted]);
      var ok := ReleaseSigning(j, e.release);
      RunFirst(View(), e.persistCompleted, []);
      if ok {
        PersistCompletion(j, e.persistCompleted);
      } else {
        NothingLeft(View(), [e.persistCompleted]);
      }
      KeepsValidRun(w, k, e.ReleaseScript(), e);
    }

    method FinishAcceptedRotation(j: Job, e: Environment)
      requires e.Valid() && pc == Publication(j)
      modifies this`providers, this`saved, this`paused, this`known, this`pc, this`signer
      ensures View() == Run(old(View()), e.FinishScript()) && pc.Idle?
      ensures (old(Valid()) ==> Valid()) && (old(Secure()) ==> Secure())
    {
      hide Inv, Guarded, Step, Run;
      ghost var w := View();
      ghost var afterKeys := [e.persistActivated] + e.ReleaseScript();
      RunFirst(View(), if e.published then Confirm else Refuse, e.ReconcileScript() + afterKeys);
      RotationPublication(j, e.published);
      if !e.published {
        NothingLeft(View(), e.ReconcileScript() + afterKeys);
        KeepsValidRun(w, k, e.FinishScript(), e);
        return;
      }
      RunAppends(View(), e.ReconcileScript(), afterKeys);
      var ok := ReconcileRotationKeys(j, e);
      if !ok {
        NothingLeft(View(), afterKeys);
        KeepsValidRun(w, k, e.FinishScript(), e);
        return;
      }
      RunFirst(View(), e.persistActivated, e.ReleaseScript());
      ok := PersistActivation(j, e.persistActivated);
      if !ok {
        NothingLeft(View(), e.ReleaseScript());
        KeepsValidRun(w, k, e.FinishScript(), e);
        return;
      }
      ReleaseAndComplete(j.(rotation := Activated(j.rotation)), e);
      KeepsValidRun(w, k, e.FinishScript(), e);
    }

    method SubmitRotation(j: Job, e: Environment)
      requires e.Valid() && pc == Submit(j)
      modifies this
      ensures View() == Run(old(View()), e.SubmitScript()) && pc.Idle?
      ensures (old(Valid()) ==> Valid()) && (old(Secure()) ==> Secure())
    {
      hide Inv, Guarded, Step, Run, MidInvocation;
      ghost var w := View();
      MidScripts(e, Refuse);
      RunFirst(View(), Respond(e.reply), [e.persistSubmission] + e.FinishScript());
      var candidate := CallRegistry(j, e.reply);
      if candidate.None? {
        NothingLeft(View(), [e.persistSubmission] + e.FinishScript());
        KeepsValidRun(w, k, e.SubmitScript(), e);
        return;
      }
      RunFirst(View(), e.persistSubmission, e.FinishScript());
      var accepted := PersistReply(candidate.value, e.reply.TransientError?, e.persistSubmission);
      if accepted {
        FinishAcceptedRotation(candidate.value, e);
      } else {
        NothingLeft(View(), e.FinishScript());
      }
      KeepsValidRun(w, k, e.SubmitScript(), e);
    }

    /** What a new rotation and a resume both do before anything else: persist the state about to be
        worked on, then pause signing. */
    method PersistThenPause(j: Job, e: Environment)
      requires e.Valid() && pc == PersistBefore(j)
      modifies this
      ensures View() == Run(old(View()), e.ResumeScript()) && pc.Idle?
      ensures (old(Valid()) ==> Valid()) && (old(Secure()) ==> Secure())
    {
      hide Inv, Guarded, Step, Run, MidInvocation;
      ghost var w := View();
      MidScripts(e, Refuse);
      RunFirst(View(), e.persistBefore, [e.pause] + e.SubmitScript());
      var ok := PersistOpening(j, e.persistBefore);
      if !ok {
        NothingLeft(View(), [e.pause] + e.SubmitScript());
        KeepsValidRun(w, k, e.ResumeScript(), e);
        return;
      }
      RunFirst(View(), e.pause, e.SubmitScript());
      ok := PauseSigning(j, e.pause);
      if !ok {
        NothingLeft(View(), e.SubmitScript());
      } else if IsAccepted(j.rotation) {
        NotSubmittedAgain(View(), e);
        FinishAcceptedRotation(j, e);
      } else {
        SubmitRotation(j, e);
      }
      KeepsValidRun(w, k, e.ResumeScript(), e);
    }

    /** `resume_key_rotation`. */
    method ResumeKeyRotation(c: Choice, e: Environment)
      requires e.Valid() && pc.Idle? && c.BeginResume?
      modifies this
      ensures View() == Run(old(View()), [c] + if c.given.activated then e.ReleaseScript() else e.ResumeScript())
              && pc.Idle?
      ensures old(Valid()) && Own(old(View()), c) ==> Valid()
      ensures old(Secure()) && Admissible(old(View()), c) ==> Secure() && SignsOnlyActivated()
      ensures forall index: nat | old(Valid()) && Completes(old(View()), k, c) && e.Smooth(c.given, index) ::
              Done(View(), k)
    {
      hide Step, Run, Inv, Guarded, Own, Misfit, Done, Completes, MidInvocation, IsActive;
      MidScripts(e, Refuse);
      ghost var w := View();
      ghost var script := if c.given.activated then e.ReleaseScript() else e.ResumeScript();
      RunFirst(View(), c, script);
      var job := BeginResuming(c);
      if job.None? {
        NothingLeft(View(), script);
      } else if c.given.activated {
        ReleaseAndComplete(job.value, e);
      } else {
        PersistThenPause(job.value, e);
      }
      ResumedCall(w, k, c, e);
    }

    /** What the safety theorems promise at every return. */
    ghost predicate SignsOnlyActivated()
      reads this
    {
      sent != [] && !paused ==>
        && saved.Some? && saved.value.activated && IsAccepted(saved.value)
        && IsActive(Target(providers), saved.value.newKid, saved.value.newThumbprint)
    }

    /** The validations of `resume_key_rotation`; answers the work there is to do, if any. */
    method BeginResuming(c: Choice) returns (job: Option<Job>)
      requires pc.Idle? && c.BeginResume?
      modifies this`known, this`pc, this`signer
      ensures View() == Step(old(View()), c)
      ensures if job.None? then pc.Idle?
              else pc == if c.given.activated then Release(job.value) else PersistBefore(job.value)
    {
      hide ValidPersisted, ValidateKeys, ResolveProviders;
      var r := c.given;
      if !ValidPersisted(setting.identity, r) {
        ProceedOrRaise(false, Idle, None);
        return None;
      }
      var handles := ResolveProviders(r, signer, c.previous, c.target, c.previousRef, c.targetRef);
      if handles.None? {
        ProceedOrRaise(false, Idle, None);
        return None;
      }
      var (p, t) := handles.value;
      var active := ValidateKeys(r, Store(providers, p), Store(providers, t), p == t);
      if active.None?
          || (if r.activated then !IsActive(Store(providers, t), r.newKid, r.newThumbprint) else IsRejected(r)) {
        ProceedOrRaise(false, Idle, None);
        return None;
      }
      if r.activated {
        signer := t;
      }
      job := if r.activated && !r.signingPaused then None else Some(Job(r, p, t));
      if job.Some? {
        pc := if r.activated then Release(job.value) else PersistBefore(job.value);
      }
    }

    /** `rotate_operational_key`: generate, prepare and sign, then on as a resume would. */
    method RotateOperationalKey(c: Choice, prepared: Option<Entry>, e: Environment)
      requires e.Valid() && pc.Idle? && c.BeginRotate?
      modifies this
      ensures View() ==
              Run(old(View()), [c] + ([if prepared.Some? then Prepared(prepared.value) else Refuse] + e.ResumeScript()))
      ensures pc.Idle?
      ensures old(Valid()) && old(saved).None? ==> Secure() && SignsOnlyActivated()
      ensures if prepared.Some? && Prepares(old(View()), c, prepared.value) && Lands(e.persistBefore)
              then saved.Some? && NewKey(saved.value) == c.key
              else saved == old(saved) && paused == old(paused) && sent == old(sent)
      ensures forall entry, index: nat | prepared == Some(entry) && old(Init(View(), k))
              && Starts(old(View()), k, c, entry) &&
                e.Smooth(Preparing(old(View()), c, entry), index) :: Done(View(), k)
    {
      hide Step, Run, MidInvocation, Inv, Guarded, Done, Init, Prepares, Starts, Preparing;
      ghost var w := View();
      ghost var answer := if prepared.Some? then Prepared(prepared.value) else Refuse;
      ghost var script := e.ResumeScript();
      MidScripts(e, answer);
      RunFirst(View(), c, [answer] + script);
      var keys := GeneratePending(c);
      if keys.None? {
        NothingLeft(View(), [answer] + script);
        RotatedCall(w, k, c, prepared, e);
        RotatedIsDurable(w, c, prepared, e);
        return;
      }
      RunFirst(View(), answer, script);
      var job := PrepareAndSign(keys.value.0, keys.value.1, c.idempotencyKey, prepared);
      if job.None? {
        NothingLeft(View(), script);
      } else {
        PersistThenPause(job.value, e);
      }
      RotatedCall(w, k, c, prepared, e);
      RotatedIsDurable(w, c, prepared, e);
    }

    method GeneratePending(c: Choice) returns (keys: Option<(Key, Key)>)
      requires pc.Idle? && c.BeginRotate?
      modifies this`providers, this`known, this`pc
      ensures View() == Step(old(View()), c)
      ensures pc == if keys.None? then Idle else Prepare(keys.value.0, keys.value.1, c.idempotencyKey)
    {
      hide ValidIdempotencyKey, StoreKids;
      keys := None;
      var target := Store(providers, providers.target);
      if !signer.Src? || c.key.kid != c.key.thumbprint || c.key.kid == ""
         || c.key.kid in StoreKids(providers.src) + StoreKids(providers.dst) {
        return;
      }
      if !ValidIdempotencyKey(c.idempotencyKey) || providers.src.active.None? || providers.src.active.value.kid == ""
         || !ReferencesAgree(providers.target, setting.previousRef, setting.targetRef) || target.active.None? {
        ProceedOrRaise(false, Idle, None);
        return;
      }
      var previousKey := providers.src.active.value;
      var selected := if c.algorithm.Some? then c.algorithm.value else previousKey.alg;
      if target.active.value.alg != selected {
        ProceedOrRaise(false, Idle, None);
        return;
      }
      var ok := MutateProvider(providers.target, Generate(c.key), Hook(c.landed, c.raises));
      if !ok || c.key.alg != selected || c.key.thumbprint == previousKey.thumbprint {
        ProceedOrRaise(false, Idle, None);
        return;
      }
      pc := Prepare(previousKey, c.key, c.idempotencyKey);
      keys := Some((previousKey, c.key));
    }

    method PrepareAndSign(previous: Key, next: Key, idempotencyKey: string,
        prepared: Option<Entry>) returns (job: Option<Job>)
      requires pc == Prepare(previous, next, idempotencyKey)
      modifies this`known, this`pc
      ensures View() == Step(old(View()), if prepared.Some? then Prepared(prepared.value) else Refuse)
      ensures pc == if job.None? then Idle else PersistBefore(job.value)
      ensures (old(Valid()) ==> Valid()) && (old(Secure()) ==> Secure())
    {
      hide Inv, Guarded, CanSignWith;
      ghost var w := View();
      job := None;
      if prepared.Some? {
        var e := prepared.value;
        if Parses(e, setting.identity.logReference, setting.identity.domain)
           && e.previousKid == previous.kid && e.previousThumbprint == previous.thumbprint
           && CanSignWith(providers.src, previous.kid)
           && e.newKey == next && e.newKid == next.kid && e.newThumbprint == next.thumbprint
           && CanSignWith(Store(providers, providers.target), next.kid) {
          job := Some(Job(
            Rotation(previous.kid, next.kid, e, setting.identity.domain, setting.identity.logReference,
                     previous.thumbprint, next.thumbprint, Some(previous), Some(Sha256(e)),
                     idempotencyKey, None, false, true, setting.previousRef, setting.targetRef),
            Src, providers.target));
        }
      }
      if job.Some? {
        pc := PersistBefore(job.value);
      } else {
        ProceedOrRaise(false, Idle, None);
      }
      KeepsValid(w, k, if prepared.Some? then Prepared(prepared.value) else Refuse);
    }
  }

  /** With an accepted rotation the registry is not called again. */
  lemma NotSubmittedAgain(w: World, e: Environment)
    requires w.pc.Publication? && e.Valid()
    ensures Run(w, e.SubmitScript()) == Run(w, e.FinishScript())
  {
    hide Run;
    RunFirst(w, Respond(e.reply), [e.persistSubmission] + e.FinishScript());
    RunFirst(w, e.persistSubmission, e.FinishScript());
  }

  // ---- What the calls come to ----

  lemma SignsWhenGuarded(v: World, k: Key)
    requires Inv(v, k) && Guarded(v, k)
    ensures v.sent != [] && !v.paused ==>
              && v.saved.Some? && v.saved.value.activated && IsAccepted(v.saved.value)
              && IsActive(Target(v.providers), v.saved.value.newKid, v.saved.value.newThumbprint)
  {
    hide Inv, Guarded;
    ReleaseNeedsActivation(v, k);
  }

  /** Choices that begin nothing are admissible wherever they are made. */
  lemma {:induction false} MidRunKeepsInv(w: World, k: Key, choices: seq<Choice>)
    requires Inv(w, k) && MidInvocation(choices)
    ensures Inv(Run(w, choices), k) && (Guarded(w, k) ==> Guarded(Run(w, choices), k))
    decreases |choices|
  {
    hide Inv, Guarded, Step, Misfit;
    if choices != [] {
      assert choices[0] in choices;
      KeepsValid(w, k, choices[0]);
      assert MidInvocation(choices[1..]);
      MidRunKeepsInv(Step(w, choices[0]), k, choices[1..]);
    }
  }

  /** This call resumes the rotation to its end, if nothing interrupts it. */
  ghost predicate Completes(w: World, k: Key, c: Choice)
    requires c.BeginResume?
  {
    && c.given in w.known && !IsRejected(c.given) && Resolves(w, c)
    && (w.saved.Some? ==> Core(c.given) == Core(w.saved.value)) && Passes(w.providers, k, c.given)
    && (c.given.signingPaused || w.saved == Some(c.given))
  }

  lemma ResumedCall(w: World, k: Key, c: Choice, e: Environment)
    requires e.Valid() && w.pc.Idle? && c.BeginResume?
    ensures var v := Run(w, [c] + if c.given.activated then e.ReleaseScript() else e.ResumeScript());
            && (Inv(w, k) && Own(w, c) ==> Inv(v, k))
            && (Inv(w, k) && Guarded(w, k) && Admissible(w, c) ==>
                  && Guarded(v, k)
                  && (v.sent != [] && !v.paused ==>
                        && v.saved.Some? && v.saved.value.activated && IsAccepted(v.saved.value)
                        && IsActive(Target(v.providers), v.saved.value.newKid, v.saved.value.newThumbprint)))
            && forall index: nat | Inv(w, k) && Completes(w, k, c) && e.Smooth(c.given, index) :: Done(v, k)
  {
    hide Step, Run, Inv, Guarded, Own, Done, IsActive, Misfit, Completes, MidInvocation;
    var script := if c.given.activated then e.ReleaseScript() else e.ResumeScript();
    RunFirst(w, c, script);
    MidScripts(e, Refuse);
    if Inv(w, k) && Own(w, c) {
      StepKeepsInv(w, k, c);
      if Guarded(w, k) && Admissible(w, c) {
        StepKeepsGuard(w, k, c);
      }
      MidRunKeepsInv(Step(w, c), k, script);
      if Guarded(w, k) && Admissible(w, c) {
        SignsWhenGuarded(Run(w, [c] + script), k);
      }
    }
    forall index: nat | Inv(w, k) && Completes(w, k, c) && e.Smooth(c.given, index)
      ensures Done(Run(w, [c] + script), k)
    {
      SmoothResume(w, k, c, e, index);
    }
  }

  lemma SmoothResume(w: World, k: Key, c: Choice, e: Environment, index: nat)
    requires e.Valid() && w.pc.Idle? && c.BeginResume? && Inv(w, k) && Completes(w, k, c)
        && e.Smooth(c.given, index)
    ensures var script := if c.given.activated then e.ReleaseScript() else e.ResumeScript();
            Done(Run(w, [c] + script), k)
  {
    hide Run, Inv, Done, HookStep, ResumeStep, RotateStep, SubmitStep, PrepareStep, ResolveProviders, ValidateKeys,
         Passes, MidInvocation;
    var script := if c.given.activated then e.ReleaseScript() else e.ResumeScript();
    RunFirst(w, c, script);
    ResumeProceeds(w, k, c);
    StepKeepsInv(w, k, c);
    var u := Step(w, c);
    if !c.given.activated {
      ResumeScriptCompletes(u, k, e, index);
    } else if c.given.signingPaused {
      ReleaseScriptCompletes(u, k, e);
    } else {
      CompletedIsDone(w, k);
      MidScripts(e, Refuse);
      NothingLeft(u, script);
    }
  }

  lemma ReleaseScriptCompletes(w: World, k: Key, e: Environment)
    requires Inv(w, k) && w.pc.Release? && e.release == e.persistCompleted == Hook(true, false)
    ensures Done(Run(w, e.ReleaseScript()), k)
  {
    hide Run, Inv, Done, ActivateStep, SupersedeStep;
    RunFirst(w, e.release, [e.persistCompleted]);
    StepKeepsInv(w, k, e.release);
    var u := Step(w, e.release);
    RunFirst(u, e.persistCompleted, []);
    CompletionIsDone(u, k);
    StepKeepsInv(u, k, e.persistCompleted);
    assert u.pc == PersistCompleted(w.pc.job);
    CompletedStep(u, k);
  }

  lemma CompletedStep(u: World, k: Key)
    requires Inv(u, k) && u.pc.PersistCompleted?
    ensures Done(Step(u, Hook(true, false)), k)
  {
    hide Inv, Done, ActivateStep, SupersedeStep, Reconciled;
    CompletionIsDone(u, k);
    DoneIgnoresKnown(u.(pc := Idle, saved := Some(Completed(u.pc.job.rotation))), Step(u, Hook(true, false)), k);
  }

  lemma DoneIgnoresKnown(v: World, u: World, k: Key)
    requires Done(v, k) && u == v.(known := u.known)
    ensures Done(u, k)
  {
  }

  lemma FinishScriptCompletes(w: World, k: Key, e: Environment, r: Rotation, index: nat)
    requires Inv(w, k) && w.pc.Publication? && e.Smooth(r, index)
    ensures Done(Run(w, e.FinishScript()), k)
  {
    hide Run, Inv, Done, ActivateStep, SupersedeStep, RotateStep, ResumeStep, SubmitStep, PrepareStep;
    var h := Hook(true, false);
    var afterKeys := [h] + e.ReleaseScript();
    assert e.ReconcileScript() == [h] + [h];
    RunFirst(w, Confirm, ([h] + [h]) + afterKeys);
    StepKeepsInv(w, k, Confirm);
    var u := Step(w, Confirm);
    assert ([h] + [h]) + afterKeys == [h] + ([h] + afterKeys);
    RunFirst(u, h, [h] + afterKeys);
    SmoothActivation(u, k, index);
    StepKeepsInv(u, k, h);
    var u1 := Step(u, h);
    RunFirst(u1, h, afterKeys);
    SmoothSupersede(u1, k, index);
    StepKeepsInv(u1, k, h);
    var u2 := Step(u1, h);
    RunFirst(u2, h, e.ReleaseScript());
    StepKeepsInv(u2, k, h);
    ReleaseScriptCompletes(Step(u2, h), k, e);
  }

  lemma SubmitScriptCompletes(w: World, k: Key, e: Environment, index: nat)
    requires Inv(w, k) && w.pc.Submit? && e.Smooth(w.pc.job.rotation, index)
    ensures Done(Run(w, e.SubmitScript()), k)
  {
    hide Run, Inv, Done, ActivateStep, SupersedeStep, RotateStep, ResumeStep, PrepareStep, SubmitStep;
    RunFirst(w, Respond(e.reply), [e.persistSubmission] + e.FinishScript());
    SmoothSubmission(w, k, index);
    StepKeepsInv(w, k, Respond(e.reply));
    var u := Step(w, Respond(e.reply));
    RunFirst(u, e.persistSubmission, e.FinishScript());
    StepKeepsInv(u, k, e.persistSubmission);
    FinishScriptCompletes(Step(u, e.persistSubmission), k, e, w.pc.job.rotation, index);
  }

  lemma ResumeScriptCompletes(w: World, k: Key, e: Environment, index: nat)
    requires e.Valid() && Inv(w, k) && w.pc.PersistBefore? && e.Smooth(w.pc.job.rotation, index)
    ensures Done(Run(w, e.ResumeScript()), k)
  {
    hide Run, Inv, Done, ActivateStep, SupersedeStep, RotateStep, ResumeStep, PrepareStep, SubmitStep;
    RunFirst(w, e.persistBefore, [e.pause] + e.SubmitScript());
    StepKeepsInv(w, k, e.persistBefore);
    var u := Step(w, e.persistBefore);
    RunFirst(u, e.pause, e.SubmitScript());
    StepKeepsInv(u, k, e.pause);
    var u1 := Step(u, e.pause);
    if IsAccepted(w.pc.job.rotation) {
      NotSubmittedAgain(u1, e);
      FinishScriptCompletes(u1, k, e, w.pc.job.rotation, index);
    } else {
      SubmitScriptCompletes(u1, k, e, index);
    }
  }

  /** This call begins a rotation that can go through. */
  ghost predicate Starts(w: World, k: Key, c: Choice, entry: Entry)
    requires c.BeginRotate?
  {
    CanRotate(w, k, c.key, c.idempotencyKey, entry) && c == BeginRotate(None, c.key, c.idempotencyKey, true, false)
  }

  /** The first recovery state of such a call. */
  ghost function Preparing(w: World, c: Choice, entry: Entry): Rotation
    requires c.BeginRotate?
  {
    var u := Step(Step(w, c), Prepared(entry));
    if u.pc.PersistBefore? then u.pc.job.rotation
    else Rotation("", "", entry, "", "", "", "", None, None, "", None, false, true, "", "")
  }

  lemma RotatedCall(w: World, k: Key, c: Choice, prepared: Option<Entry>, e: Environment)
    requires e.Valid() && w.pc.Idle? && c.BeginRotate?
    ensures var v := Run(w, [c] + ([if prepared.Some? then Prepared(prepared.value) else Refuse] + e.ResumeScript()));
            && (Inv(w, k) && w.saved.None? ==>
                  && Inv(v, k) && Guarded(v, k)
                  && (v.sent != [] && !v.paused ==>
                        && v.saved.Some? && v.saved.value.activated && IsAccepted(v.saved.value)
                        && IsActive(Target(v.providers), v.saved.value.newKid, v.saved.value.newThumbprint)))
            && forall entry, index: nat | prepared == Some(entry) && Init(w, k) && Starts(w, k, c, entry) &&
                 e.Smooth(Preparing(w, c, entry), index) :: Done(v, k)
  {
    hide Step, Run, Inv, Guarded, Done, IsActive, Misfit, Init, CanRotate, MidInvocation;
    var answer := if prepared.Some? then Prepared(prepared.value) else Refuse;
    RunFirst(w, c, [answer] + e.ResumeScript());
    MidScripts(e, answer);
    if Inv(w, k) && w.saved.None? {
      NothingDurableIsGuarded(w, k);
      StepKeepsInv(w, k, c);
      StepKeepsGuard(w, k, c);
      MidRunKeepsInv(Step(w, c), k, [answer] + e.ResumeScript());
      SignsWhenGuarded(Run(Step(w, c), [answer] + e.ResumeScript()), k);
    }
    forall entry, index: nat | prepared == Some(entry) && Init(w, k) && Starts(w, k, c, entry)
        && e.Smooth(Preparing(w, c, entry), index)
      ensures Done(Run(Step(w, c), [answer] + e.ResumeScript()), k)
    {
      InitInv(w, k);
      InitIsIdle(w, k);
      StepKeepsInv(w, k, c);
      RotationBegins(w, k, c.key, c.idempotencyKey, entry);
      RunFirst(Step(w, c), answer, e.ResumeScript());
      StepKeepsInv(Step(w, c), k, answer);
      ResumeScriptCompletes(Step(Step(w, c), answer), k, e, index);
    }
  }

  lemma NothingDurableIsGuarded(w: World, k: Key)
    requires w.saved.None?
    ensures Guarded(w, k)
  {
  }

  // ---- What a call leaves durable ----

  /** The running invocation works on the rotation that is durable. */
  predicate WorksOnSaved(w: World, core: Rotation) {
    && w.saved.Some? && Core(w.saved.value) == core && !w.pc.Prepare?
    && (!w.pc.Idle? ==> Core(w.pc.job.rotation) == core)
  }

  lemma {:induction false} MidRunWorksOnSaved(w: World, core: Rotation, choices: seq<Choice>)
    requires WorksOnSaved(w, core) && MidInvocation(choices)
    ensures WorksOnSaved(Run(w, choices), core)
    decreases |choices|
  {
    hide WorksOnSaved, Step;
    if choices != [] {
      assert choices[0] in choices;
      StepWorksOnSaved(w, core, choices[0]);
      assert MidInvocation(choices[1..]);
      MidRunWorksOnSaved(Step(w, choices[0]), core, choices[1..]);
    }
  }

  lemma StepWorksOnSaved(w: World, core: Rotation, c: Choice)
    requires WorksOnSaved(w, core) && !c.BeginRotate? && !c.BeginResume?
    ensures WorksOnSaved(Step(w, c), core)
  {
    hide ValidSubmission, HookStep;
    if c.Hook? {
      HookWorksOnSaved(w, core, c);
    }
  }

  lemma HookWorksOnSaved(w: World, core: Rotation, c: Choice)
    requires WorksOnSaved(w, core) && c.Hook?
    ensures WorksOnSaved(HookStep(w, c), core)
  {
    hide ActivateStep, SupersedeStep, Core, Activated, Completed, IsAccepted, IsRejected;
    if !w.pc.Idle? && !w.pc.Prepare? {
      FlagsKeepCore(w.pc.job.rotation);
    }
    if w.pc.ActivateNew? || w.pc.SupersedeOld? {
      ReconcilingWorksOnSaved(w, core, c);
    }
  }

  lemma FlagsKeepCore(r: Rotation)
    ensures Core(Activated(r)) == Core(r) && Core(Completed(r)) == Core(r)
  {
  }

  lemma ReconcilingWorksOnSaved(w: World, core: Rotation, c: Choice)
    requires WorksOnSaved(w, core) && c.Hook? && (w.pc.ActivateNew? || w.pc.SupersedeOld?)
    ensures WorksOnSaved(if w.pc.ActivateNew? then ActivateStep(w, c) else SupersedeStep(w, c), core)
  {
    hide ValidateKeys, Jwk, Apply, ListedKids, Store, SetStore, Core;
  }

  /** The new rotation is durable exactly when the call came to its opening persist and that took hold;
      otherwise nothing durable, no pause and no submission changed. */
  lemma RotatedIsDurable(w: World, c: Choice, prepared: Option<Entry>, e: Environment)
    requires e.Valid() && w.pc.Idle? && c.BeginRotate?
    ensures var v := Run(w, [c] + ([if prepared.Some? then Prepared(prepared.value) else Refuse] + e.ResumeScript()));
            if prepared.Some? && Prepares(w, c, prepared.value) && Lands(e.persistBefore)
            then v.saved.Some? && NewKey(v.saved.value) == c.key
            else v.saved == w.saved && v.paused == w.paused && v.sent == w.sent
  {
    hide Step, Run, MidInvocation, Prepares;
    var answer := if prepared.Some? then Prepared(prepared.value) else Refuse;
    RunFirst(w, c, [answer] + e.ResumeScript());
    RunFirst(Step(w, c), answer, e.ResumeScript());
    MidScripts(e, answer);
    var u := Step(Step(w, c), answer);
    BegunOrRefused(w, c, answer);
    if prepared.Some? {
      RotationOpensExactlyWhen(w, c, prepared.value);
    }
    if u.pc.Idle? {
      NothingLeft(u, e.ResumeScript());
    } else {
      RunFirst(u, e.persistBefore, [e.pause] + e.SubmitScript());
      var u1 := Step(u, e.persistBefore);
      OpeningSaves(u, e.persistBefore);
      if Lands(e.persistBefore) {
        MidRunWorksOnSaved(u1, Core(u.pc.job.rotation), [e.pause] + e.SubmitScript());
        SameCoreSameKey(Run(u1, [e.pause] + e.SubmitScript()).saved.value, u.pc.job.rotation);
      } else {
        NothingLeft(u1, [e.pause] + e.SubmitScript());
      }
    }
  }

  lemma SameCoreSameKey(r: Rotation, s: Rotation)
    requires Core(r) == Core(s)
    ensures NewKey(r) == NewKey(s)
  {
    assert NewKey(Core(r)) == NewKey(r) && NewKey(Core(s)) == NewKey(s);
  }

  lemma OpeningSaves(u: World, how: Choice)
    requires u.pc.PersistBefore? && how.Hook?
    ensures var v := Step(u, how);
            && v.paused == u.paused && v.sent == u.sent
            && if Lands(how) then WorksOnSaved(v, Core(u.pc.job.rotation)) else v.pc.Idle? && v.saved == u.saved
  {
    hide ActivateStep, SupersedeStep, Core;
  }

  lemma BegunOrRefused(w: World, c: Choice, answer: Choice)
    requires w.pc.Idle? && c.BeginRotate? && (answer.Prepared? || answer.Refuse?)
    ensures var u := Step(Step(w, c), answer);
            && u.saved == w.saved && u.paused == w.paused && u.sent == w.sent
            && (u.pc.Idle? || (answer.Prepared? && u.pc.PersistBefore? && NewKey(u.pc.job.rotation) == c.key))
  {
    hide CanSignWith, RotateStep, HookStep, ResumeStep, SubmitStep;
    PreparingOrRefused(w, c);
  }

  lemma PreparingOrRefused(w: World, c: Choice)
    requires w.pc.Idle? && c.BeginRotate?
    ensures var u := RotateStep(w, c);
            && u.saved == w.saved && u.paused == w.paused && u.sent == w.sent
            && (u.pc.Idle? || (u.pc.Prepare? && u.pc.newKey == c.key))
  {
    hide StoreKids, ValidIdempotencyKey, ReferencesAgree;
  }

  lemma InitIsIdle(w: World, k: Key)
    requires Init(w, k)
    ensures w.saved.None?
  {
  }
}
