/** What every step of a rotation keeps.  `k` is the key that signed when the rotation began.  `Inv` holds
    whatever states of the rotation its resumes are handed; `Guarded`, which the two safety promises need,
    as long as those states fit. */
module RotationSafety {
  import opened Options
  import opened KeyStores
  import opened Rotations

  // ---- The invariant ----

  function NewKey(r: Rotation): Key {
    r.entry.newKey
  }

  function Target(ps: Providers): KeyStore {
    Store(ps, ps.target)
  }

  /** The store that never holds the new key. */
  function Bystander(ps: Providers): KeyStore {
    Store(ps, if ps.target.Src? then Dst else Src)
  }

  /** Nothing reconciled yet: the old key signs, the new one is pending. */
  predicate Untouched(ps: Providers, k: Key, n: Key) {
    ps.src.active == Some(k) && n in Target(ps).pending
  }

  /** Activated, old key still there: retained in the one provider, or active in the other. */
  predicate Overlapping(ps: Providers, k: Key, n: Key) {
    && Target(ps).active == Some(n)
    && (if ps.target.Src? then k in ps.src.retained else ps.src.active == Some(k))
  }

  /** Reconciled: the new key signs and the old one is gone. */
  predicate Reconciled(ps: Providers, k: Key, n: Key) {
    && Target(ps).active == Some(n)
    && k.kid !in StoreKids(ps.src)
    && (ps.target.Dst? ==> ps.src.active == None)
  }

  /** The rotation belongs to this setting: it moves from `k` to its entry's key under the setting's
      identity and provider references, and passes the persisted-state validation. */
  predicate Bound(t: Setting, target: Handle, k: Key, r: Rotation) {
    && ValidPersisted(t.identity, r)
    && r.previousKid == k.kid && r.previousThumbprint == k.thumbprint && r.previousKey == Some(k)
    && NewKey(r).kid == r.newKid && r.newKid != k.kid
    && r.previousRef == t.previousRef && r.newRef == t.targetRef
    && ReferencesAgree(target, t.previousRef, t.targetRef)
    && (!r.activated ==> r.signingPaused)
  }

  /** The three situations the keys of a rotation go through. */
  predicate Situated(ps: Providers, k: Key, n: Key) {
    Untouched(ps, k, n) || Overlapping(ps, k, n) || Reconciled(ps, k, n)
  }

  /** What the validation asks of a state in each situation. */
  predicate Passes(ps: Providers, k: Key, r: Rotation) {
    if Untouched(ps, k, NewKey(r)) then !r.activated
    else IsAccepted(r) || (ps.target.Dst? && Overlapping(ps, k, NewKey(r)))
  }

  /** How far the keys may be, given what is durable: anywhere the validation lets it pass, and reconciled if
      it says activated. */
  predicate KeysMatch(ps: Providers, k: Key, s: Rotation) {
    && NewKey(s).kid !in StoreKids(Bystander(ps))
    && Situated(ps, k, NewKey(s)) && Passes(ps, k, s)
    && (s.activated ==> IsAccepted(s) && Reconciled(ps, k, NewKey(s)))
  }

  /** A state the application saw belongs to the setting, was submitted if it has a submission, and says
      activated only of an accepted one with reconciled keys.  While nothing is durable, or if another
      rotation became durable, it is as it was prepared. */
  predicate KnownOk(w: World, k: Key, r: Rotation) {
    && Bound(w.setting, w.providers.target, k, r)
    && (r.activated ==> IsAccepted(r) && Reconciled(w.providers, k, NewKey(r)))
    && (r.submission.Some? ==> w.sent != [])
    && (w.saved.None? || Core(r) != Core(w.saved.value) ==> r == Core(r))
    && (w.saved.None? ==> Untouched(w.providers, k, NewKey(r)) && NewKey(r).kid !in StoreKids(Bystander(w.providers)))
  }

  predicate KnownInv(w: World, k: Key) {
    && (w.saved.Some? ==> w.saved.value in w.known)
    && forall r | r in w.known :: KnownOk(w, k, r)
  }

  /** What the invocation at this program point knows. */
  predicate PcInv(w: World, k: Key) {
    match w.pc
    case Idle => true
    case Prepare(p, n, key) =>
      && w.saved.None? && p == k && w.providers.src.active == Some(k) && n in Target(w.providers).pending
      && n.kid == n.thumbprint != "" && n.kid != k.kid && ValidIdempotencyKey(key)
      && ReferencesAgree(w.providers.target, w.setting.previousRef, w.setting.targetRef)
      && n.kid !in StoreKids(Bystander(w.providers))
    case _ => PcKnows(w, k, w.pc.job)
  }

  predicate PcKnows(w: World, k: Key, j: Job)
    requires !w.pc.Idle? && !w.pc.Prepare?
  {
    && j.previous == Src && j.target == w.providers.target && KnownOk(w, k, j.rotation)
    && if w.pc.PersistBefore? then MayPersist(w, k, j.rotation)
       else w.saved.Some? && Core(j.rotation) == Core(w.saved.value) && PastPersist(w, k, w.saved.value, j.rotation)
  }

  /** The opening persist may write this state: it is of the durable rotation, and its keys let it pass. */
  predicate MayPersist(w: World, k: Key, r: Rotation) {
    && !r.activated && !IsRejected(r)
    && (w.saved.Some? ==> Core(r) == Core(w.saved.value) && Passes(w.providers, k, r))
  }

  predicate PastPersist(w: World, k: Key, s: Rotation, r: Rotation) {
    match w.pc
    case Pause(_) => s == r && !r.activated && !IsRejected(r)
    case Submit(_) => s == r && w.paused && !r.activated && !IsAccepted(r) && !IsRejected(r)
    case PersistIndeterminate(_) => Answered(w, s, r) && !IsAccepted(r) && !IsRejected(r)
    case PersistSubmission(_) => Answered(w, s, r)
    case Publication(_) => s == r && w.paused && !r.activated && IsAccepted(r)
    case ActivateNew(_) => s == r && w.paused && !r.activated && IsAccepted(r)
    case SupersedeOld(_) => s == r && w.paused && !r.activated && IsAccepted(r) && !Untouched(w.providers, k, NewKey(r))
    case PersistActivated(_) => s == r && w.paused && !r.activated && IsAccepted(r)
          && Reconciled(w.providers, k, NewKey(r))
    case Release(_) => r.activated && r.signingPaused && w.signer == w.providers.target
    case PersistCompleted(_) => r.activated && r.signingPaused && !w.paused && w.signer == w.providers.target
    case _ => true
  }

  predicate Answered(w: World, s: Rotation, r: Rotation) {
    w.paused && !r.activated && r.submission.Some? && !s.activated && !IsAccepted(s) && !IsRejected(s)
  }

  /** This submission carried the durable rotation's domain, bytes and idempotency key, and was made
      under a durable state of the same rotation and an enforced pause. */
  predicate SentFor(e: Sent, s: Rotation) {
    && e.paused && e.saved.Some? && Core(e.saved.value) == Core(s)
    && e.domain == s.domain && e.entry == s.entry && e.idempotencyKey == s.idempotencyKey
  }

  predicate SentInv(sent: seq<Sent>, saved: Option<Rotation>) {
    && (sent != [] ==> saved.Some?)
    && forall i | 0 <= i < |sent| :: SentFor(sent[i], saved.value)
  }

  predicate SavedInv(w: World, k: Key) {
    if w.saved.None? then w.providers.src.active == Some(k)
    else
      && Bound(w.setting, w.providers.target, k, w.saved.value)
      && KeysMatch(w.providers, k, w.saved.value)
      && (!w.saved.value.signingPaused ==> !w.paused)
  }

  predicate StoresInv(ps: Providers, k: Key) {
    WellFormed(ps.src) && WellFormed(ps.dst) && k.kid != "" && k.thumbprint != ""
  }

  predicate SettingInv(t: Setting) {
    t.identity.domain != "" && t.identity.logReference != ""
  }

  predicate Inv(w: World, k: Key) {
    StoresInv(w.providers, k) && SettingInv(w.setting) && SavedInv(w, k) && SentInv(w.sent, w.saved)
        && KnownInv(w, k) && PcInv(w, k)
  }

  /** What the safety promises need besides: the new key signs only under durable acceptance, and nothing
      signs unpaused, or is about to, unless durably activated. */
  predicate Guarded(w: World, k: Key) {
    w.saved.Some? ==>
      var s := w.saved.value;
      && (!IsAccepted(s) ==> Untouched(w.providers, k, NewKey(s)))
      && (w.sent != [] && !w.paused ==> s.activated)
      && (w.pc.PersistBefore? ==>
            && (!IsAccepted(w.pc.job.rotation) ==> Untouched(w.providers, k, NewKey(s)))
            && (w.sent != [] ==> w.paused))
      && (w.pc.Release? || w.pc.PersistCompleted? ==> s.activated)
  }

  /** A rotation may start from any two well-formed stores, the first one signing with `k`. */
  predicate Init(w: World, k: Key) {
    && StoresInv(w.providers, k) && SettingInv(w.setting) && w.providers.src.active == Some(k)
    && w.saved.None? && w.known == {} && w.pc.Idle? && w.sent == []
  }

  // ---- What a resume may be handed ----

  /** The handed state does not fit the durable one: it is of another rotation; or it says activated and
      the durable one does not; or it is not accepted though the new key signs already; or it is not
      activated though the durable one is and signing goes on. */
  predicate Misfit(w: World, g: Rotation) {
    w.saved.Some? &&
    var s := w.saved.value;
    || Core(g) != Core(s)
    || (g.activated && !s.activated)
    || (!g.activated && !IsAccepted(g) && IsActive(Target(w.providers), g.newKid, g.newThumbprint))
    || (!g.activated && s.activated && !w.paused)
  }

  /** A new rotation is begun with none durable, and a resume that is not refused was handed a state the
      application saw, of the rotation that is durable. */
  predicate Own(w: World, c: Choice) {
    && (c.BeginRotate? && w.pc.Idle? ==> w.saved.None?)
    && (c.BeginResume? && w.pc.Idle? && !Step(w, c).pc.Idle? ==>
          c.given in w.known && (w.saved.Some? ==> Core(c.given) == Core(w.saved.value)))
  }

  predicate OwnRun(w: World, choices: seq<Choice>)
    decreases |choices|
  {
    choices == [] || (Own(w, choices[0]) && OwnRun(Step(w, choices[0]), choices[1..]))
  }

  /** And that state fits. */
  predicate Admissible(w: World, c: Choice) {
    && Own(w, c)
    && (c.BeginResume? && w.pc.Idle? && !Step(w, c).pc.Idle? ==> !Misfit(w, c.given))
  }

  predicate AdmissibleRun(w: World, choices: seq<Choice>)
    decreases |choices|
  {
    choices == [] || (Admissible(w, choices[0]) && AdmissibleRun(Step(w, choices[0]), choices[1..]))
  }

  lemma InitInv(w: World, k: Key)
    requires Init(w, k)
    ensures Inv(w, k) && Guarded(w, k)
  {
    hide StoresInv;
  }

  lemma {:induction false} AdmissibleIsOwn(w: World, choices: seq<Choice>)
    requires AdmissibleRun(w, choices)
    ensures OwnRun(w, choices)
    decreases |choices|
  {
    hide Step, Own, Misfit;
    if choices != [] {
      AdmissibleIsOwn(Step(w, choices[0]), choices[1..]);
    }
  }

  // ---- Facts about bound rotations ----

  /** Progress flags and a validated submission leave a rotation bound. */
  lemma BoundKept(t: Setting, target: Handle, k: Key, r: Rotation, r': Rotation)
    requires Bound(t, target, k, r) && Core(r') == Core(r)
    requires r'.submission == r.submission || (r'.submission.Some? && ValidSubmission(r, r'.submission.value))
    requires !r'.activated ==> r'.signingPaused
    ensures Bound(t, target, k, r')
  {
  }

  lemma ReconciledIsPast(ps: Providers, k: Key, n: Key)
    ensures Reconciled(ps, k, n) ==> !Untouched(ps, k, n)
  {
  }

  /** On a bound rotation, in each situation its keys go through, validation passes exactly the states that
      may be in it, and answers whether the new key is active.  Across providers it lets any state pass
      while both keys are active. */
  lemma ValidateKeysExactly(t: Setting, ps: Providers, k: Key, r: Rotation)
    requires StoresInv(ps, k) && Bound(t, ps.target, k, r) && Situated(ps, k, NewKey(r))
    requires r.activated ==> IsAccepted(r)
    ensures ValidateKeys(r, ps.src, Target(ps), ps.target.Src?) ==
            if Passes(ps, k, r) then Some(!Untouched(ps, k, NewKey(r))) else None
  {
    hide ValidIdempotencyKey;
    JwkFindsEveryKey(Target(ps), NewKey(r));
    JwkFindsEveryKey(ps.src, k);
  }

  /** The new key's kid is nowhere but in the target, so swapped or foreign providers are refused. */
  lemma WrongProvidersRefused(ps: Providers, k: Key, r: Rotation, p: Handle, t: Handle)
    requires StoresInv(ps, k) && NewKey(r).kid == r.newKid && r.newKid !in StoreKids(Bystander(ps))
    requires ValidateKeys(r, Store(ps, p), Store(ps, t), p == t).Some?
    ensures t == ps.target
  {
  }

  /** Activating the pending new key moves an untouched pair of stores to overlapping. */
  lemma ActivationOverlaps(ps: Providers, k: Key, r: Rotation)
    requires StoresInv(ps, k) && NewKey(r).kid == r.newKid
    requires r.newKid !in StoreKids(Bystander(ps)) && Untouched(ps, k, NewKey(r))
    ensures Apply(Target(ps), Activate(r.newKid)).Ok?
    ensures var ps1 := SetStore(ps, ps.target, Apply(Target(ps), Activate(r.newKid)).value);
            && StoresInv(ps1, k) && r.newKid !in StoreKids(Bystander(ps1))
            && Overlapping(ps1, k, NewKey(r)) && !Untouched(ps1, k, NewKey(r))
  {
    OnlyKeyWithKid(Target(ps).pending, NewKey(r));
    ApplyAccountsForKeys(Target(ps), Activate(r.newKid));
  }

  /** Superseding the old key moves an overlapping pair of stores to reconciled. */
  lemma SupersedeReconciles(ps: Providers, k: Key, r: Rotation)
    requires StoresInv(ps, k) && NewKey(r).kid == r.newKid != k.kid
    requires r.newKid !in StoreKids(Bystander(ps)) && Overlapping(ps, k, NewKey(r))
    ensures k.kid in ListedKids(ps.src) && Jwk(ps.src, k.kid) == Some(k)
    ensures Apply(ps.src, Supersede(k.kid, ps.target.Dst?)).Ok?
    ensures var ps1 := ps.(src := Apply(ps.src, Supersede(k.kid, ps.target.Dst?)).value);
            && StoresInv(ps1, k) && r.newKid !in StoreKids(Bystander(ps1))
            && Reconciled(ps1, k, NewKey(r)) && !Untouched(ps1, k, NewKey(r))
  {
    JwkFindsEveryKey(ps.src, k);
    if ps.target.Src? {
      OnlyKeyWithKid(ps.src.retained, k);
    }
    ApplyAccountsForKeys(ps.src, Supersede(k.kid, ps.target.Dst?));
  }

  /** A reconciled store no longer lists the old key. */
  lemma ReconciledUnlists(ps: Providers, k: Key, r: Rotation)
    requires Reconciled(ps, k, NewKey(r))
    ensures k.kid !in ListedKids(ps.src)
  {
  }

  // ---- Preservation, one program point at a time ----

  lemma GenerationPends(ps: Providers, k: Key, key: Key)
    requires StoresInv(ps, k) && Target(ps).active.Some? && key.kid !in StoreKids(ps.src) + StoreKids(ps.dst)
    ensures Apply(Target(ps), Generate(key)).Ok?
    ensures var ps1 := SetStore(ps, ps.target, Apply(Target(ps), Generate(key)).value);
            && StoresInv(ps1, k) && ps1.src.active == ps.src.active && ps1.target == ps.target
            && key in Target(ps1).pending && key.kid !in StoreKids(Bystander(ps1))
            && Bystander(ps1) == Bystander(ps) && (forall n | n in Target(ps).pending :: n in Target(ps1).pending)
            && (ps.src.active == Some(k) ==> key.kid != k.kid)
  {
    ApplyAccountsForKeys(Target(ps), Generate(key));
  }

  lemma RotateKeepsInv(w: World, k: Key, c: Choice)
    requires Inv(w, k) && w.pc.Idle? && c.BeginRotate? && w.saved.None?
    ensures Inv(RotateStep(w, c), k)
  {
    hide SettingInv, SentInv, StoresInv, StoreKids, Bound, ValidIdempotencyKey, ReferencesAgree, Apply;
    if c.key.kid !in StoreKids(w.providers.src) + StoreKids(w.providers.dst) && Target(w.providers).active.Some? {
      GenerationPends(w.providers, k, c.key);
    }
  }

  lemma PrepareKeepsInv(w: World, k: Key, c: Choice)
    requires Inv(w, k) && w.pc.Prepare? && c.Prepared?
    ensures Inv(PrepareStep(w, c), k)
  {
    hide SentInv, WellFormed, StoreKids, ValidIdempotencyKey, ReferencesAgree, CanSignWith;
  }

  /** Whatever providers a resume is offered, it proceeds only with the source and the target in
      their own parts. */
  lemma ResumeFindsItsProviders(w: World, k: Key, r: Rotation, c: Choice)
    requires c.BeginResume? && StoresInv(w.providers, k)
    requires Bound(w.setting, w.providers.target, k, r) && r.newKid !in StoreKids(Bystander(w.providers))
    ensures var handles := ResolveProviders(r, w.signer, c.previous, c.target, c.previousRef, c.targetRef);
            handles.Some? && ValidateKeys(r, Store(w.providers, handles.value.0), Store(w.providers, handles.value.1),
                                          handles.value.0 == handles.value.1).Some?
            ==> handles == Some((Src, w.providers.target))
  {
    hide ValidPersisted, WellFormed, StoreKids, ValidateKeys;
    var handles := ResolveProviders(r, w.signer, c.previous, c.target, c.previousRef, c.targetRef);
    if handles.Some? && ValidateKeys(r, Store(w.providers, handles.value.0), Store(w.providers, handles.value.1),
                                     handles.value.0 == handles.value.1).Some? {
      WrongProvidersRefused(w.providers, k, r, handles.value.0, handles.value.1);
    }
  }

  /** The providers of this call resolve to the rotation's own, in their own parts. */
  predicate Resolves(w: World, c: Choice)
    requires c.BeginResume?
  {
    ResolveProviders(c.given, w.signer, c.previous, c.target, c.previousRef, c.targetRef) ==
        Some((Src, w.providers.target))
  }

  /** The ways a resume of `r` can begin. */
  predicate Begun(w: World, r: Rotation, w1: World) {
    var job := Job(r, Src, w.providers.target);
    || w1 == w
    || (r.activated && !r.signingPaused && w1 == w.(signer := w.providers.target))
    || (r.activated && r.signingPaused && w1 == w.(signer := w.providers.target, pc := Release(job)))
    || (!r.activated && !IsRejected(r) && w1 == w.(pc := PersistBefore(job)))
  }

  /** The new key of a state of the durable rotation is nowhere but in the target, and its keys are in one
      of the three situations. */
  lemma KnownSituated(w: World, k: Key, r: Rotation)
    requires Inv(w, k) && r in w.known && (w.saved.Some? ==> Core(r) == Core(w.saved.value))
    ensures StoresInv(w.providers, k) && KnownOk(w, k, r) && r.newKid !in StoreKids(Bystander(w.providers))
    ensures Situated(w.providers, k, NewKey(r))
  {
    hide ValidPersisted, WellFormed, StoreKids, ReferencesAgree, PcInv, SentInv;
    assert KnownOk(w, k, r);
    assert NewKey(r) == NewKey(Core(r));
  }

  /** A resume of a state of the durable rotation that is not refused found its own providers, and its state
      passed the validation. */
  lemma ResumeBegins(w: World, k: Key, c: Choice)
    requires Inv(w, k) && w.pc.Idle? && c.BeginResume? && c.given in w.known
    requires w.saved.Some? ==> Core(c.given) == Core(w.saved.value)
    ensures Begun(w, c.given, ResumeStep(w, c))
    ensures ResumeStep(w, c) != w ==> Passes(w.providers, k, c.given)
  {
    hide Inv, Bound, StoresInv, ValidPersisted, ValidateKeys, ResolveProviders, IsActive, Passes, Situated;
    KnownSituated(w, k, c.given);
    ResumeFindsItsProviders(w, k, c.given, c);
    ValidateKeysExactly(w.setting, w.providers, k, c.given);
  }

  lemma ResumeKeepsInv(w: World, k: Key, c: Choice)
    requires Inv(w, k) && w.pc.Idle? && c.BeginResume? && Own(w, c)
    ensures Inv(ResumeStep(w, c), k)
  {
    hide Inv, StoresInv, Bound, ValidPersisted, ResolveProviders, ValidateKeys, StoreKids, Passes, KnownOk;
    if !ResumeStep(w, c).pc.Idle? {
      ResumeBegins(w, k, c);
      BegunInv(w, k, c.given, ResumeStep(w, c));
    } else {
      RefusedInv(w, k, c);
    }
  }

  lemma RefusedInv(w: World, k: Key, c: Choice)
    requires Inv(w, k) && w.pc.Idle? && c.BeginResume? && ResumeStep(w, c).pc.Idle?
    ensures Inv(ResumeStep(w, c), k)
  {
    hide StoresInv, SettingInv, KeysMatch, SentInv, Bound, ValidPersisted, ResolveProviders, ValidateKeys, IsActive,
         Untouched, StoreKids;
  }

  lemma BegunInv(w: World, k: Key, r: Rotation, w1: World)
    requires Inv(w, k) && w.pc.Idle? && r in w.known && Begun(w, r, w1) && Passes(w.providers, k, r)
    requires w.saved.Some? ==> Core(r) == Core(w.saved.value)
    requires !w1.pc.Idle?
    ensures Inv(w1, k)
  {
    hide StoresInv, SettingInv, SentInv, KeysMatch, Bound, Passes, Untouched, Reconciled, StoreKids;
    assert KnownOk(w, k, r);
    assert w.saved.None? ==> !r.activated;
  }

  lemma SubmitKeepsInv(w: World, k: Key, c: Choice)
    requires Inv(w, k) && w.pc.Submit? && c.Respond?
    ensures Inv(SubmitStep(w, c), k)
  {
    hide StoresInv, SettingInv, KnownInv, ValidPersisted, ReferencesAgree, ValidSubmission, Untouched, Overlapping,
         Reconciled, StoreKids;
    var r := w.pc.job.rotation;
    var w1 := SubmitStep(w, c);
    KnownAfterSubmit(w, k, r, w1);
    if !w1.pc.Idle? {
      IndeterminateIsValid(w.setting, w.providers.target, k, r);
      BoundKept(w.setting, w.providers.target, k, r, w1.pc.job.rotation);
    }
  }

  lemma KnownAfterSubmit(w: World, k: Key, r: Rotation, w1: World)
    requires KnownInv(w, k) && KnownOk(w, k, r)
    requires w1.setting == w.setting && w1.providers == w.providers && w1.saved == w.saved && w1.sent != []
    requires w1.known == w.known || w1.known == w.known + {r}
    ensures KnownInv(w1, k)
  {
    hide Bound, Untouched, StoreKids;
  }

  lemma IndeterminateIsValid(t: Setting, target: Handle, k: Key, r: Rotation)
    requires Bound(t, target, k, r)
    ensures ValidSubmission(r, Submission(Pending, r.entryHash, None, None, ""))
  {
  }

  lemma ActivateKeepsInv(w: World, k: Key, c: Choice)
    requires Inv(w, k) && w.pc.ActivateNew? && c.Hook?
    ensures Inv(ActivateStep(w, c), k)
  {
    hide SentInv, ValidPersisted, WellFormed, StoreKids, ValidateKeys, ReferencesAgree, Apply;
    var r := w.pc.job.rotation;
    ValidateKeysExactly(w.setting, w.providers, k, r);
    if Untouched(w.providers, k, NewKey(r)) {
      ActivationOverlaps(w.providers, k, r);
    }
  }

  lemma SupersedeKeepsInv(w: World, k: Key, c: Choice)
    requires Inv(w, k) && w.pc.SupersedeOld? && c.Hook?
    ensures Inv(SupersedeStep(w, c), k)
  {
    hide SentInv, SettingInv, ValidPersisted, WellFormed, StoreKids, ListedKids, ReferencesAgree, Apply, Jwk;
    var r := w.pc.job.rotation;
    if Overlapping(w.providers, k, NewKey(r)) {
      SupersedeReconciles(w.providers, k, r);
    } else {
      ReconciledUnlists(w.providers, k, r);
    }
  }

  /** Giving `r` to the hook, whether its write landed or not, leaves what is known in order; so does an error
      that carries `e`. */
  lemma KnownAfterPersist(w: World, k: Key, r: Rotation, e: Rotation, w1: World)
    requires KnownInv(w, k) && KnownOk(w, k, r) && KnownOk(w, k, e)
    requires Core(e) == Core(r) && (w.saved.Some? ==> Core(r) == Core(w.saved.value))
    requires w1.setting == w.setting && w1.providers == w.providers && w1.sent == w.sent
    requires w1.saved == Some(r) || w1.saved == w.saved
    requires w1.known == w.known + {r} || w1.known == w.known + {r} + {e}
    ensures KnownInv(w1, k) && KnownOk(w1, k, r) && KnownOk(w1, k, e)
  {
    hide Bound, Untouched, StoreKids;
  }

  lemma PersistBeforeKeepsInv(w: World, k: Key, c: Choice)
    requires Inv(w, k) && w.pc.PersistBefore? && c.Hook?
    ensures Inv(HookStep(w, c), k)
  {
    hide StoresInv, SettingInv, KnownInv, Overlapping, Reconciled, ValidPersisted, ReferencesAgree, StoreKids;
    KnownAfterPersist(w, k, w.pc.job.rotation, w.pc.job.rotation, HookStep(w, c));
  }

  lemma PauseKeepsInv(w: World, k: Key, c: Choice)
    requires Inv(w, k) && w.pc.Pause? && c.Hook?
    ensures Inv(HookStep(w, c), k)
  {
    hide StoresInv, SettingInv, SentInv, KeysMatch, Untouched, Reconciled, ValidPersisted, ReferencesAgree;
  }

  lemma PersistIndeterminateKeepsInv(w: World, k: Key, c: Choice)
    requires Inv(w, k) && w.pc.PersistIndeterminate? && c.Hook?
    ensures Inv(HookStep(w, c), k)
  {
    hide StoresInv, SettingInv, KnownInv, Untouched, Overlapping, Reconciled, ValidPersisted, ReferencesAgree,
         StoreKids;
    var r := w.pc.job.rotation;
    assert w.known + {r} + {r} == w.known + {r};
    KnownAfterPersist(w, k, r, r, HookStep(w, c));
  }

  lemma PersistSubmissionKeepsInv(w: World, k: Key, c: Choice)
    requires Inv(w, k) && w.pc.PersistSubmission? && c.Hook?
    ensures Inv(HookStep(w, c), k)
  {
    hide StoresInv, SettingInv, KnownInv, Untouched, Overlapping, Reconciled, ValidPersisted, ReferencesAgree,
         StoreKids;
    var r := w.pc.job.rotation;
    assert w.known + {r} + {r} == w.known + {r};
    KnownAfterPersist(w, k, r, r, HookStep(w, c));
  }

  lemma PersistActivatedKeepsInv(w: World, k: Key, c: Choice)
    requires Inv(w, k) && w.pc.PersistActivated? && c.Hook?
    ensures Inv(HookStep(w, c), k)
  {
    hide StoresInv, SettingInv, KnownInv, Untouched, Overlapping, Reconciled, ValidPersisted, ReferencesAgree,
         StoreKids;
    var r := w.pc.job.rotation;
    BoundKept(w.setting, w.providers.target, k, r, Activated(r));
    ReconciledIsPast(w.providers, k, NewKey(r));
    KnownAfterPersist(w, k, Activated(r), r, HookStep(w, c));
  }

  lemma ReleaseKeepsInv(w: World, k: Key, c: Choice)
    requires Inv(w, k) && w.pc.Release? && c.Hook?
    ensures Inv(HookStep(w, c), k)
  {
    hide StoresInv, SettingInv, SentInv, KeysMatch, Bound, Untouched, StoreKids;
  }

  lemma PersistCompletedKeepsInv(w: World, k: Key, c: Choice)
    requires Inv(w, k) && w.pc.PersistCompleted? && c.Hook?
    ensures Inv(HookStep(w, c), k)
  {
    hide StoresInv, SettingInv, KnownInv, Untouched, Overlapping, Reconciled, ValidPersisted, ReferencesAgree,
         StoreKids;
    var r := w.pc.job.rotation;
    BoundKept(w.setting, w.providers.target, k, r, Completed(r));
    ReconciledIsPast(w.providers, k, NewKey(r));
    KnownAfterPersist(w, k, Completed(r), r, HookStep(w, c));
  }

  lemma HookKeepsInv(w: World, k: Key, c: Choice)
    requires Inv(w, k) && c.Hook?
    ensures Inv(HookStep(w, c), k)
  {
    hide Inv;
    match w.pc
    case PersistBefore(_) => PersistBeforeKeepsInv(w, k, c);
    case Pause(_) => PauseKeepsInv(w, k, c);
    case PersistIndeterminate(_) => PersistIndeterminateKeepsInv(w, k, c);
    case PersistSubmission(_) => PersistSubmissionKeepsInv(w, k, c);
    case ActivateNew(_) => ActivateKeepsInv(w, k, c);
    case SupersedeOld(_) => SupersedeKeepsInv(w, k, c);
    case PersistActivated(_) => PersistActivatedKeepsInv(w, k, c);
    case Release(_) => ReleaseKeepsInv(w, k, c);
    case PersistCompleted(_) => PersistCompletedKeepsInv(w, k, c);
    case _ =>
  }

  /** Every step keeps the invariant, whatever state of the rotation a resume is handed. */
  lemma StepKeepsInv(w: World, k: Key, c: Choice)
    requires Inv(w, k) && Own(w, c)
    ensures Inv(Step(w, c), k)
  {
    hide StoresInv, SettingInv, SentInv, KeysMatch, Bound, HookStep, RotateStep, ResumeStep, PrepareStep, SubmitStep;
    match c
    case BeginRotate(_, _, _, _, _) => if w.pc.Idle? { RotateKeepsInv(w, k, c); }
    case BeginResume(_, _, _, _, _) => if w.pc.Idle? { ResumeKeepsInv(w, k, c); }
    case Prepared(_) => if w.pc.Prepare? { PrepareKeepsInv(w, k, c); }
    case Respond(_) => if w.pc.Submit? { SubmitKeepsInv(w, k, c); }
    case Hook(_, _) => HookKeepsInv(w, k, c);
    case Refuse => RefusalKeepsInv(w, k);
    case _ =>
  }

  lemma RefusalKeepsInv(w: World, k: Key)
    requires Inv(w, k)
    ensures Inv(Step(w, Refuse), k)
  {
    hide StoresInv, SettingInv, SentInv, KeysMatch, Bound, Untouched, StoreKids;
  }

  lemma {:induction false} RunKeepsInv(w: World, k: Key, choices: seq<Choice>)
    requires Inv(w, k) && OwnRun(w, choices)
    ensures Inv(Run(w, choices), k)
    decreases |choices|
  {
    hide Inv, Step, Own;
    if choices != [] {
      StepKeepsInv(w, k, choices[0]);
      RunKeepsInv(Step(w, choices[0]), k, choices[1..]);
    }
  }

  // ---- The guard ----

  /** An admissible step keeps the guard. */
  lemma StepKeepsGuard(w: World, k: Key, c: Choice)
    requires Inv(w, k) && Guarded(w, k) && Admissible(w, c)
    ensures Guarded(Step(w, c), k)
  {
    hide Inv, HookStep, RotateStep, ResumeStep, PrepareStep, SubmitStep, Misfit, Guarded;
    match c
    case BeginRotate(_, _, _, _, _) => if w.pc.Idle? { RotateKeepsGuard(w, k, c); }
    case BeginResume(_, _, _, _, _) => if w.pc.Idle? { ResumeKeepsGuard(w, k, c); }
    case Hook(_, _) => HookKeepsGuard(w, k, c);
    case _ => OthersKeepGuard(w, k, c);
  }

  lemma RotateKeepsGuard(w: World, k: Key, c: Choice)
    requires c.BeginRotate? && w.saved.None?
    ensures Guarded(RotateStep(w, c), k)
  {
    hide StoreKids, ValidIdempotencyKey, ReferencesAgree, Apply;
  }

  lemma ResumeKeepsGuard(w: World, k: Key, c: Choice)
    requires Inv(w, k) && Guarded(w, k) && w.pc.Idle? && c.BeginResume? && Admissible(w, c)
    ensures Guarded(ResumeStep(w, c), k)
  {
    hide Inv, ValidPersisted, ResolveProviders, ValidateKeys, StoreKids, Reconciled, Passes;
    var w1 := ResumeStep(w, c);
    if !w1.pc.Idle? {
      ResumeBegins(w, k, c);
      FittingIsUntouched(w, k, c.given);
    }
  }

  /** A state that fits and is not accepted finds the keys untouched. */
  lemma FittingIsUntouched(w: World, k: Key, g: Rotation)
    requires Inv(w, k) && g in w.known && !Misfit(w, g)
    ensures !IsAccepted(g) ==> Untouched(w.providers, k, NewKey(g))
    ensures w.saved.Some? ==> NewKey(w.saved.value) == NewKey(g)
  {
    hide PcInv, SentInv, StoreKids, ValidSubmission, ValidIdempotencyKey;
    KnownSituated(w, k, g);
    assert w.saved.Some? ==> NewKey(Core(w.saved.value)) == NewKey(w.saved.value) && NewKey(Core(g)) == NewKey(g);
  }

  lemma OthersKeepGuard(w: World, k: Key, c: Choice)
    requires Inv(w, k) && Guarded(w, k) && !c.BeginRotate? && !c.BeginResume? && !c.Hook?
    ensures Guarded(Step(w, c), k)
  {
    hide SavedInv, StoresInv, SentInv, KnownInv, Bound, ValidSubmission, CanSignWith, Untouched, Reconciled;
  }

  lemma HookKeepsGuard(w: World, k: Key, c: Choice)
    requires Inv(w, k) && Guarded(w, k) && c.Hook?
    ensures Guarded(HookStep(w, c), k)
  {
    hide SavedInv, StoresInv, KnownInv, Bound, Untouched, Reconciled, ActivateStep, SupersedeStep, SentFor;
    if w.pc.ActivateNew? || w.pc.SupersedeOld? {
      ReconcilingKeepsSaved(w, c);
    } else if !w.pc.Idle? && !w.pc.Prepare? && w.saved.Some? {
      assert NewKey(Core(w.pc.job.rotation)) == NewKey(w.pc.job.rotation)
          && NewKey(Core(w.saved.value)) == NewKey(w.saved.value);
    }
  }

  lemma ReconcilingKeepsSaved(w: World, c: Choice)
    requires c.Hook? && (w.pc.ActivateNew? || w.pc.SupersedeOld?)
    ensures var v := if w.pc.ActivateNew? then ActivateStep(w, c) else SupersedeStep(w, c);
            && v.saved == w.saved && v.paused == w.paused && v.sent == w.sent
            && (v.pc.Idle? || v.pc.SupersedeOld? || v.pc.PersistActivated?)
  {
    hide ValidateKeys, Jwk, Apply, ListedKids, Store;
  }

  /** Every admissible run keeps both. */
  lemma {:induction false} RunKeepsGuard(w: World, k: Key, choices: seq<Choice>)
    requires Inv(w, k) && Guarded(w, k) && AdmissibleRun(w, choices)
    ensures Inv(Run(w, choices), k) && Guarded(Run(w, choices), k)
    decreases |choices|
  {
    hide Inv, Guarded, Step, Own, Misfit;
    if choices != [] {
      StepKeepsInv(w, k, choices[0]);
      StepKeepsGuard(w, k, choices[0]);
      RunKeepsGuard(Step(w, choices[0]), k, choices[1..]);
    }
  }
}
