/** What the checks of a rotation let through, said of the values themselves: which registry answers are
    taken, what a durable acceptance carries, and which states a resume may be made to work on. */
module RotationChecks {
  import opened Options
  import opened KeyStores
  import opened Texts
  import opened Rotations
  import opened RotationSafety

  // ---- Registry answers ----

  /** In every run a durable acceptance carries the hash of the very bytes submitted, the new key's id, a log
      index and the reference to that index in the rotation's own log; so does every accepted state the
      application ever saw. */
  lemma AcceptanceCarriesItsProof(w: World, k: Key, choices: seq<Choice>, r: Rotation)
    requires Init(w, k) && OwnRun(w, choices)
    requires var v := Run(w, choices);
             v.saved == Some(r) || r in v.known
    ensures r.submission.Some? && r.submission.value.state == Accepted ==>
              var s := r.submission.value;
              && s.entryHash == Some(Sha256(r.entry)) && s.keyId == r.newKid == r.entry.newKid
              && s.index.Some? && s.index.value >= 0
              && s.logRef == Some(LogRef(r.logReference, s.index.value))
  {
    hide Run, Inv, OwnRun;
    InitInv(w, k);
    RunKeepsInv(w, k, choices);
    KnownIsBound(Run(w, choices), k, r);
  }

  lemma KnownIsBound(v: World, k: Key, r: Rotation)
    requires Inv(v, k) && (v.saved == Some(r) || r in v.known)
    ensures Bound(v.setting, v.providers.target, k, r)
  {
    hide Bound, SavedInv, StoresInv, SentInv, PcInv;
    assert KnownOk(v, k, r);
  }

  /** An answer is refused exactly when its state is unknown, or it carries a hash that is not that of the
      bytes, or a key id that is not the new key's, or it says accepted and lacks the hash, the key id or a log
      index that is not negative, or its log reference is not that index of the rotation's log.  A refused one
      changes nothing durable; any other is persisted as it is. */
  lemma AnswerRefusedExactlyWhen(w: World, k: Key, s: Submission)
    requires Inv(w, k) && w.pc.Submit?
    ensures var r := w.pc.job.rotation;
            var v := Step(w, Respond(Returned(s)));
            && (v.pc.Idle? <==>
                || s.state == Unknown
                || (s.entryHash.Some? && s.entryHash.value != Sha256(r.entry))
                || (s.keyId != "" && s.keyId != r.newKid)
                || (s.state == Accepted &&
                      (|| s.entryHash.None? || s.keyId == "" || s.index.None? || s.index.value < 0
                       || s.logRef.None? || s.logRef.value.log != r.logReference
                       || s.logRef.value.index != s.index.value)))
            && v.sent == w.sent + [Sent(r.domain, r.entry, r.idempotencyKey, w.saved, w.paused)]
            && (v.pc.Idle? ==> v == w.(pc := Idle, sent := v.sent, known := w.known + {r}))
            && (!v.pc.Idle? ==>
                  v == w.(sent := v.sent, pc := PersistSubmission(w.pc.job.(rotation := r.(submission := Some(s))))))
  {
    hide StoresInv, SavedInv, SentInv, KnownInv, ReferencesAgree, ValidIdempotencyKey, Reconciled, StoreKids;
    var r := w.pc.job.rotation;
    assert r.newKid != "" && r.entryHash == Some(Sha256(r.entry));
  }

  /** A terminal error leaves everything durable as it was; any other leaves the submission undecided: pending,
      with the hash of the bytes and no index. */
  lemma ErrorsDecideNothing(w: World, k: Key)
    requires Inv(w, k) && w.pc.Submit?
    ensures var r := w.pc.job.rotation;
            var terminal, transient := Step(w, Respond(TerminalError)), Step(w, Respond(TransientError));
            && terminal.sent == transient.sent
            && terminal.sent == w.sent + [Sent(r.domain, r.entry, r.idempotencyKey, w.saved, w.paused)]
            && terminal == w.(pc := Idle, sent := terminal.sent, known := w.known + {r})
            && transient == w.(sent := transient.sent, pc := PersistIndeterminate(w.pc.job.(rotation :=
                 r.(submission := Some(Submission(Pending, Some(Sha256(r.entry)), None, None, ""))))))
  {
    hide StoresInv, SavedInv, SentInv, KnownInv, ReferencesAgree, ValidIdempotencyKey, Reconciled, StoreKids,
         ValidSubmission;
  }

  // ---- States handed to a resume ----

  /** Whatever state a resume is handed, made up or altered ones included: it goes on only if that state is of
      the local identity, its hash is that of its bytes, the bytes name its domain, log and both keys, the
      saved keys have the saved thumbprints, its acceptance carries its proof, the idempotency key is one, and
      the caller's references are the saved ones.  It then works on exactly that state. */
  lemma AlteredStatesAreRefused(w: World, c: Choice)
    requires w.pc.Idle? && c.BeginResume? && !Step(w, c).pc.Idle?
    ensures var r := c.given;
            && r.domain == w.setting.identity.domain == r.entry.domain != ""
            && r.logReference == w.setting.identity.logReference == r.entry.log != ""
            && r.entryHash == Some(Sha256(r.entry))
            && r.previousKid == r.entry.previousKid != "" && r.newKid == r.entry.newKid != ""
            && r.previousThumbprint == r.entry.previousThumbprint != ""
            && r.newThumbprint == r.entry.newThumbprint == r.entry.newKey.thumbprint != ""
            && r.previousKey.Some? && r.previousKey.value.thumbprint == r.previousThumbprint
            && 1 <= |r.idempotencyKey| && Utf8Length(r.idempotencyKey) <= 200
            && Strip(r.idempotencyKey) == r.idempotencyKey
            && c.previousRef == r.previousRef && c.targetRef == r.newRef
            && (c.previousRef == c.targetRef <==> Step(w, c).pc.job.previous == Step(w, c).pc.job.target)
            && !(r.submission.Some? && r.submission.value.state == Unknown)
            && Step(w, c).pc.job.rotation == r
    ensures var r := c.given;
            r.submission.Some? ==>
              var s := r.submission.value;
              && (s.entryHash.Some? ==> s.entryHash.value == Sha256(r.entry)) && (s.keyId == "" || s.keyId == r.newKid)
              && (s.state == Accepted ==>
                    && s.entryHash.Some? && s.keyId == r.newKid && s.index.Some? && s.index.value >= 0
                    && s.logRef == Some(LogRef(r.logReference, s.index.value)))
  {
    hide ValidateKeys, IsActive, Strip, Utf8Length;
  }

  /** And only on keys that are there: the target holds the new key under its thumbprint; the old key, if the
      source still lists it, has the saved thumbprint. */
  lemma ResumedKeysAreThere(w: World, c: Choice)
    requires w.pc.Idle? && c.BeginResume? && !Step(w, c).pc.Idle?
    requires WellFormed(w.providers.src) && WellFormed(w.providers.dst)
    ensures var r, j := c.given, Step(w, c).pc.job;
            var source, target := Store(w.providers, j.previous), Store(w.providers, j.target);
            && (exists n: Key :: n.kid == r.newKid && n.thumbprint == r.newThumbprint
                  && (target.active == Some(n) || n in target.retained || n in target.pending))
            && (r.previousKid in ListedKids(source) ==>
                  exists o: Key :: o.kid == r.previousKid && o.thumbprint == r.previousThumbprint
                    && (source.active == Some(o) || o in source.retained || o in source.pending))
  {
    hide ValidPersisted, WellFormed, IndexOf, StoreKids;
    var r, j := c.given, Step(w, c).pc.job;
    var source, target := Store(w.providers, j.previous), Store(w.providers, j.target);
    var n := Jwk(target, r.newKid).value;
    JwkFindsEveryKey(target, n);
    if r.previousKid in ListedKids(source) {
      JwkFindsEveryKey(source, Jwk(source, r.previousKid).value);
    }
  }

  // ---- What an invocation leaves with the application ----

  /** However an invocation ends, short of the death of the process, the application has the state it worked on:
      returned, persisted or carried by the error; only the completed state takes the place of the activated one. */
  lemma TheStateIsHandedOut(w: World, c: Choice)
    requires !w.pc.Idle? && !w.pc.Prepare? && Step(w, c).pc.Idle? && !c.Die?
    ensures var r := w.pc.job.rotation;
            r in Step(w, c).known || (w.pc.PersistCompleted? && r.(signingPaused := false) in Step(w, c).known)
  {
    hide ValidSubmission, HookStep;
    if c.Hook? {
      HookHandsOut(w, c);
    }
  }

  lemma HookHandsOut(w: World, c: Choice)
    requires !w.pc.Idle? && !w.pc.Prepare? && c.Hook? && HookStep(w, c).pc.Idle?
    ensures var r := w.pc.job.rotation;
            r in HookStep(w, c).known || (w.pc.PersistCompleted? && r.(signingPaused := false) in HookStep(w, c).known)
  {
    hide ActivateStep, SupersedeStep, IsAccepted, IsRejected;
    if w.pc.ActivateNew? || w.pc.SupersedeOld? {
      ReconcilingHandsOut(w, c);
    }
  }

  lemma ReconcilingHandsOut(w: World, c: Choice)
    requires c.Hook? && (w.pc.ActivateNew? || w.pc.SupersedeOld?)
    ensures var v := if w.pc.ActivateNew? then ActivateStep(w, c) else SupersedeStep(w, c);
            v.pc.Idle? ==> w.pc.job.rotation in v.known
  {
    hide ValidateKeys, Jwk, Apply, ListedKids, Store, SetStore;
  }
}
