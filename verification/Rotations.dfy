/** Managed operational-key rotation (dnsid/manager.py, `rotate_operational_key`,
    `resume_key_rotation` and their helpers) as a step machine.

    A world holds what survives a crash (the last persisted rotation, the key stores, the
    application-signing pause) and what does not (the running invocation, the manager's current
    provider).  It also holds every recovery state the application ever saw, since a resume may be
    handed any of them.  One step is one effect: a hook call, a provider mutation, a registry call, or
    the death of the process.  Every effect that can raise may do so before or after it took hold. */
module Rotations {
  import opened Options
  import opened KeyStores
  import opened Texts

  /** The providers a rotation touches: the one it starts from, and a second one. */
  datatype Handle = Src | Dst

  /** Complete signed entry bytes, by what they parse to.  `body` stands for all that parsing leaves
      unread, so that two entries are the same bytes exactly when they are equal. */
  datatype Entry = Entry(
    log: string, domain: string,
    previousKid: string, previousThumbprint: string,
    newKid: string, newThumbprint: string, newKey: Key,
    body: nat)

  /** SHA-256, taken as injective. */
  datatype Hash = Sha256(entry: Entry)

  datatype LogRef = LogRef(log: string, index: int)

  datatype SubmissionState = Pending | Accepted | Rejected | Unknown

  datatype Submission = Submission(
    state: SubmissionState, entryHash: Option<Hash>, index: Option<int>, logRef: Option<LogRef>, keyId: string)

  /** `KeyRotationResult`: the durable recovery state. */
  datatype Rotation = Rotation(
    previousKid: string, newKid: string, entry: Entry, domain: string, logReference: string,
    previousThumbprint: string, newThumbprint: string, previousKey: Option<Key>, entryHash: Option<Hash>,
    idempotencyKey: string, submission: Option<Submission>, activated: bool, signingPaused: bool,
    previousRef: string, newRef: string)

  /** A rotation together with the provider objects the invocation resolved for it. */
  datatype Job = Job(rotation: Rotation, previous: Handle, target: Handle)

  /** Where the running invocation stands: the next effect it will perform. */
  datatype Pc =
    | Idle
    | Prepare(previousKey: Key, newKey: Key, idempotencyKey: string)
    | PersistBefore(job: Job)
    | Pause(job: Job)
    | Submit(job: Job)
    | PersistIndeterminate(job: Job)
    | PersistSubmission(job: Job)
    | Publication(job: Job)
    | ActivateNew(job: Job)
    | SupersedeOld(job: Job)
    | PersistActivated(job: Job)
    | Release(job: Job)
    | PersistCompleted(job: Job)

  /** One call of `submit_prepared_event`, with the durable state and pause it happened under. */
  datatype Sent = Sent(domain: string, entry: Entry, idempotencyKey: string, saved: Option<Rotation>, paused: bool)

  datatype Identity = Identity(domain: string, logReference: string)

  /** What one rotation is called with: the local identity and the stable provider references. */
  datatype Setting = Setting(identity: Identity, previousRef: string, targetRef: string)

  /** The key stores, and which of the two providers the rotation's target is. */
  datatype Providers = Providers(target: Handle, src: KeyStore, dst: KeyStore)

  /** `known` holds every state given to the persistence hook or carried by an error; what a call
      returns was given to the hook before. */
  datatype World = World(
    setting: Setting, providers: Providers, saved: Option<Rotation>, paused: bool, sent: seq<Sent>,
    pc: Pc, known: set<Rotation>, signer: Handle)

  datatype Reply = TerminalError | TransientError | Returned(submission: Submission)

  /** What the environment decides for one step. */
  datatype Choice =
    | Die(signer: Handle)
    | BeginRotate(algorithm: Option<string>, key: Key, idempotencyKey: string, landed: bool, raises: bool)
    | BeginResume(given: Rotation, previous: Option<Handle>, target: Option<Handle>, previousRef: string,
        targetRef: string)
    | Prepared(entry: Entry)
    | Refuse
    | Confirm
    | Hook(landed: bool, raises: bool)
    | Respond(reply: Reply)

  // ---- Reading a rotation ----

  predicate IsAccepted(r: Rotation) {
    r.submission.Some? && r.submission.value.state == Accepted
  }

  predicate IsRejected(r: Rotation) {
    r.submission.Some? && r.submission.value.state == Rejected
  }

  /** What is fixed once first persisted: everything but the submission and the two progress flags. */
  function Core(r: Rotation): Rotation {
    r.(submission := None, activated := false, signingPaused := true)
  }

  predicate ValidIdempotencyKey(s: string) {
    s != "" && s == Strip(s) && Utf8Length(s) <= 200
  }

  /** `_validate_rotation_submission`. */
  predicate ValidSubmission(r: Rotation, s: Submission) {
    && s.state != Unknown
    && (r.submission.Some? && r.submission.value.entryHash.Some? && s.entryHash.Some?
        ==> r.submission.value.entryHash == s.entryHash)
    && (s.entryHash.Some? ==> s.entryHash == r.entryHash)
    && (s.keyId != "" ==> s.keyId == r.newKid)
    && (s.state == Accepted ==>
          && s.entryHash.Some?
          && s.keyId == r.newKid
          && s.index.Some? && s.index.value >= 0
          && s.logRef == Some(LogRef(r.logReference, s.index.value)))
  }

  /** `parse_prepared_event` against the expected log, domain and previous key. */
  predicate Parses(e: Entry, logReference: string, domain: string) {
    e.log == logReference && e.domain == domain
  }

  /** `_validate_persisted_rotation`. */
  predicate ValidPersisted(identity: Identity, r: Rotation) {
    && r.domain != "" && r.logReference != ""
    && r.previousKid != "" && r.previousThumbprint != ""
    && r.newKid != "" && r.newThumbprint != ""
    && r.previousKey.Some? && r.entryHash.Some?
    && ValidIdempotencyKey(r.idempotencyKey)
    && r.domain == identity.domain
    && r.logReference == identity.logReference
    && r.entryHash == Some(Sha256(r.entry))
    && r.previousKey.value.thumbprint == r.previousThumbprint
    && Parses(r.entry, r.logReference, r.domain)
    && r.entry.previousKid == r.previousKid && r.entry.previousThumbprint == r.previousThumbprint
    && r.entry.newKid == r.newKid && r.entry.newThumbprint == r.newThumbprint
    && r.entry.newKey.thumbprint == r.newThumbprint
    && (r.submission.Some? ==> ValidSubmission(r, r.submission.value))
  }

  // ---- Key validation and reconciliation ----

  /** Whether this is the active key, by kid and thumbprint. */
  predicate IsActive(s: KeyStore, kid: string, thumbprint: string) {
    s.active.Some? && s.active.value.kid == kid && s.active.value.thumbprint == thumbprint
  }

  /** `_validate_rotation_keys`: refused, or whether the new key is already active.  `same` says that
      both arguments are one provider object. */
  function ValidateKeys(r: Rotation, previous: KeyStore, target: KeyStore, same: bool): Option<bool> {
    var newKey := Jwk(target, r.newKid);
    if newKey.None? || newKey.value.kid != r.newKid || newKey.value.thumbprint != r.newThumbprint then None
    else
      var targetIsActive := IsActive(target, r.newKid, r.newThumbprint);
      if r.activated && (!IsAccepted(r) || !targetIsActive) then None
      else if r.previousKid in ListedKids(previous) then
        var oldKey := Jwk(previous, r.previousKid);
        if oldKey.None? || oldKey.value.kid != r.previousKid || oldKey.value.thumbprint != r.previousThumbprint
            then None
        else if previous.active.None? then None
        else if same && IsAccepted(r) && targetIsActive then Some(targetIsActive)
        else if !IsActive(previous, r.previousKid, r.previousThumbprint) then None
        else Some(targetIsActive)
      else if !IsAccepted(r) || !targetIsActive then None
      else if !same && previous.active.Some? then None
      else Some(targetIsActive)
  }

  /** `_rotation_target` up to key validation: which provider objects play the two parts. */
  function ResolveProviders(r: Rotation, signer: Handle, previous: Option<Handle>, target: Option<Handle>,
                            previousRef: string, targetRef: string): Option<(Handle, Handle)> {
    if previousRef != r.previousRef || targetRef != r.newRef then None
    else if previousRef != targetRef && target.None? then None
    else
      var p := if previous.Some? then previous.value else signer;
      var t := if target.Some? then target.value else p;
      if previousRef != targetRef && t == p then None
      else if previousRef == targetRef && t != p then None
      else Some((p, t))
  }

  // ---- Steps ----

  function Store(ps: Providers, h: Handle): KeyStore {
    if h.Src? then ps.src else ps.dst
  }

  function SetStore(ps: Providers, h: Handle, s: KeyStore): Providers {
    if h.Src? then ps.(src := s) else ps.(dst := s)
  }

  /** The invocation raises; the error carries this recovery state, if any. */
  function Fail(w: World, carried: Option<Rotation>): World {
    w.(pc := Idle, known := if carried.Some? then w.known + {carried.value} else w.known)
  }

  predicate Lands(c: Choice)
    requires c.Hook?
  {
    c.landed || !c.raises
  }

  /** Calls the persistence hook with `r`, then continues at `next` or raises carrying `onError`. */
  function Persist(w: World, c: Choice, r: Rotation, next: Pc, onError: Rotation): World
    requires c.Hook?
  {
    var w1 := w.(saved := if Lands(c) then Some(r) else w.saved, known := w.known + {r});
    if c.raises then Fail(w1, Some(onError)) else w1.(pc := next)
  }

  function Mutate(w: World, c: Choice, h: Handle, op: Operation, next: Pc, r: Rotation): World
    requires c.Hook?
  {
    match Apply(Store(w.providers, h), op)
    case ArgumentError => Fail(w, Some(r))
    case Ok(s) =>
      var w1 := if Lands(c) then w.(providers := SetStore(w.providers, h, s)) else w;
      if c.raises then Fail(w1, Some(r)) else w1.(pc := next)
  }

  predicate ReferencesAgree(target: Handle, previousRef: string, targetRef: string) {
    if target.Src? then previousRef == targetRef
    else previousRef != "" && targetRef != "" && previousRef != targetRef
  }

  /** `rotate_operational_key` up to and including `generate_key` and the checks on what it generated.  It
      is called on the source provider; the generated kid is a thumbprint of new random key material. */
  function RotateStep(w: World, c: Choice): World
    requires c.BeginRotate?
  {
    var target := Store(w.providers, w.providers.target);
    if !w.signer.Src? || c.key.kid != c.key.thumbprint || c.key.kid == ""
       || c.key.kid in StoreKids(w.providers.src) + StoreKids(w.providers.dst)
    then w
    else if !ValidIdempotencyKey(c.idempotencyKey) || w.providers.src.active.None?
        || w.providers.src.active.value.kid == ""
            || !ReferencesAgree(w.providers.target, w.setting.previousRef, w.setting.targetRef) || target.active.None?
    then Fail(w, None)
    else
      var previousKey := w.providers.src.active.value;
      var selected := if c.algorithm.Some? then c.algorithm.value else previousKey.alg;
      if target.active.value.alg != selected then Fail(w, None)
      else
        var generated := Apply(target, Generate(c.key)).value;
        var w1 := if c.landed || !c.raises
            then w.(providers := SetStore(w.providers, w.providers.target, generated)) else w;
        if c.raises || c.key.alg != selected || c.key.thumbprint == previousKey.thumbprint then Fail(w1, None)
        else w1.(pc := Prepare(previousKey, c.key, c.idempotencyKey))
  }

  /** The registry's prepared envelope is parsed and signed by both providers; it must name their
      keys.  The result is the state that is persisted first. */
  function PrepareStep(w: World, c: Choice): World
    requires c.Prepared? && w.pc.Prepare?
  {
    var prev, next, e := w.pc.previousKey, w.pc.newKey, c.entry;
    if !Parses(e, w.setting.identity.logReference, w.setting.identity.domain)
       || e.previousKid != prev.kid || e.previousThumbprint != prev.thumbprint
             || !CanSignWith(w.providers.src, prev.kid)
       || e.newKey != next || e.newKid != next.kid || e.newThumbprint != next.thumbprint
       || !CanSignWith(Store(w.providers, w.providers.target), next.kid)
    then Fail(w, None)
    else w.(pc := PersistBefore(Job(
              Rotation(prev.kid, next.kid, e, w.setting.identity.domain, w.setting.identity.logReference,
                       prev.thumbprint, next.thumbprint, Some(prev), Some(Sha256(e)),
                       w.pc.idempotencyKey, None, false, true, w.setting.previousRef, w.setting.targetRef),
              Src, w.providers.target)))
  }

  /** `resume_key_rotation` up to its first effect.  It may be handed any state at all; an error carries the
      one it was handed. */
  function ResumeStep(w: World, c: Choice): World
    requires c.BeginResume?
  {
    var r := c.given;
    if !ValidPersisted(w.setting.identity, r) then Fail(w, None)
    else
      var handles := ResolveProviders(r, w.signer, c.previous, c.target, c.previousRef, c.targetRef);
      if handles.None? then Fail(w, None)
      else
        var (p, t) := handles.value;
        if ValidateKeys(r, Store(w.providers, p), Store(w.providers, t), p == t).None? then Fail(w, None)
        else if r.activated then
          if !IsActive(Store(w.providers, t), r.newKid, r.newThumbprint) then Fail(w, None)
          else if !r.signingPaused then w.(signer := t)
          else w.(signer := t, pc := Release(Job(r, p, t)))
        else if IsRejected(r) then Fail(w, None)
        else w.(pc := PersistBefore(Job(r, p, t)))
  }

  /** `submit_prepared_event` and the checks on what it answers. */
  function SubmitStep(w: World, c: Choice): World
    requires c.Respond? && w.pc.Submit?
  {
    var j := w.pc.job;
    var r := j.rotation;
    var w1 := w.(sent := w.sent + [Sent(r.domain, r.entry, r.idempotencyKey, w.saved, w.paused)]);
    match c.reply
    case TerminalError => Fail(w1, Some(r))
    case TransientError =>
      var s := Submission(Pending, r.entryHash, None, None, "");
      w1.(pc := PersistIndeterminate(j.(rotation := r.(submission := Some(s)))))
    case Returned(s) =>
      if !ValidSubmission(r, s) then Fail(w1, Some(r))
      else w1.(pc := PersistSubmission(j.(rotation := r.(submission := Some(s)))))
  }

  /** After the submission was persisted: rejected raises, pending returns, accepted goes on. */
  function AfterSubmission(j: Job): Pc {
    if IsAccepted(j.rotation) then Publication(j) else Idle
  }

  /** `_reconcile_rotation_keys`, first half. */
  function ActivateStep(w: World, c: Choice): World
    requires c.Hook? && w.pc.ActivateNew?
  {
    var j := w.pc.job;
    match ValidateKeys(j.rotation, Store(w.providers, j.previous), Store(w.providers, j.target), j.previous == j.target)
    case None => Fail(w, Some(j.rotation))
    case Some(true) => w.(pc := SupersedeOld(j))
    case Some(false) => Mutate(w, c, j.target, Activate(j.rotation.newKid), SupersedeOld(j), j.rotation)
  }

  /** `_reconcile_rotation_keys`, second half. */
  function SupersedeStep(w: World, c: Choice): World
    requires c.Hook? && w.pc.SupersedeOld?
  {
    var j := w.pc.job;
    var previous := Store(w.providers, j.previous);
    if j.rotation.previousKid !in ListedKids(previous) then w.(pc := PersistActivated(j))
    else
      var found := Jwk(previous, j.rotation.previousKid);
      if found.None? || found.value.thumbprint != j.rotation.previousThumbprint then Fail(w, Some(j.rotation))
      else Mutate(w, c, j.previous, Supersede(j.rotation.previousKid, j.previous != j.target),
                  PersistActivated(j), j.rotation)
  }

  function Activated(r: Rotation): Rotation {
    r.(activated := true, signingPaused := true)
  }

  function Completed(r: Rotation): Rotation {
    r.(signingPaused := false)
  }

  function HookStep(w: World, c: Choice): World
    requires c.Hook?
  {
    match w.pc
    case PersistBefore(j) => Persist(w, c, j.rotation, Pause(j), j.rotation)
    case Pause(j) =>
      var w1 := if Lands(c) then w.(paused := true) else w;
      if c.raises then Fail(w1, Some(j.rotation))
      else w1.(pc := if IsAccepted(j.rotation) then Publication(j) else Submit(j))
    case PersistIndeterminate(j) => Fail(Persist(w, c, j.rotation, Idle, j.rotation), Some(j.rotation))
    case PersistSubmission(j) =>
      var w1 := Persist(w, c, j.rotation, AfterSubmission(j), j.rotation);
      if IsRejected(j.rotation) then Fail(w1, Some(j.rotation)) else w1
    case ActivateNew(_) => ActivateStep(w, c)
    case SupersedeOld(_) => SupersedeStep(w, c)
    case PersistActivated(j) =>
      var w1 := Persist(w, c, Activated(j.rotation), Release(j.(rotation := Activated(j.rotation))), j.rotation);
      if c.raises then w1 else w1.(signer := j.target)
    case Release(j) =>
      var w1 := if Lands(c) then w.(paused := false) else w;
      if c.raises then Fail(w1, Some(j.rotation)) else w1.(pc := PersistCompleted(j))
    case PersistCompleted(j) => Persist(w, c, Completed(j.rotation), Idle, j.rotation)
    case _ => w
  }

  /** One step.  A choice that does not fit the program point changes nothing. */
  function Step(w: World, c: Choice): World {
    match c
    case Die(signer) => w.(pc := Idle, signer := signer)
    case BeginRotate(_, _, _, _, _) => if w.pc.Idle? then RotateStep(w, c) else w
    case BeginResume(_, _, _, _, _) => if w.pc.Idle? then ResumeStep(w, c) else w
    case Prepared(_) => if w.pc.Prepare? then PrepareStep(w, c) else w
    case Refuse =>
      if w.pc.Prepare? then Fail(w, None)
      else if w.pc.Publication? then Fail(w, Some(w.pc.job.rotation))
      else w
    case Confirm => if w.pc.Publication? then w.(pc := ActivateNew(w.pc.job)) else w
    case Hook(_, _) => HookStep(w, c)
    case Respond(_) => if w.pc.Submit? then SubmitStep(w, c) else w
  }

  /** A whole run: any choices, so any number of crashes, failures and resumes. */
  function Run(w: World, choices: seq<Choice>): World
    decreases |choices|
  {
    if choices == [] then w else Run(Step(w, choices[0]), choices[1..])
  }
}
