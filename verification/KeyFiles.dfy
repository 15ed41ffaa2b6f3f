/** Many file-backed providers on one key file (dnsid/local_key_provider.py).  A provider reads the
    file without the lock when it loads, and reloads, copies, mutates and replaces it under the
    sidecar lock when it creates, migrates or mutates.  Writes fail before or after the replacement,
    processes die at any point. */
module KeyFiles {
  import opened Options
  import opened KeyStores

  /** What the path holds: nothing, a key in the old flat format, a key store, or something that is none of
      these, JSON or not. */
  datatype Content = Missing | Legacy(key: Key) | Stored(store: KeyStore) | Garbled(json: bool)

  /** A replacement of the file, by what it did. */
  datatype Commit = Created(key: Key) | Migrated | Applied(op: Operation)

  datatype Task = Loading(create: bool, key: Key) | Mutating(op: Operation)

  /** Where a provider is: not loaded, reading without the lock, waiting for it, holding it, about to
      replace the file, done with it but still holding it, or loaded and idle. */
  datatype Pc =
    | Closed
    | Reading(task: Task)
    | Waiting(task: Task)
    | Holding(task: Task)
    | Writing(task: Task, store: KeyStore, commit: Commit)
    | Ending
    | Open

  datatype Provider = Provider(memory: Option<KeyStore>, pc: Pc)

  /** `log` records the replacements, in order; it is never read. */
  datatype State = State(file: Content, lock: Option<nat>, providers: seq<Provider>, log: seq<Commit>)

  datatype Choice =
    | StartLoad(provider: nat, create: bool, key: Key)
    | StartMutation(provider: nat, op: Operation)
    | Proceed(provider: nat)
    | Replace(provider: nat, landed: bool, raises: bool)
    | Die(provider: nat)

  // ---- Sequential meaning ----

  function NewStore(key: Key): KeyStore {
    KeyStore(Some(key), [], [])
  }

  /** What one replacement does to the file, run on its own. */
  function Redo(c: Content, k: Commit): Content {
    match k
    case Created(key) => if c.Missing? then Stored(NewStore(key)) else c
    case Migrated => if c.Legacy? then Stored(NewStore(c.key)) else c
    case Applied(op) => if c.Stored? && Apply(c.store, op).Ok? then Stored(Apply(c.store, op).value) else c
  }

  function Replay(c: Content, log: seq<Commit>): Content {
    if log == [] then c else Redo(Replay(c, log[..|log| - 1]), log[|log| - 1])
  }

  /** The replacement does something to this content: a creation finds no file, a migration the old
      format, an operation a store that admits it. */
  predicate Effective(c: Content, k: Commit) {
    match k
    case Created(_) => c.Missing?
    case Migrated => c.Legacy?
    case Applied(op) => c.Stored? && Fresh(c.store, op) && Apply(c.store, op).Ok?
  }

  predicate EffectiveLog(start: Content, log: seq<Commit>) {
    forall i | 0 <= i < |log| :: Effective(Replay(start, log[..i]), log[i])
  }

  // ---- Steps ----

  function Set(s: State, p: nat, v: Provider): State
    requires p < |s.providers|
  {
    s.(providers := s.providers[p := v])
  }

  /** `load` up to the lock: a current-format file is read as it is. */
  function ReadStep(s: State, p: nat, task: Task): State
    requires p < |s.providers|
  {
    if task.Loading? && s.file.Stored? then Set(s, p, Provider(Some(s.file.store), Open))
    else if task.Loading? && s.file.Missing? && !task.create then Set(s, p, Provider(None, Closed))
    else if task.Loading? && s.file == Garbled(false) then Set(s, p, Provider(None, Closed))
    else Set(s, p, s.providers[p].(pc := Waiting(task)))
  }

  function LockStep(s: State, p: nat, task: Task): State
    requires p < |s.providers|
  {
    if s.lock.Some? then s else Set(s, p, s.providers[p].(pc := Holding(task))).(lock := Some(p))
  }

  /** Under the lock: read again, then decide what to write.  A generated key is new. */
  function HoldStep(s: State, p: nat, task: Task): State
    requires p < |s.providers|
  {
    match task
    case Loading(create, key) =>
      (match s.file
       case Stored(store) => Set(s, p, Provider(Some(store), Ending))
       case Legacy(old_) => Set(s, p, Provider(None, Writing(task, NewStore(old_), Migrated)))
       case Garbled(_) => Set(s, p, Provider(None, Ending))
       case Missing =>
         if create then Set(s, p, Provider(None, Writing(task, NewStore(key), Created(key))))
         else Set(s, p, Provider(None, Ending)))
    case Mutating(op) =>
      if !s.file.Stored? then Set(s, p, s.providers[p].(pc := Ending))
      else if !Fresh(s.file.store, op) then s
      else match Apply(s.file.store, op)
           case ArgumentError => Set(s, p, Provider(Some(s.file.store), Ending))
           case Ok(store) => Set(s, p, Provider(Some(s.file.store), Writing(task, store, Applied(op))))
  }

  /** `_write_key_store`, and what follows it: a mutation re-reads the file whatever happened, a load
      that raised leaves no provider behind. */
  function ReplaceStep(s: State, p: nat, landed: bool, raises: bool): State
    requires p < |s.providers| && s.providers[p].pc.Writing?
  {
    var pc := s.providers[p].pc;
    var lands := landed || !raises;
    var s1 := if lands then s.(file := Stored(pc.store), log := s.log + [pc.commit]) else s;
    var memory := if pc.task.Loading? then if raises then None else Some(pc.store)
                  else if s1.file.Stored? then Some(s1.file.store) else s.providers[p].memory;
    Set(s1, p, Provider(memory, Ending))
  }

  function ProceedStep(s: State, p: nat): State
    requires p < |s.providers|
  {
    match s.providers[p].pc
    case Reading(task) => ReadStep(s, p, task)
    case Waiting(task) => LockStep(s, p, task)
    case Holding(task) => HoldStep(s, p, task)
    case Ending => Set(s, p, s.providers[p].(pc := if s.providers[p].memory.Some? then Open else Closed)).(lock := None)
    case _ => s
  }

  function Step(s: State, c: Choice): State {
    if c.provider >= |s.providers| then s
    else
      var p := c.provider;
      match c
      case StartLoad(_, create, key) =>
        if s.providers[p].pc.Closed? then Set(s, p, Provider(None, Reading(Loading(create, key)))) else s
      case StartMutation(_, op) =>
        if s.providers[p].pc.Open? then Set(s, p, s.providers[p].(pc := Waiting(Mutating(op)))) else s
      case Proceed(_) => ProceedStep(s, p)
      case Replace(_, landed, raises) =>
        if s.providers[p].pc.Writing? then ReplaceStep(s, p, landed, raises) else s
      case Die(_) => Set(s, p, Provider(None, Closed)).(lock := if s.lock == Some(p) then None else s.lock)
  }

  function Run(s: State, choices: seq<Choice>): State
    decreases |choices|
  {
    if choices == [] then s else Run(Step(s, choices[0]), choices[1..])
  }

  // ---- The invariant ----

  predicate Locked(pc: Pc) {
    pc.Holding? || pc.Writing? || pc.Ending?
  }

  predicate ContentOk(c: Content) {
    c.Stored? ==> WellFormed(c.store)
  }

  /** The store was what the file held after some prefix of the replacements. */
  predicate WasCommitted(start: Content, log: seq<Commit>, store: KeyStore) {
    exists n: nat :: n <= |log| && Replay(start, log[..n]) == Stored(store)
  }

  predicate ProviderOk(s: State, start: Content, p: nat)
    requires p < |s.providers|
  {
    var v := s.providers[p];
    && (Locked(v.pc) <==> s.lock == Some(p))
    && (v.memory.Some? ==> s.file.Stored? && WasCommitted(start, s.log, v.memory.value))
    && (v.pc.Open? ==> v.memory.Some?)
    && (v.pc.Ending? && v.memory.Some? ==> s.file == Stored(v.memory.value))
    && (v.pc.Writing? ==>
          Effective(s.file, v.pc.commit) && Redo(s.file, v.pc.commit) == Stored(v.pc.store) && WellFormed(v.pc.store))
  }

  predicate Inv(s: State, start: Content) {
    && s.file == Replay(start, s.log)
    && EffectiveLog(start, s.log)
    && ContentOk(start) && ContentOk(s.file)
    && (s.lock.Some? ==> s.lock.value < |s.providers|)
    && forall p | 0 <= p < |s.providers| :: ProviderOk(s, start, p)
  }

  predicate Init(s: State) {
    s.lock.None? && s.log == [] && ContentOk(s.file) && forall v | v in s.providers :: v == Provider(None, Closed)
  }

  lemma InitInv(s: State)
    requires Init(s)
    ensures Inv(s, s.file)
  {
    forall p | 0 <= p < |s.providers|
      ensures ProviderOk(s, s.file, p)
    {
      assert s.providers[p] in s.providers;
    }
  }

  lemma ReplayMore(start: Content, log: seq<Commit>, k: Commit)
    ensures Replay(start, log + [k]) == Redo(Replay(start, log), k)
    ensures EffectiveLog(start, log) && Effective(Replay(start, log), k) ==> EffectiveLog(start, log + [k])
  {
    assert (log + [k])[..|log|] == log;
    if EffectiveLog(start, log) && Effective(Replay(start, log), k) {
      forall i | 0 <= i < |log + [k]|
        ensures Effective(Replay(start, (log + [k])[..i]), (log + [k])[i])
      {
        assert i < |log| ==> (log + [k])[..i] == log[..i];
      }
    }
  }

  lemma CommittedGrows(start: Content, log: seq<Commit>, k: Commit, store: KeyStore)
    requires WasCommitted(start, log, store)
    ensures WasCommitted(start, log + [k], store)
  {
    var n: nat :| n <= |log| && Replay(start, log[..n]) == Stored(store);
    assert (log + [k])[..n] == log[..n];
  }

  lemma CurrentIsCommitted(start: Content, log: seq<Commit>, store: KeyStore)
    requires Replay(start, log) == Stored(store)
    ensures WasCommitted(start, log, store)
  {
    assert log[..|log|] == log;
  }

  /** A provider's own change that leaves the file alone. */
  lemma SetInv(s: State, start: Content, p: nat, v: Provider, lock: Option<nat>)
    requires Inv(s, start) && p < |s.providers|
    requires lock == s.lock || (s.lock.None? && lock == Some(p)) || (s.lock == Some(p) && lock.None?)
    requires ProviderOk(Set(s, p, v).(lock := lock), start, p)
    ensures Inv(Set(s, p, v).(lock := lock), start)
  {
    hide WellFormed, WasCommitted, Effective, EffectiveLog;
    var s1 := Set(s, p, v).(lock := lock);
    forall q | 0 <= q < |s1.providers|
      ensures ProviderOk(s1, start, q)
    {
      assert ProviderOk(s, start, q) && ProviderOk(s, start, p);
    }
  }

  lemma HoldInv(s: State, start: Content, p: nat, task: Task)
    requires Inv(s, start) && p < |s.providers| && s.providers[p].pc == Holding(task)
    ensures Inv(HoldStep(s, p, task), start)
  {
    hide WellFormed, WasCommitted, Apply, EffectiveLog;
    assert ProviderOk(s, start, p);
    if s.file.Stored? {
      CurrentIsCommitted(start, s.log, s.file.store);
      if task.Mutating? && Fresh(s.file.store, task.op) && Apply(s.file.store, task.op).Ok? {
        ApplyAccountsForKeys(s.file.store, task.op);
      }
    }
    NewStoreWellFormed(if task.Loading? && s.file.Missing? then task.key else if s.file.Legacy?
        then s.file.key else Key("", "", ""));
    SetInv(s, start, p, HoldStep(s, p, task).providers[p], s.lock);
  }

  lemma NewStoreWellFormed(key: Key)
    ensures WellFormed(NewStore(key))
  {
  }

  /** The write happens under the lock, so it is the committed operation on what the file holds now:
      no update of another provider is lost. */
  lemma ReplaceInv(s: State, start: Content, p: nat, landed: bool, raises: bool)
    requires Inv(s, start) && p < |s.providers| && s.providers[p].pc.Writing?
    ensures Inv(ReplaceStep(s, p, landed, raises), start)
  {
    hide WellFormed, WasCommitted, Redo, Effective, EffectiveLog, Replay;
    assert ProviderOk(s, start, p);
    if s.file.Stored? {
      CurrentIsCommitted(start, s.log, s.file.store);
    }
    if landed || !raises {
      LandedInv(s, start, p, ReplaceStep(s, p, landed, raises).providers[p].memory);
    } else {
      SetInv(s, start, p, ReplaceStep(s, p, landed, raises).providers[p], s.lock);
    }
  }

  lemma LandedInv(s: State, start: Content, p: nat, memory: Option<KeyStore>)
    requires Inv(s, start) && p < |s.providers| && s.providers[p].pc.Writing?
    requires memory.Some? ==> memory.value == s.providers[p].pc.store
    ensures var pc := s.providers[p].pc;
            Inv(Set(s.(file := Stored(pc.store), log := s.log + [pc.commit]), p, Provider(memory, Ending)), start)
  {
    hide WellFormed, WasCommitted, Redo, Effective, EffectiveLog, Replay;
    var pc := s.providers[p].pc;
    var s1 := Set(s.(file := Stored(pc.store), log := s.log + [pc.commit]), p, Provider(memory, Ending));
    assert ProviderOk(s, start, p);
    ReplayMore(start, s.log, pc.commit);
    CurrentIsCommitted(start, s1.log, pc.store);
    forall q | 0 <= q < |s1.providers|
      ensures ProviderOk(s1, start, q)
    {
      assert ProviderOk(s, start, q);
      if q != p && s.providers[q].memory.Some? {
        CommittedGrows(start, s.log, pc.commit, s.providers[q].memory.value);
      }
    }
  }

  lemma ProceedInv(s: State, start: Content, p: nat)
    requires Inv(s, start) && p < |s.providers|
    ensures Inv(ProceedStep(s, p), start)
  {
    hide WellFormed, WasCommitted, HoldStep, Effective, EffectiveLog;
    assert ProviderOk(s, start, p);
    match s.providers[p].pc
    case Reading(task) =>
      if s.file.Stored? {
        CurrentIsCommitted(start, s.log, s.file.store);
      }
      SetInv(s, start, p, ReadStep(s, p, task).providers[p], s.lock);
    case Waiting(task) => if s.lock.None? { SetInv(s, start, p, s.providers[p].(pc := Holding(task)), Some(p)); }
    case Holding(task) => HoldInv(s, start, p, task);
    case Ending => SetInv(s, start, p, s.providers[p].(pc := if s.providers[p].memory.Some? then Open else Closed),
          None);
    case _ =>
  }

  lemma StepInv(s: State, start: Content, c: Choice)
    requires Inv(s, start)
    ensures Inv(Step(s, c), start)
  {
    hide WellFormed, WasCommitted, ProceedStep, ReplaceStep, Effective, EffectiveLog;
    if c.provider < |s.providers| {
      var p := c.provider;
      assert ProviderOk(s, start, p);
      match c
      case StartLoad(_, create, key) =>
        if s.providers[p].pc.Closed? { SetInv(s, start, p, Provider(None, Reading(Loading(create, key))), s.lock); }
      case StartMutation(_, op) =>
        if s.providers[p].pc.Open? { SetInv(s, start, p, s.providers[p].(pc := Waiting(Mutating(op))), s.lock); }
      case Proceed(_) => ProceedInv(s, start, p);
      case Replace(_, landed, raises) => if s.providers[p].pc.Writing? { ReplaceInv(s, start, p, landed, raises); }
      case Die(_) => SetInv(s, start, p, Provider(None, Closed), if s.lock == Some(p) then None else s.lock);
    }
  }

  lemma {:induction false} RunInv(s: State, start: Content, choices: seq<Choice>)
    requires Inv(s, start)
    ensures Inv(Run(s, choices), start)
    decreases |choices|
  {
    hide Inv, Step;
    if choices != [] {
      StepInv(s, start, choices[0]);
      RunInv(Step(s, choices[0]), start, choices[1..]);
    }
  }

  // ---- Theorems ----

  /** For any number of providers and any interleaving, failures and deaths included: the file is the
      sequential replay of the committed replacements, every key is in exactly one place, and each
      provider's memory is a state that was committed once, the present one when its mutation ends. */
  lemma FileIsASequentialReplay(s: State, choices: seq<Choice>)
    requires Init(s)
    ensures var v := Run(s, choices);
            && v.file == Replay(s.file, v.log)
            && ContentOk(v.file)
            && forall p | 0 <= p < |v.providers| && v.providers[p].memory.Some? ::
                 && WasCommitted(s.file, v.log, v.providers[p].memory.value)
                 && (v.providers[p].pc.Ending? ==> v.file == Stored(v.providers[p].memory.value))
  {
    hide Run, Step, WasCommitted, WellFormed;
    InitInv(s);
    RunInv(s, s.file, choices);
    var v := Run(s, choices);
    forall p | 0 <= p < |v.providers| && v.providers[p].memory.Some?
      ensures WasCommitted(s.file, v.log, v.providers[p].memory.value)
      ensures v.providers[p].pc.Ending? ==> v.file == Stored(v.providers[p].memory.value)
    {
      assert ProviderOk(v, s.file, p);
    }
  }

  function FileKids(c: Content): set<string> {
    match c
    case Missing => {}
    case Legacy(key) => {key.kid}
    case Garbled(_) => {}
    case Stored(store) => StoreKids(store)
  }

  predicate Supersedes(log: seq<Commit>, kid: string) {
    exists k | k in log :: k.Applied? && k.op.Supersede? && k.op.kid == kid
  }

  /** A replacement drops no key but the one it supersedes, keeps keys in one place, and leaves a store. */
  lemma RedoKeepsKeys(c: Content, k: Commit)
    requires ContentOk(c) && Effective(c, k)
    ensures Redo(c, k).Stored? && ContentOk(Redo(c, k))
    ensures forall kid | kid in FileKids(c) && !Supersedes([k], kid) :: kid in FileKids(Redo(c, k))
  {
    if k.Applied? {
      ApplyAccountsForKeys(c.store, k.op);
      if k.op.Supersede? {
        assert k in [k];
      }
    }
  }

  lemma {:induction false} LogKeepsKeys(start: Content, log: seq<Commit>, n: nat, kid: string)
    requires ContentOk(start) && EffectiveLog(start, log) && n <= |log| && kid in FileKids(Replay(start, log[..n]))
    ensures kid in FileKids(Replay(start, log)) || Supersedes(log[n..], kid)
  {
    hide ContentOk, FileKids, Redo, Effective, EffectiveLog, Supersedes;
    if n == |log| {
      assert log[..n] == log;
    } else {
      var rest := log[..|log| - 1];
      EffectivePrefix(start, log, |log| - 1);
      assert rest[..n] == log[..n];
      assert log == rest + [log[|log| - 1]] && log[n..] == rest[n..] + [log[|log| - 1]];
      LogKeepsKeys(start, rest, n, kid);
      LogContentOk(start, rest);
      RedoKeepsKeys(Replay(start, rest), log[|log| - 1]);
      SupersedesConcat(rest[n..], [log[|log| - 1]], kid);
    }
  }

  lemma SupersedesConcat(a: seq<Commit>, b: seq<Commit>, kid: string)
    ensures Supersedes(a + b, kid) <==> Supersedes(a, kid) || Supersedes(b, kid)
  {
  }

  lemma EffectivePrefix(start: Content, log: seq<Commit>, n: nat)
    requires EffectiveLog(start, log) && n <= |log|
    ensures EffectiveLog(start, log[..n])
    ensures n < |log| ==> Effective(Replay(start, log[..n]), log[n])
  {
    forall i | 0 <= i < n
      ensures Effective(Replay(start, log[..n][..i]), log[..n][i])
    {
      assert log[..n][..i] == log[..i];
    }
  }

  lemma {:induction false} LogContentOk(start: Content, log: seq<Commit>)
    requires ContentOk(start) && EffectiveLog(start, log)
    ensures ContentOk(Replay(start, log)) && (log != [] ==> Replay(start, log).Stored?)
  {
    hide ContentOk, Redo, Effective;
    if log != [] {
      EffectivePrefix(start, log, |log| - 1);
      LogContentOk(start, log[..|log| - 1]);
      RedoKeepsKeys(Replay(start, log[..|log| - 1]), log[|log| - 1]);
    }
  }

  /** No key vanishes from the file but by a committed supersede of that key, from any reachable state
      on, over any run. */
  lemma KeysVanishOnlyBySupersede(s: State, start: Content, choices: seq<Choice>, kid: string)
    requires Inv(s, start) && kid in FileKids(s.file)
    ensures s.log <= Run(s, choices).log
    ensures kid in FileKids(Run(s, choices).file) || Supersedes(Run(s, choices).log[|s.log|..], kid)
  {
    hide Run, Step, FileKids, EffectiveLog, Supersedes;
    RunInv(s, start, choices);
    RunOnlyAppends(s, choices);
    var v := Run(s, choices);
    assert v.log[..|s.log|] == s.log;
    LogKeepsKeys(start, v.log, |s.log|, kid);
  }

  lemma {:induction false} RunOnlyAppends(s: State, choices: seq<Choice>)
    ensures s.log <= Run(s, choices).log
    decreases |choices|
  {
    if choices != [] {
      RunOnlyAppends(Step(s, choices[0]), choices[1..]);
    }
  }

  // ---- First loads ----

  /** A creation, or a migration, is only ever the first replacement. */
  lemma OnlyTheFirstCreates(start: Content, log: seq<Commit>, i: nat)
    requires ContentOk(start) && EffectiveLog(start, log) && 0 < i < |log|
    ensures log[i].Applied?
  {
    EffectivePrefix(start, log, i);
    LogContentOk(start, log[..i]);
  }

  predicate NoMutations(choices: seq<Choice>) {
    forall c | c in choices :: !c.StartMutation?
  }

  /** No provider is on its way to a mutation. */
  predicate OnlyLoads(s: State) {
    && (forall p | 0 <= p < |s.providers| ::
          match s.providers[p].pc
          case Reading(task) => task.Loading?
          case Waiting(task) => task.Loading?
          case Holding(task) => task.Loading?
          case Writing(task, _, commit) => task.Loading? && !commit.Applied?
          case _ => true)
    && forall k | k in s.log :: !k.Applied?
  }

  lemma {:induction false} LoadsOnly(s: State, choices: seq<Choice>)
    requires OnlyLoads(s) && NoMutations(choices)
    ensures OnlyLoads(Run(s, choices))
    decreases |choices|
  {
    hide NoMutations;
    if choices != [] {
      TailNoMutations(choices);
      LoadsOnlyStep(s, choices[0]);
      LoadsOnly(Step(s, choices[0]), choices[1..]);
    }
  }

  lemma TailNoMutations(choices: seq<Choice>)
    requires NoMutations(choices) && choices != []
    ensures !choices[0].StartMutation? && NoMutations(choices[1..])
  {
  }

  lemma LoadsOnlyStep(s: State, c: Choice)
    requires OnlyLoads(s) && !c.StartMutation?
    ensures OnlyLoads(Step(s, c))
  {
  }

  /** Any number of providers loading a missing file at the same time, whatever fails: they agree on
      one key.  The file was created once, every loaded provider holds that creation's key and no
      other, and so does the file. */
  lemma FirstLoadsAgree(s: State, choices: seq<Choice>, p: nat)
    requires Init(s) && s.file.Missing? && NoMutations(choices)
    requires p < |Run(s, choices).providers| && Run(s, choices).providers[p].memory.Some?
    ensures var v := Run(s, choices);
            exists key :: v.log == [Created(key)] && v.file == Stored(KeyStore(Some(key), [], []))
                && v.providers[p].memory == Some(KeyStore(Some(key), [], []))
  {
    hide Run, Step, NoMutations, OnlyLoads;
    InitInv(s);
    RunInv(s, s.file, choices);
    var v := Run(s, choices);
    FirstReplacement(s, choices);
    assert ProviderOk(v, s.file, p);
    var n: nat :| n <= |v.log| && Replay(s.file, v.log[..n]) == Stored(v.providers[p].memory.value);
    assert v.log[..n] == if n == 0 then [] else v.log;
  }

  lemma FirstReplacement(s: State, choices: seq<Choice>)
    requires Init(s) && s.file.Missing? && NoMutations(choices) && Inv(Run(s, choices), s.file)
    ensures var v := Run(s, choices);
            (v.log == [] && v.file.Missing?) ||
            (|v.log| == 1 && v.log[0].Created? && v.file == Stored(NewStore(v.log[0].key)))
  {
    hide Run, Step, NoMutations;
    var v := Run(s, choices);
    StartsWithLoads(s);
    LoadsOnly(s, choices);
    if |v.log| > 0 {
      EffectivePrefix(s.file, v.log, 0);
      assert v.log[0] in v.log;
      if |v.log| > 1 {
        assert v.log[1] in v.log;
        OnlyTheFirstCreates(s.file, v.log, 1);
      }
      assert v.log[..0] == [];
    }
  }

  /** Any number of providers loading a file in the old format at the same time, whatever fails: it is migrated
      once at most, and every loaded provider signs with the key it held and knows no other. */
  lemma MigrationKeepsTheKey(s: State, choices: seq<Choice>, p: nat)
    requires Init(s) && s.file.Legacy? && NoMutations(choices)
    requires p < |Run(s, choices).providers| && Run(s, choices).providers[p].memory.Some?
    ensures var v := Run(s, choices);
            && v.log == [Migrated] && v.file == Stored(KeyStore(Some(s.file.key), [], []))
            && v.providers[p].memory == Some(KeyStore(Some(s.file.key), [], []))
  {
    hide Run, Step, NoMutations, OnlyLoads;
    InitInv(s);
    RunInv(s, s.file, choices);
    var v := Run(s, choices);
    StartsWithLoads(s);
    LoadsOnly(s, choices);
    OnlyMigrates(s.file, v.log, v);
    assert ProviderOk(v, s.file, p);
    var n: nat :| n <= |v.log| && Replay(s.file, v.log[..n]) == Stored(v.providers[p].memory.value);
    assert v.log[..n] == if n == 0 then [] else v.log;
  }

  lemma StartsWithLoads(s: State)
    requires Init(s)
    ensures OnlyLoads(s)
  {
    forall q | 0 <= q < |s.providers|
      ensures s.providers[q].pc.Closed?
    {
      assert s.providers[q] in s.providers;
    }
  }

  lemma OnlyMigrates(start: Content, log: seq<Commit>, v: State)
    requires start.Legacy? && EffectiveLog(start, log) && ContentOk(start) && v.log == log && OnlyLoads(v)
    ensures log == [] || log == [Migrated]
    ensures Replay(start, []) == start && Replay(start, [Migrated]) == Stored(KeyStore(Some(start.key), [], []))
  {
    assert [Migrated][..0] == [];
    if |log| > 0 {
      EffectivePrefix(start, log, 0);
      assert log[..0] == [] && log[0] in log;
      if |log| > 1 {
        assert log[1] in log;
        OnlyTheFirstCreates(start, log, 1);
      }
    }
  }
}
