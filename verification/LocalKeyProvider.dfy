/** The provider object of dnsid/local_key_provider.py: `load`, the three lifecycle methods and the
    `_mutate` section they share, over a key file held as an object.  Each method states the new file
    and the new memory as functions of the old ones; `LockedMutation` is also what the interleaved
    machine of KeyFiles does between taking and releasing the sidecar lock. */
module LocalKeyProviders {
  import opened Options
  import opened KeyStores
  import opened KeyFiles

  /** How `_write_key_store` ends: it returns, raises before the replacement, or raises after it. */
  datatype Fate = Writes | FailsBefore | FailsAfter

  /** Which of its steps raise: creating the temporary file, writing and syncing it, replacing the old file
      by it, and syncing the directory. */
  datatype Faults = Faults(create: bool, write: bool, replace: bool, directory: bool)

  function FateOf(f: Faults): Fate {
    if f.create || f.write || f.replace then FailsBefore else if f.directory then FailsAfter else Writes
  }

  datatype Result<+T> = Done(value: T) | NotFound | Malformed | Refused | WriteError

  // ---- Specification ----

  function Land(c: Content, k: Commit, fate: Fate): Content {
    if fate.FailsBefore? then c else Redo(c, k)
  }

  /** The file and the memory of a file-backed provider when its mutation ends. */
  function LockedMutation(c: Content, memory: KeyStore, op: Operation, fate: Fate): (Content, KeyStore) {
    if !c.Stored? then (c, memory)
    else if Apply(c.store, op).ArgumentError? then (c, c.store)
    else
      var c1 := Land(c, Applied(op), fate);
      (c1, c1.store)
  }

  function MutationResult(c: Content, op: Operation, fate: Fate): Result<()> {
    match c
    case Missing => NotFound
    case Legacy(_) => Malformed
    case Garbled(_) => Malformed
    case Stored(store) =>
      if Apply(store, op).ArgumentError? then Refused else if fate.Writes? then Done(()) else WriteError
  }

  /** What became of a replacement that creates or migrates, and of the call that made it. */
  predicate Wrote<T>(found: Content, k: Commit, faults: Faults, content: Content, r: Result<T>) {
    content == Land(found, k, FateOf(faults)) && if FateOf(faults).Writes? then r.Done? else r.WriteError?
  }

  // ---- In-place edits ----

  /** `next((i for i, k in enumerate(keys) if k.kid == kid), -1)`. */
  method FindKid(keys: seq<Key>, kid: string) returns (i: int)
    ensures i == IndexOf(keys, kid)
  {
    i := 0;
    while i < |keys|
      invariant 0 <= i <= |keys|
      invariant IndexOf(keys, kid) == if IndexOf(keys[i..], kid) < 0 then -1 else i + IndexOf(keys[i..], kid)
    {
      if keys[i].kid == kid {
        return;
      }
      assert keys[i..][1..] == keys[i + 1..];
      i := i + 1;
    }
    return -1;
  }

  class KeyFile {
    var content: Content
    /** The private temporary file of a write, while there is one. */
    var temporary: Option<Content>

    constructor (content: Content)
      ensures this.content == content && temporary == None
    {
      this.content, temporary := content, None;
    }

    /** `_write_key_store`: the temporary file is written in full before it replaces the old one in one
        step, so a reader sees the old store or the new one and nothing else; whatever raises, no temporary
        file stays behind. */
    method Replace(store: KeyStore, faults: Faults) returns (raised: bool)
      requires temporary == None
      modifies this
      ensures content == if FateOf(faults).FailsBefore? then old(content) else Stored(store)
      ensures raised <==> !FateOf(faults).Writes?
      ensures temporary == None
    {
      if faults.create {
        return true;
      }
      temporary := Some(Garbled(false));
      raised := faults.write;
      if !raised {
        temporary := Some(Stored(store));
        raised := faults.replace;
        if !raised {
          content, temporary := temporary.value, None;
          raised := faults.directory;
        }
      }
      temporary := None;
    }
  }

  class LocalKeyProvider {
    var store: KeyStore
    const file: KeyFile?

    constructor (store: KeyStore, file: KeyFile?)
      ensures this.store == store && this.file == file
    {
      this.store := store;
      this.file := file;
    }

    /** Read, else create or migrate under the lock after reading again; `found` is what the second
        read finds, another provider having possibly run in between. */
    static method Load(file: KeyFile, createIfMissing: bool, key: Key, found: Content, faults: Faults)
        returns (r: Result<LocalKeyProvider>)
      requires file.temporary == None
      modifies file
      ensures file.temporary == None
      ensures old(file.content).Stored? ==>
                r.Done? && r.value.store == old(file.content).store && file.content == old(file.content)
      ensures old(file.content).Missing? && !createIfMissing ==> r == NotFound && file.content == old(file.content)
      ensures old(file.content) == Garbled(false) ==> r == Malformed && file.content == old(file.content)
      ensures !old(file.content).Stored? && !(old(file.content).Missing? && !createIfMissing)
              && old(file.content) != Garbled(false) ==>
                && (match found
                    case Stored(_) => file.content == found && r.Done?
                    case Legacy(_) => Wrote(found, Migrated, faults, file.content, r)
                    case Garbled(_) => file.content == found && r == Malformed
                    case Missing =>
                      if createIfMissing then Wrote(found, Created(key), faults, file.content, r)
                      else file.content == found && r == NotFound)
      ensures r.Done? ==> fresh(r.value) && r.value.file == file && file.content == Stored(r.value.store)
    {
      match file.content {
        case Stored(store) =>
          var provider := new LocalKeyProvider(store, file);
          return Done(provider);
        case Missing =>
          if !createIfMissing { return NotFound; }
        case Garbled(json) =>
          if !json { return Malformed; }
        case Legacy(_) =>
      }
      file.content := found;  // what others did before the lock was ours
      var loaded: KeyStore;
      match file.content {
        case Stored(store) =>
          loaded := store;
        case Legacy(old_) =>
          loaded := NewStore(old_);
          var raised := file.Replace(loaded, faults);
          if raised { return WriteError; }
        case Garbled(_) =>
          return Malformed;
        case Missing =>
          if !createIfMissing { return NotFound; }
          loaded := NewStore(key);
          var raised := file.Replace(loaded, faults);
          if raised { return WriteError; }
      }
      var provider := new LocalKeyProvider(loaded, file);
      r := Done(provider);
    }

    /** The body of `generate_key`, `activate` or `supersede`, on the copy that `_mutate` yields. */
    method Edit(copy: KeyStore, op: Operation) returns (r: Outcome<KeyStore>)
      ensures r == Apply(copy, op)
    {
      var edited := copy;
      match op {
        case Generate(key) =>
          if edited.active.None? { return ArgumentError; }
          edited := edited.(pending := edited.pending + [key]);
        case Activate(kid) =>
          var i := FindKid(edited.pending, kid);
          if i == -1 { return ArgumentError; }
          var incoming := edited.pending[i];
          edited := edited.(pending := edited.pending[..i] + edited.pending[i + 1..]);
          if edited.active.Some? {
            edited := edited.(retained := edited.retained + [edited.active.value]);
          }
          edited := edited.(active := Some(incoming));
        case Supersede(kid, allowActive) =>
          if edited.active.Some? && edited.active.value.kid == kid {
            if !allowActive { return ArgumentError; }
            edited := edited.(active := None);
            return Ok(edited);
          }
          var i := FindKid(edited.retained, kid);
          if i == -1 { return ArgumentError; }
          edited := edited.(retained := edited.retained[..i] + edited.retained[i + 1..]);
      }
      return Ok(edited);
    }

    /** `_mutate` around one edit.  In memory, nothing changes unless the edit succeeds; on a file, the
        memory is the file afterwards, whether the write returned, raised before or raised after. */
    method Mutate(op: Operation, faults: Faults) returns (r: Result<()>)
      requires file != null ==> file.temporary == None
      modifies this, file
      ensures file != null ==> file.temporary == None
      ensures file == null ==>
                (store == if Apply(old(store), op).Ok? then Apply(old(store), op).value else old(store)) &&
                (r == if Apply(old(store), op).Ok? then Done(()) else Refused)
      ensures file != null ==>
                (file.content, store) == LockedMutation(old(file.content), old(store), op, FateOf(faults)) &&
                r == MutationResult(old(file.content), op, FateOf(faults))
    {
      if file == null {
        var edit := Edit(store, op);
        if edit.ArgumentError? { return Refused; }
        store := edit.value;
        return Done(());
      }
      match file.content {
        case Missing => return NotFound;
        case Legacy(_) => return Malformed;
        case Garbled(_) => return Malformed;
        case Stored(current) => store := current;
      }
      var edit := Edit(store, op);
      if edit.ArgumentError? { return Refused; }
      var raised := file.Replace(edit.value, faults);
      store := file.content.store;
      r := if raised then WriteError else Done(());
    }
  }

  // ---- Connection to the machine ----

  function EndChoices(p: nat, fate: Fate): seq<Choice> {
    [Proceed(p), Proceed(p), Choice.Replace(p, fate.FailsAfter?, !fate.Writes?), Proceed(p)]
  }

  lemma RunFour(s: State, a: Choice, b: Choice, c: Choice, d: Choice)
    ensures Run(s, [a, b, c, d]) == Step(Step(Step(Step(s, a), b), c), d)
  {
    hide Step;
    assert [a, b, c, d][1..] == [b, c, d] && [b, c, d][1..] == [c, d] && [c, d][1..] == [d] && [d][1..] == [];
    assert Run(s, [a, b, c, d]) == Run(Step(s, a), [b, c, d]);
    assert Run(Step(s, a), [b, c, d]) == Run(Step(Step(s, a), b), [c, d]);
    assert Run(Step(Step(s, a), b), [c, d]) == Run(Step(Step(Step(s, a), b), c), [d]);
    assert Run(Step(Step(Step(s, a), b), c), [d]) == Run(Step(Step(Step(Step(s, a), b), c), d), []);
  }

  /** A provider of the machine that takes the lock, mutates and writes ends with exactly the file and
      the memory of the method, whatever became of the write and whatever the other providers hold. */
  lemma MachineRunsTheMutation(s: State, p: nat, op: Operation, fate: Fate)
    requires p < |s.providers| && s.lock.None? && s.providers[p].pc == Waiting(Mutating(op))
    requires s.providers[p].memory.Some? && s.file.Stored? && Fresh(s.file.store, op)
    ensures var v := Run(s, EndChoices(p, fate));
            && |v.providers| == |s.providers|
            && v.providers[p].pc.Open? && v.providers[p].memory.Some?
            && (v.file, v.providers[p].memory.value) ==
               LockedMutation(s.file, s.providers[p].memory.value, op, fate)
            && v.lock.None?
            && v.providers[..p] == s.providers[..p] && v.providers[p + 1..] == s.providers[p + 1..]
  {
    hide Apply, Fresh, Run;
    var e := EndChoices(p, fate);
    RunFour(s, e[0], e[1], e[2], e[3]);
  }

  /** The choices of one load that nothing interrupts. */
  function LoadChoices(p: nat, create: bool, key: Key, fate: Fate): seq<Choice> {
    [StartLoad(p, create, key), Proceed(p)] + EndChoices(p, fate)
  }

  /** A provider of the machine that loads while no other is in the locked section: a store is read as it is; a
      file in the old format is migrated and a missing one created if asked, and the provider then holds its
      one key as the active one; if the write fails, or nothing can be loaded, no provider comes of it. */
  lemma MachineRunsTheLoad(s: State, p: nat, create: bool, key: Key, fate: Fate)
    requires p < |s.providers| && s.lock.None? && s.providers[p].pc.Closed?
    ensures var v := Run(s, LoadChoices(p, create, key, fate));
            && |v.providers| == |s.providers| && v.lock.None?
            && match s.file
               case Stored(store) => v.file == s.file && v.providers[p] == Provider(Some(store), Open)
               case Garbled(_) => v.file == s.file && v.providers[p] == Provider(None, Closed)
               case Legacy(old_) => WroteOne(s.file, old_, fate, v.file, v.providers[p])
               case Missing =>
                 if create then WroteOne(s.file, key, fate, v.file, v.providers[p])
                 else v.file == s.file && v.providers[p] == Provider(None, Closed)
  {
    hide Run, Step, WroteOne;
    var e := LoadChoices(p, create, key, fate);
    assert e == [e[0]] + ([e[1]] + EndChoices(p, fate));
    RunOne(s, e[0], [e[1]] + EndChoices(p, fate));
    RunOne(Step(s, e[0]), e[1], EndChoices(p, fate));
    MachineReads(s, p, create, key);
    MachineLoadsLocked(Step(Step(s, e[0]), e[1]), p, create, key, fate);
  }

  /** The read without the lock. */
  lemma MachineReads(s: State, p: nat, create: bool, key: Key)
    requires p < |s.providers| && s.providers[p].pc.Closed?
    ensures var v := Step(Step(s, StartLoad(p, create, key)), Proceed(p));
            && v.file == s.file && v.lock == s.lock && |v.providers| == |s.providers|
            && v.providers[p] ==
               if s.file.Stored? then Provider(Some(s.file.store), Open)
               else if (s.file.Missing? && !create) || s.file == Garbled(false) then Provider(None, Closed)
               else Provider(None, Waiting(Loading(create, key)))
  {
  }

  /** The section under the lock, if the load gets there. */
  lemma MachineLoadsLocked(s: State, p: nat, create: bool, key: Key, fate: Fate)
    requires p < |s.providers| && s.lock.None?
    requires s.providers[p] == Provider(None, Waiting(Loading(create, key)))
        || s.providers[p].pc.Open? || s.providers[p].pc.Closed?
    ensures var v := Run(s, EndChoices(p, fate));
            && |v.providers| == |s.providers| && v.lock.None?
            && (!s.providers[p].pc.Waiting? ==> v == s)
            && (s.providers[p].pc.Waiting? ==>
                  match s.file
                  case Stored(store) => v.file == s.file && v.providers[p] == Provider(Some(store), Open)
                  case Garbled(_) => v.file == s.file && v.providers[p] == Provider(None, Closed)
                  case Legacy(old_) => WroteOne(s.file, old_, fate, v.file, v.providers[p])
                  case Missing =>
                    if create then WroteOne(s.file, key, fate, v.file, v.providers[p])
                    else v.file == s.file && v.providers[p] == Provider(None, Closed))
  {
    hide Run, Apply, Fresh;
    RunFour(s, Proceed(p), Proceed(p), Choice.Replace(p, fate.FailsAfter?, !fate.Writes?), Proceed(p));
  }

  lemma RunOne(s: State, c: Choice, rest: seq<Choice>)
    ensures Run(s, [c] + rest) == Run(Step(s, c), rest)
  {
    hide Step;
    assert ([c] + rest)[1..] == rest;
  }

  /** The file holds this one key, active, if the write got as far as that; the provider too, if it returned. */
  predicate WroteOne(before: Content, key: Key, fate: Fate, after: Content, v: Provider) {
    var one := KeyStore(Some(key), [], []);
    && after == (if fate.FailsBefore? then before else Stored(one))
    && v == (if fate.Writes? then Provider(Some(one), Open) else Provider(None, Closed))
  }

  /** What a mutation answers, and what it leaves: it is done exactly when the file holds a store that admits the
      operation and every step of the write succeeds; a missing file, one in another format, a refused operation
      and a failed write each have their own answer; only a write that got as far as the replacement changes the
      file. */
  lemma MutationAnswers(c: Content, memory: KeyStore, op: Operation, faults: Faults)
    ensures var r := MutationResult(c, op, FateOf(faults));
            var after := LockedMutation(c, memory, op, FateOf(faults));
            var replaced := !faults.create && !faults.write && !faults.replace;
            && (r == NotFound <==> c == Missing)
            && (r == Malformed <==> c.Legacy? || c.Garbled?)
            && (r == Refused <==> c.Stored? && Apply(c.store, op).ArgumentError?)
            && (r == WriteError <==> c.Stored? && Apply(c.store, op).Ok? && (!replaced || faults.directory))
            && (r == Done(()) <==> c.Stored? && Apply(c.store, op).Ok? && replaced && !faults.directory)
            && after.0 == (if c.Stored? && Apply(c.store, op).Ok? && replaced
                           then Stored(Apply(c.store, op).value) else c)
            && after.1 == (if after.0.Stored? then after.0.store else memory)
  {
    hide Apply;
  }
}
