/** The key store of a file-backed provider and its three lifecycle operations
    (dnsid/local_key_provider.py), as values.  The provider object that loads, mutates and
    replaces such a store on disk is in LocalKeyProvider. */
module KeyStores {
  import opened Options

  datatype Outcome<+T> = Ok(value: T) | ArgumentError

  datatype Key = Key(kid: string, thumbprint: string, alg: string)

  datatype KeyStore = KeyStore(active: Option<Key>, retained: seq<Key>, pending: seq<Key>)

  /** One lifecycle operation.  `key` is the freshly drawn key of a generation. */
  datatype Operation =
    | Generate(key: Key)
    | Activate(kid: string)
    | Supersede(kid: string, allowActive: bool)

  // ---- Membership ----

  function Kids(keys: seq<Key>): set<string> {
    set k | k in keys :: k.kid
  }

  function StoreKids(s: KeyStore): set<string> {
    ActiveKids(s) + Kids(s.retained) + Kids(s.pending)
  }

  function ActiveKids(s: KeyStore): set<string> {
    if s.active.Some? then {s.active.value.kid} else {}
  }

  /** `list_key_ids`, as a set: the active key and the retained keys. */
  function ListedKids(s: KeyStore): set<string> {
    ActiveKids(s) + Kids(s.retained)
  }

  predicate Distinct(keys: seq<Key>) {
    forall i, j | 0 <= i < j < |keys| :: keys[i].kid != keys[j].kid
  }

  /** Every key sits in exactly one of the three places, once. */
  predicate WellFormed(s: KeyStore) {
    && Distinct(s.retained)
    && Distinct(s.pending)
    && Kids(s.retained) !! Kids(s.pending)
    && ActiveKids(s) !! Kids(s.retained)
    && ActiveKids(s) !! Kids(s.pending)
  }

  /** The position of the first key with this kid, or -1. */
  function IndexOf(keys: seq<Key>, kid: string): (i: int)
    ensures -1 <= i < |keys|
    ensures i >= 0 ==> keys[i].kid == kid
    ensures forall j | 0 <= j < (if i < 0 then |keys| else i) :: keys[j].kid != kid
    ensures i >= 0 <==> kid in Kids(keys)
  {
    if keys == [] then -1
    else if keys[0].kid == kid then assert keys[0] in keys; 0
    else
      var rest := IndexOf(keys[1..], kid);
      assert keys == [keys[0]] + keys[1..];
      assert Kids(keys) == {keys[0].kid} + Kids(keys[1..]);
      if rest < 0 then -1 else rest + 1
  }

  function RemoveAt(keys: seq<Key>, i: nat): seq<Key>
    requires i < |keys|
  {
    keys[..i] + keys[i + 1..]
  }

  /** `jwk`: the key with this kid, looking at active, then retained, then pending. */
  function Jwk(s: KeyStore, kid: string): Option<Key> {
    if s.active.Some? && s.active.value.kid == kid then s.active
    else if IndexOf(s.retained, kid) >= 0 then Some(s.retained[IndexOf(s.retained, kid)])
    else if IndexOf(s.pending, kid) >= 0 then Some(s.pending[IndexOf(s.pending, kid)])
    else None
  }

  /** `sign_key` signs with the active or a pending key, never with a retained one. */
  predicate CanSignWith(s: KeyStore, kid: string) {
    (s.active.Some? && s.active.value.kid == kid) || IndexOf(s.pending, kid) >= 0
  }

  // ---- Operations ----

  function Apply(s: KeyStore, op: Operation): Outcome<KeyStore> {
    match op
    case Generate(key) =>
      if s.active.None? then ArgumentError else Ok(s.(pending := s.pending + [key]))
    case Activate(kid) =>
      var i := IndexOf(s.pending, kid);
      if i == -1 then ArgumentError
      else Ok(KeyStore(
                Some(s.pending[i]),
                if s.active.Some? then s.retained + [s.active.value] else s.retained,
                RemoveAt(s.pending, i)))
    case Supersede(kid, allowActive) =>
      if s.active.Some? && s.active.value.kid == kid then
        if allowActive then Ok(s.(active := None)) else ArgumentError
      else
        var i := IndexOf(s.retained, kid);
        if i == -1 then ArgumentError else Ok(s.(retained := RemoveAt(s.retained, i)))
  }

  /** A generated key is new: its kid, a thumbprint of random key material, is not in use. */
  predicate Fresh(s: KeyStore, op: Operation) {
    op.Generate? ==> op.key.kid !in StoreKids(s)
  }

  // ---- Lemmas ----

  lemma RemoveAtKids(keys: seq<Key>, i: nat)
    requires i < |keys| && Distinct(keys)
    ensures Distinct(RemoveAt(keys, i))
    ensures Kids(RemoveAt(keys, i)) == Kids(keys) - {keys[i].kid}
    ensures forall k | k in RemoveAt(keys, i) :: k in keys
    ensures forall k | k in keys && k != keys[i] :: k in RemoveAt(keys, i)
  {
  }

  lemma AppendKids(keys: seq<Key>, key: Key)
    requires Distinct(keys) && key.kid !in Kids(keys)
    ensures Distinct(keys + [key])
    ensures Kids(keys + [key]) == Kids(keys) + {key.kid}
    ensures forall k :: k in keys + [key] <==> k in keys || k == key
  {
  }

  lemma GenerateAddsTheKid(s: KeyStore, key: Key)
    requires WellFormed(s) && key.kid !in StoreKids(s)
    ensures WellFormed(s.(pending := s.pending + [key]))
    ensures StoreKids(s.(pending := s.pending + [key])) == StoreKids(s) + {key.kid}
  {
    hide Distinct, Kids;
    AppendKids(s.pending, key);
  }

  lemma ActivateKeepsTheKids(s: KeyStore, kid: string)
    requires WellFormed(s) && kid in Kids(s.pending)
    ensures WellFormed(Apply(s, Activate(kid)).value)
    ensures StoreKids(Apply(s, Activate(kid)).value) == StoreKids(s)
  {
    hide Distinct, Kids;
    RemoveAtKids(s.pending, IndexOf(s.pending, kid));
    if s.active.Some? {
      AppendKids(s.retained, s.active.value);
    }
  }

  lemma SupersedeDropsTheKid(s: KeyStore, kid: string, allowActive: bool)
    requires WellFormed(s) && Apply(s, Supersede(kid, allowActive)).Ok?
    ensures WellFormed(Apply(s, Supersede(kid, allowActive)).value)
    ensures StoreKids(Apply(s, Supersede(kid, allowActive)).value) == StoreKids(s) - {kid}
  {
    hide Distinct, Kids;
    if kid !in ActiveKids(s) {
      RemoveAtKids(s.retained, IndexOf(s.retained, kid));
    }
  }

  /** Every operation keeps each key in exactly one place, and accounts for every key: a generation
      adds its key and nothing else, an activation only moves keys, a supersede drops its key and
      nothing else. */
  lemma ApplyAccountsForKeys(s: KeyStore, op: Operation)
    requires WellFormed(s) && Fresh(s, op) && Apply(s, op).Ok?
    ensures WellFormed(Apply(s, op).value)
    ensures StoreKids(Apply(s, op).value) ==
            match op
            case Generate(key) => StoreKids(s) + {key.kid}
            case Activate(_) => StoreKids(s)
            case Supersede(kid, _) => StoreKids(s) - {kid}
  {
    hide WellFormed, StoreKids, RemoveAt, Kids;
    match op
    case Generate(key) => GenerateAddsTheKid(s, key);
    case Activate(kid) => ActivateKeepsTheKids(s, kid);
    case Supersede(kid, allowActive) => SupersedeDropsTheKid(s, kid, allowActive);
  }

  /** In a well-formed store `jwk` is the inverse of membership: it finds exactly the keys that are
      there, whichever place they are in. */
  lemma JwkFindsEveryKey(s: KeyStore, key: Key)
    requires WellFormed(s)
    ensures Jwk(s, key.kid) == Some(key) <==>
            s.active == Some(key) || key in s.retained || key in s.pending
    ensures Jwk(s, key.kid) == None <==> key.kid !in StoreKids(s)
  {
  }

  /** What signs: the active key and the pending ones, never a retained one.  What is listed: the active key and
      the retained ones, never a pending one. */
  lemma SignsAndLists(s: KeyStore, key: Key)
    requires WellFormed(s) && (s.active == Some(key) || key in s.retained || key in s.pending)
    ensures CanSignWith(s, key.kid) <==> s.active == Some(key) || key in s.pending
    ensures key.kid in ListedKids(s) <==> s.active == Some(key) || key in s.retained
  {
    assert key in s.retained ==> key.kid in Kids(s.retained);
    assert key in s.pending ==> key.kid in Kids(s.pending);
  }

  lemma OnlyKeyWithKid(keys: seq<Key>, key: Key)
    requires Distinct(keys) && key in keys
    ensures IndexOf(keys, key.kid) >= 0 && keys[IndexOf(keys, key.kid)] == key
  {
  }

  /** Activation is refused exactly for a kid that is not pending; otherwise that key becomes active, the
      one it replaces is retained, and no other key moves. */
  lemma ActivateMovesTheKey(s: KeyStore, kid: string)
    requires WellFormed(s)
    ensures Apply(s, Activate(kid)).Ok? <==> kid in Kids(s.pending)
    ensures Apply(s, Activate(kid)).Ok? ==>
              var t := Apply(s, Activate(kid)).value;
              && t.active.Some? && t.active.value in s.pending && t.active.value.kid == kid
              && (forall k :: k in t.pending <==> k in s.pending && k.kid != kid)
              && (forall k :: k in t.retained <==> k in s.retained || Some(k) == s.active)
  {
  }

  /** A supersede is refused exactly for a kid that is neither retained nor, when that is allowed, active;
      otherwise that key is gone and no other key moves. */
  lemma SupersedeDropsTheKey(s: KeyStore, kid: string, allowActive: bool)
    requires WellFormed(s)
    ensures Apply(s, Supersede(kid, allowActive)).Ok? <==>
            kid in Kids(s.retained) || (allowActive && kid in ActiveKids(s))
    ensures Apply(s, Supersede(kid, allowActive)).Ok? ==>
              var t := Apply(s, Supersede(kid, allowActive)).value;
              && t.pending == s.pending && t.active == (if kid in ActiveKids(s) then None else s.active)
              && (forall k :: k in t.retained <==> k in s.retained && k.kid != kid)
  {
  }
}
