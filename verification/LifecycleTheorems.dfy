/** When a snapshot succeeds, and what it then is, said of the log itself rather than of the loop. */
module LifecycleTheorems {
  import opened Options
  import opened Lifecycle

  // ---- Histories ----

  predicate Terminal(e: Event) {
    e.kind.Revocation? || e.kind.Retirement?
  }

  predicate Binds(e: Event) {
    e.kind.Issuance? || e.kind.KeyRotation?
  }

  /** The last event that bound a key. */
  function LastBinding(events: seq<Event>): (i: nat)
    requires events != []
    ensures i < |events| && (Binds(events[i]) || i == 0)
    ensures forall j | i < j < |events| :: !Binds(events[j])
  {
    var n := |events| - 1;
    if n == 0 || Binds(events[n]) then n else LastBinding(events[..n])
  }

  function BoundKey(e: Event): Option<Jwk> {
    match e.kind
    case Issuance(_, _, key) => key
    case KeyRotation(_, _, key) => key
    case _ => None
  }

  /** The event may stand at this place: the issuance at the head and nowhere else, nothing after a
      terminal event, and each rotation from the key bound last, to a key that is neither that one nor
      the entity key. */
  predicate ValidAt(events: seq<Event>, i: nat)
    requires i < |events|
  {
    var k := events[i].kind;
    if i == 0 then k.Issuance? && ValidIssuance(k)
    else
      && !Terminal(events[i - 1])
      && (match k
          case Issuance(_, _, _) => false
          case KeyRotation(_, _, _) =>
            && events[0].kind.Issuance? && events[0].kind.entityKey.Some?
            && BoundKey(events[LastBinding(events[..i])]).Some?
            && Continues(k, BoundKey(events[LastBinding(events[..i])]).value.thumbprint,
                         events[0].kind.entityKey.value.thumbprint)
          case Revocation(reason) => ValidReason(reason)
          case Migration(_, _, _) => ValidMigration(k)
          case Unsupported => false
          case _ => true)
  }

  predicate ValidHistory(events: seq<Event>) {
    forall i | 0 <= i < |events| :: ValidAt(events, i)
  }

  predicate Within(e: Event, at: int) {
    e.time.Some? && e.time.value <= at
  }

  /** How many events from the head on are at or before the time. */
  function Cut(events: seq<Event>, at: int): (n: nat)
    ensures n <= |events|
    ensures forall i | 0 <= i < n :: Within(events[i], at)
    ensures n < |events| ==> !Within(events[n], at)
  {
    if events == [] then 0
    else
      var n := |events| - 1;
      var c := Cut(events[..n], at);
      if c == n && Within(events[n], at) then n + 1 else c
  }

  predicate OfDomain(domain: string, events: seq<Event>) {
    forall i | 0 <= i < |events| :: events[i].domain == domain && events[i].time.Some?
  }

  /** The events at or before the time are the head of the log, and a valid history. */
  predicate Consistent(domain: string, events: seq<Event>, at: int) {
    && OfDomain(domain, events)
    && (forall i | Cut(events, at) <= i < |events| :: !Within(events[i], at))
    && ValidHistory(events[..Cut(events, at)])
  }

  function StatusOf(events: seq<Event>): Status {
    if events == [] then Nothing
    else if events[|events| - 1].kind.Revocation? then Revoked
    else if events[|events| - 1].kind.Retirement? then Retired
    else Active
  }

  /** The reducer's variables, said of the valid history they were reduced from. */
  predicate Describes(r: Reducer, events: seq<Event>) {
    && r.events == events
    && r.status == StatusOf(events)
    && (events == [] ==> r == START.(past := r.past))
    && (events != [] ==>
          var last := events[LastBinding(events)];
          && events[0].kind.Issuance? && r.entityKey == events[0].kind.entityKey
          && r.governance == events[0].kind.governance
          && r.entityKey.Some? && r.activeKey.Some? && last.time.Some?
          && r.activeKey == BoundKey(last) && r.thumbprint == r.activeKey.value.thumbprint
          && r.boundAt == last.time.value)
  }

  // ---- The reduction accepts exactly the consistent logs ----

  lemma ValidAtLocal(events: seq<Event>, more: seq<Event>, i: nat)
    requires i < |events| && events <= more
    ensures ValidAt(events, i) <==> ValidAt(more, i)
  {
  }

  lemma ValidHistoryAppend(events: seq<Event>, e: Event)
    ensures ValidHistory(events + [e]) <==> ValidHistory(events) && ValidAt(events + [e], |events|)
  {
    hide ValidAt;
    forall i | 0 <= i < |events|
      ensures ValidAt(events, i) <==> ValidAt(events + [e], i)
    {
      ValidAtLocal(events, events + [e], i);
    }
  }

  /** One event on top of a valid history is absorbed exactly when it may stand there. */
  lemma AbsorbMeans(r: Reducer, events: seq<Event>, e: Event, i: nat)
    requires Describes(r, events) && e.time.Some?
    ensures Absorb(r, e, e.time.value, i).Ok? <==> ValidAt(events + [e], |events|)
    ensures Absorb(r, e, e.time.value, i).Ok? ==> Describes(Absorb(r, e, e.time.value, i).value, events + [e])
    ensures Absorb(r, e, e.time.value, i).Ok? ==> Absorb(r, e, e.time.value, i).value.past == r.past
  {
    hide Absorb, ValidAt, Describes;
    if events == [] {
      AbsorbFirst(r, e, i);
      assert events + [e] == [e];
    } else if e.kind.KeyRotation? {
      AbsorbRotation(r, events, e, i);
    } else {
      AbsorbOther(r, events, e, i);
    }
  }

  lemma AbsorbFirst(r: Reducer, e: Event, i: nat)
    requires Describes(r, []) && e.time.Some?
    ensures Absorb(r, e, e.time.value, i).Ok? <==> ValidAt([e], 0)
    ensures Absorb(r, e, e.time.value, i).Ok? ==> Describes(Absorb(r, e, e.time.value, i).value, [e])
    ensures Absorb(r, e, e.time.value, i).Ok? ==> Absorb(r, e, e.time.value, i).value.past == r.past
  {
    hide Continues, ValidMigration, ValidReason;
  }

  lemma AppendKeepsHead(events: seq<Event>, e: Event)
    requires events != []
    ensures var more := events + [e];
            && more[..|events|] == events && more[|events|] == e
            && more[|events| - 1] == events[|events| - 1] && more[0] == events[0]
            && more[LastBinding(events)] == events[LastBinding(events)]
            && LastBinding(more) == if Binds(e) then |events| else LastBinding(events)
  {
    assert (events + [e])[..|events|] == events;
  }

  lemma AbsorbRotation(r: Reducer, events: seq<Event>, e: Event, i: nat)
    requires Describes(r, events) && e.time.Some? && events != [] && e.kind.KeyRotation?
    ensures Absorb(r, e, e.time.value, i).Ok? <==> ValidAt(events + [e], |events|)
    ensures Absorb(r, e, e.time.value, i).Ok? ==> Describes(Absorb(r, e, e.time.value, i).value, events + [e])
    ensures Absorb(r, e, e.time.value, i).Ok? ==> Absorb(r, e, e.time.value, i).value.past == r.past
  {
    hide Continues, LastBinding;
    AppendKeepsHead(events, e);
    if Continues(e.kind, r.thumbprint, r.entityKey.value.thumbprint) {
      RotationBinds(e.kind, r.thumbprint, r.entityKey.value.thumbprint);
    }
  }

  lemma AbsorbOther(r: Reducer, events: seq<Event>, e: Event, i: nat)
    requires Describes(r, events) && e.time.Some? && events != [] && !e.kind.KeyRotation?
    ensures Absorb(r, e, e.time.value, i).Ok? <==> ValidAt(events + [e], |events|)
    ensures Absorb(r, e, e.time.value, i).Ok? ==> Describes(Absorb(r, e, e.time.value, i).value, events + [e])
    ensures Absorb(r, e, e.time.value, i).Ok? ==> Absorb(r, e, e.time.value, i).value.past == r.past
  {
    hide Continues, LastBinding, ValidMigration, ValidReason;
    AppendKeepsHead(events, e);
  }

  lemma RotationBinds(k: Kind, active: string, entity: string)
    requires k.KeyRotation? && Continues(k, active, entity)
    ensures k.newKey.Some? && k.newThumbprint == k.newKey.value.thumbprint
  {
  }

  lemma {:induction false} ReduceMeans(domain: string, at: int, events: seq<Event>)
    ensures Reduce(domain, at, events).Ok? <==> Consistent(domain, events, at)
    ensures Reduce(domain, at, events).Ok? ==>
              var r := Reduce(domain, at, events).value;
              Describes(r, events[..Cut(events, at)]) && (r.past <==> Cut(events, at) < |events|)
  {
    hide Absorb, ValidAt, Describes, ValidHistory, Consistent, Next;
    if events == [] {
      NothingDescribed();
      NothingConsistent(domain, at);
      assert events[..0] == [];
    } else {
      var n := |events| - 1;
      assert events == events[..n] + [events[n]];
      ReduceMeans(domain, at, events[..n]);
      ConsistentPrefix(domain, events[..n], events[n], at);
      if Consistent(domain, events[..n], at) {
        NextMeans(domain, at, Reduce(domain, at, events[..n]).value, events[..n], events[n]);
      }
    }
  }

  lemma NothingConsistent(domain: string, at: int)
    ensures Consistent(domain, [], at)
  {
  }

  /** One event on top of a consistent log. */
  lemma NextMeans(domain: string, at: int, r: Reducer, rest: seq<Event>, e: Event)
    requires Consistent(domain, rest, at)
    requires Describes(r, rest[..Cut(rest, at)]) && (r.past <==> Cut(rest, at) < |rest|)
    ensures Next(domain, at, r, e, |rest|).Ok? <==> Consistent(domain, rest + [e], at)
    ensures Next(domain, at, r, e, |rest|).Ok? ==>
              var q := Next(domain, at, r, e, |rest|).value;
              Describes(q, (rest + [e])[..Cut(rest + [e], at)]) && (q.past <==> Cut(rest + [e], at) < |rest + [e]|)
  {
    hide Absorb, ValidAt, Describes, ValidHistory;
    var events := rest + [e];
    var c := Cut(rest, at);
    assert events[..|rest|] == rest && events[|rest|] == e;
    if e.domain == domain && e.time.Some? {
      assert OfDomain(domain, events);
      assert events[..c] == rest[..c];
      if e.time.value > at {
        DescribesPast(r, events[..c]);
      } else if c == |rest| {
        assert rest[..c] == rest && events[..|events|] == events;
        AbsorbMeans(r, rest, e, |rest|);
        ValidHistoryAppend(rest, e);
      }
    }
  }

  lemma NothingDescribed()
    ensures Describes(START, []) && ValidHistory([])
  {
  }

  lemma DescribesPast(r: Reducer, events: seq<Event>)
    requires Describes(r, events)
    ensures Describes(r.(past := true), events)
  {
  }

  lemma ConsistentPrefix(domain: string, rest: seq<Event>, e: Event, at: int)
    ensures Consistent(domain, rest + [e], at) ==> Consistent(domain, rest, at)
  {
    hide ValidAt, ValidHistory;
    var events := rest + [e];
    var c := Cut(rest, at);
    assert events[..|rest|] == rest;
    if Consistent(domain, events, at) {
      assert rest[..c] == events[..c];
      if Cut(events, at) != c {
        assert events[..Cut(events, at)] == events && rest[..c] == rest;
        ValidHistoryAppend(rest, e);
      }
      forall i | c <= i < |rest|
        ensures !Within(rest[i], at)
      {
        assert rest[i] == events[i];
      }
      assert forall i | 0 <= i < |rest| :: rest[i] == events[i];
    }
  }

  // ---- Theorems ----

  /** A snapshot succeeds if and only if some event is at or before the time, those events are the head of
      the log, they form a valid history, and every event of the log is of the domain and dated. */
  lemma SnapshotSucceedsExactly(domain: string, events: seq<Event>, at: int)
    ensures TakeSnapshot(domain, events, at).Ok? <==> Cut(events, at) > 0 && Consistent(domain, events, at)
  {
    hide Reduce, Consistent;
    ReduceMeans(domain, at, events);
  }

  /** What a successful snapshot holds: exactly the head of the log up to the time, one issuance, at its
      head, no terminal event but possibly the last, which decides the state; the active key is the one
      bound last, at the time it was bound. */
  lemma SnapshotHolds(domain: string, events: seq<Event>, at: int)
    requires TakeSnapshot(domain, events, at).Ok?
    ensures var s := TakeSnapshot(domain, events, at).value;
            && s.events == events[..Cut(events, at)] && s.events != [] && ValidHistory(s.events)
            && (forall i | 0 <= i < |s.events| :: s.events[i].kind.Issuance? <==> i == 0)
            && (forall i | 0 <= i < |s.events| - 1 :: !Terminal(s.events[i]))
            && s.status == StatusOf(s.events)
            && s.domain == domain && s.at == at && s.governance == s.events[0].kind.governance
            && var last := s.events[LastBinding(s.events)];
               && BoundKey(last) == Some(s.activeKey) && s.thumbprint == s.activeKey.thumbprint
               && last.time == Some(s.boundAt)
  {
    hide Reduce, ValidIssuance, Continues, ValidMigration, ValidReason;
    ReduceMeans(domain, at, events);
    var s := TakeSnapshot(domain, events, at).value;
    assert ValidHistory(s.events);
    forall i | 0 <= i < |s.events|
      ensures s.events[i].kind.Issuance? <==> i == 0
    {
      assert ValidAt(s.events, i);
    }
    forall i | 0 <= i < |s.events| - 1
      ensures !Terminal(s.events[i])
    {
      assert ValidAt(s.events, i + 1);
    }
  }

  /** A failure that names an event names the first one that spoils the log: everything before it is
      consistent, and with it the log is not. */
  lemma {:induction false} FailureNamesTheFirstBadEvent(domain: string, events: seq<Event>, at: int)
    requires Reduce(domain, at, events).Err?
    ensures var e := Reduce(domain, at, events).index;
            && e.Some? && e.value < |events|
            && Consistent(domain, events[..e.value], at) && !Consistent(domain, events[..e.value + 1], at)
  {
    hide Consistent, Next;
    var n := |events| - 1;
    assert events != [];
    assert events[..n + 1] == events;
    ReduceMeans(domain, at, events);
    ReduceMeans(domain, at, events[..n]);
    if Reduce(domain, at, events[..n]).Err? {
      FailureNamesTheFirstBadEvent(domain, events[..n], at);
      var i := Reduce(domain, at, events[..n]).index.value;
      assert events[..n][..i] == events[..i] && events[..n][..i + 1] == events[..i + 1];
    } else {
      NextNamesItsEvent(domain, at, Reduce(domain, at, events[..n]).value, events[n], n);
    }
  }

  lemma NextNamesItsEvent(domain: string, at: int, r: Reducer, e: Event, i: nat)
    ensures Next(domain, at, r, e, i).Err? ==> Next(domain, at, r, e, i).index == Some(i)
  {
  }

  // ---- The chain of keys ----

  /** The keys bound, in order. */
  function Chain(events: seq<Event>): seq<Jwk> {
    if events == [] then []
    else
      var n := |events| - 1;
      Chain(events[..n]) + (if BoundKey(events[n]).Some? then [BoundKey(events[n]).value] else [])
  }

  /** A rotation of the history leads from one key to the other. */
  predicate Linked(events: seq<Event>, from: Jwk, to: Jwk) {
    exists i | 0 <= i < |events| ::
      && events[i].kind.KeyRotation?
      && events[i].kind.previousThumbprint == from.thumbprint && events[i].kind.newKey == Some(to)
  }

  lemma LinkedGrows(events: seq<Event>, n: nat, from: Jwk, to: Jwk)
    requires n <= |events| && Linked(events[..n], from, to)
    ensures Linked(events, from, to)
  {
  }

  predicate ChainLinked(events: seq<Event>) {
    var chain := Chain(events);
    forall i | 0 <= i < |chain| - 1 ::
      Linked(events, chain[i], chain[i + 1]) && chain[i].thumbprint != chain[i + 1].thumbprint
  }

  predicate ChainEnds(events: seq<Event>)
    requires events != []
  {
    var chain := Chain(events);
    && events[0].kind.Issuance? && events[0].kind.entityKey.Some?
    && chain != [] && Some(chain[0]) == events[0].kind.operationalKey
    && Some(chain[|chain| - 1]) == BoundKey(events[LastBinding(events)])
    && forall i | 0 <= i < |chain| :: chain[i].thumbprint != events[0].kind.entityKey.value.thumbprint
  }

  /** What one valid event does to the chain: a rotation adds its key, and nothing else adds any. */
  lemma {:induction false} ChainAppend(rest: seq<Event>, e: Event)
    requires rest != [] && ChainEnds(rest) && ValidAt(rest + [e], |rest|)
    ensures Chain(rest + [e]) == Chain(rest) + if e.kind.KeyRotation? then [e.kind.newKey.value] else []
    ensures e.kind.KeyRotation? ==>
              var last := Chain(rest)[|Chain(rest)| - 1];
              Continues(e.kind, last.thumbprint, rest[0].kind.entityKey.value.thumbprint)
    ensures ChainEnds(rest + [e])
  {
  }

  lemma LinksAppend(rest: seq<Event>, e: Event)
    requires rest != [] && ChainEnds(rest) && ChainLinked(rest) && ValidAt(rest + [e], |rest|)
    ensures ChainLinked(rest + [e])
  {
    hide ValidAt, Chain, Linked, ChainEnds;
    ChainAppend(rest, e);
    var events := rest + [e];
    var before, chain := Chain(rest), Chain(events);
    assert events[..|rest|] == rest;
    forall i | 0 <= i < |chain| - 1
      ensures Linked(events, chain[i], chain[i + 1]) && chain[i].thumbprint != chain[i + 1].thumbprint
    {
      if i < |before| - 1 {
        LinkedGrows(events, |rest|, chain[i], chain[i + 1]);
      } else {
        LinkedByLast(rest, e, chain[i]);
      }
    }
  }

  lemma LinkedByLast(rest: seq<Event>, e: Event, from: Jwk)
    requires e.kind.KeyRotation? && e.kind.newKey.Some? && e.kind.previousThumbprint == from.thumbprint
    ensures Linked(rest + [e], from, e.kind.newKey.value)
  {
    assert (rest + [e])[|rest|] == e;
  }

  /** A rotation leads from every key of the chain to the next, each step changes the key, and no key is
      the entity key; the chain starts at the issued key and ends at the one bound last. */
  lemma {:induction false} ChainUnbroken(events: seq<Event>)
    requires ValidHistory(events) && events != []
    ensures ChainEnds(events) && ChainLinked(events)
  {
    var n := |events| - 1;
    if n == 0 {
      assert ValidAt(events, 0);
      assert Chain(events[..0]) == [];
    } else {
      hide ValidAt, ChainEnds, ChainLinked;
      assert events == events[..n] + [events[n]];
      ValidHistoryAppend(events[..n], events[n]);
      ChainUnbroken(events[..n]);
      ChainAppend(events[..n], events[n]);
      LinksAppend(events[..n], events[n]);
    }
  }

  /** The active key of a successful snapshot is the end of that chain. */
  lemma ActiveKeyEndsTheChain(domain: string, events: seq<Event>, at: int)
    requires TakeSnapshot(domain, events, at).Ok?
    ensures var s := TakeSnapshot(domain, events, at).value;
            && Chain(s.events) != [] && s.activeKey == Chain(s.events)[|Chain(s.events)| - 1]
            && s.events[0].kind.Issuance? && Some(Chain(s.events)[0]) == s.events[0].kind.operationalKey
            && s.events[0].kind.entityKey.Some? && s.thumbprint != s.events[0].kind.entityKey.value.thumbprint
  {
    hide TakeSnapshot, Continues, ValidMigration, ValidReason;
    SnapshotHolds(domain, events, at);
    var s := TakeSnapshot(domain, events, at).value;
    assert ValidAt(s.events, 0);
    ChainUnbroken(s.events);
  }

  // ---- Later snapshots ----

  lemma CutGrows(events: seq<Event>, at: int, later: int)
    requires at <= later
    ensures Cut(events, at) <= Cut(events, later)
  {
  }

  /** A later successful snapshot of the same log extends an earlier one; after a terminal event it is the
      same history, in the same state, with the same key. */
  lemma LaterSnapshotExtends(domain: string, events: seq<Event>, at: int, later: int)
    requires at <= later && TakeSnapshot(domain, events, at).Ok? && TakeSnapshot(domain, events, later).Ok?
    ensures var s, t := TakeSnapshot(domain, events, at).value, TakeSnapshot(domain, events, later).value;
            && s.events <= t.events && Chain(s.events) <= Chain(t.events) && s.governance == t.governance
            && (s.status.Revoked? || s.status.Retired? ==> t == s.(at := later))
  {
    hide TakeSnapshot, ValidHistory, ValidAt, Chain;
    SnapshotHolds(domain, events, at);
    SnapshotHolds(domain, events, later);
    CutGrows(events, at, later);
    var s, t := TakeSnapshot(domain, events, at).value, TakeSnapshot(domain, events, later).value;
    assert s.events == t.events[..|s.events|];
    ChainGrows(t.events, |s.events|);
  }

  lemma {:induction false} ChainGrows(events: seq<Event>, n: nat)
    requires n <= |events|
    ensures Chain(events[..n]) <= Chain(events)
  {
    if n == |events| {
      assert events[..n] == events;
    } else {
      var rest := events[..|events| - 1];
      assert rest[..n] == events[..n];
      ChainGrows(rest, n);
    }
  }
}
