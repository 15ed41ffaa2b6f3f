/** Which failure a log comes to, said of the log itself: the first event that spoils it, and the category as a
    function of that event and of what precedes it. */
module LifecycleFailures {
  import opened Options
  import opened Lifecycle
  import opened LifecycleTheorems

  /** The thumbprint of the key bound last before this event. */
  function KeyBefore(events: seq<Event>, i: nat): Option<string>
    requires 0 < i <= |events|
  {
    var key := BoundKey(events[LastBinding(events[..i])]);
    if key.Some? then Some(key.value.thumbprint) else None
  }

  /** The rotation does not continue the chain: it does not start from the key bound last, brings no key or one
      under another thumbprint, or changes to that same key or to the entity key. */
  predicate BreaksTheChain(events: seq<Event>, i: nat)
    requires 0 < i < |events| && events[i].kind.KeyRotation?
  {
    var k := events[i].kind;
    || KeyBefore(events, i) != Some(k.previousThumbprint)
    || k.newKey.None? || k.newKey.value.thumbprint != k.newThumbprint
    || k.newThumbprint == k.previousThumbprint
    || !events[0].kind.Issuance? || events[0].kind.entityKey.None?
    || k.newThumbprint == events[0].kind.entityKey.value.thumbprint
  }

  /** What an event within the snapshot, after a valid history, fails with. */
  predicate FailsAs(events: seq<Event>, i: nat, c: Category)
    requires i < |events|
  {
    var k := events[i].kind;
    var over := i > 0 && (events[i - 1].kind.Revocation? || events[i - 1].kind.Retirement?);
    match c
    case GenesisRequired => i == 0 && !k.Issuance?
    case TerminalState => over
    case DuplicateIssuance => i > 0 && !over && k.Issuance?
    case InvalidIssuance =>
      && i == 0 && k.Issuance?
      && (|| k.entityKey.None? || k.operationalKey.None?
          || k.entityKey.value.thumbprint == k.operationalKey.value.thumbprint)
    case KeyContinuity => i > 0 && !over && k.KeyRotation? && BreaksTheChain(events, i)
    case InvalidReason =>
      && i > 0 && !over && k.Revocation?
      && k.reason !in ["keyCompromise", "policyViolation", "superseded", "cessationOfOperation"]
    case InvalidMigration =>
      && i > 0 && !over && k.Migration?
      && (k.previousLog == "" || k.newLog == "" || k.finalEntryRef == "" || k.previousLog == k.newLog)
    case UnsupportedEvent => i > 0 && !over && k.Unsupported?
    case _ => false
  }

  /** What this event fails with, everything before it being consistent: another domain, no timestamp, a time
      within the snapshot after an event past it, or what its place in the history does not allow. */
  predicate SpoilsAs(domain: string, events: seq<Event>, i: nat, at: int, c: Category)
    requires i < |events|
  {
    var e := events[i];
    if e.domain != domain then c == DomainMismatch
    else if e.time.None? then c == UnsupportedEvent
    else if e.time.value > at then false
    else if exists j | 0 <= j < i :: events[j].time.Some? && events[j].time.value > at then c == SnapshotNonPrefix
    else Cut(events[..i], at) == i && FailsAs(events, i, c)
  }

  lemma CutBelow(events: seq<Event>, at: int)
    requires forall j | 0 <= j < |events| :: events[j].time.Some?
    ensures Cut(events, at) < |events| <==>
            exists j | 0 <= j < |events| :: events[j].time.Some? && events[j].time.value > at
  {
    var n := Cut(events, at);
    if n < |events| {
      assert !Within(events[n], at);
    } else {
      assert forall j | 0 <= j < |events| :: Within(events[j], at);
    }
  }

  /** One event within the snapshot, on top of a valid history. */
  lemma AbsorbFailsAs(r: Reducer, rest: seq<Event>, e: Event, i: nat, c: Category)
    requires Describes(r, rest) && e.time.Some? && i == |rest|
    ensures Absorb(r, e, e.time.value, i) == Err(c, Some(i)) <==> FailsAs(rest + [e], i, c)
  {
    hide LastBinding;
    if rest != [] {
      AppendKeepsHead(rest, e);
    }
  }

  lemma NextFailsAs(domain: string, at: int, r: Reducer, rest: seq<Event>, e: Event, c: Category)
    requires Consistent(domain, rest, at)
    requires Describes(r, rest[..Cut(rest, at)]) && (r.past <==> Cut(rest, at) < |rest|)
    ensures var events := rest + [e];
            events[..|rest|] == rest &&
            (Next(domain, at, r, e, |rest|) == Err(c, Some(|rest|)) <==> SpoilsAs(domain, events, |rest|, at, c))
  {
    hide Absorb, Describes, FailsAs, ValidHistory;
    var events := rest + [e];
    assert events[..|rest|] == rest && events[|rest|] == e;
    assert forall j | 0 <= j < |rest| :: events[j] == rest[j];
    CutBelow(rest, at);
    if Cut(rest, at) == |rest| && e.time.Some? {
      assert rest[..|rest|] == rest;
      AbsorbFailsAs(r, rest, e, |rest|, c);
    }
  }

  /** Exactly which failure a snapshot comes to.  It names event `i` with category `c` if and only if everything
      before `i` is consistent and that event spoils the log in the way of that category; it names no event only
      for an empty snapshot of a consistent log. */
  lemma SnapshotFailsExactly(domain: string, events: seq<Event>, at: int, c: Category, i: nat)
    ensures TakeSnapshot(domain, events, at) == Err(c, Some(i)) <==>
            i < |events| && Consistent(domain, events[..i], at) && SpoilsAs(domain, events, i, at, c)
    ensures TakeSnapshot(domain, events, at) == Err(c, None) <==>
            c == SnapshotEmpty && Consistent(domain, events, at) && Cut(events, at) == 0
  {
    hide Reduce, Consistent, SpoilsAs, Describes, Next;
    ReduceMeans(domain, at, events);
    if i < |events| {
      ReduceFailsAs(domain, at, events, i, c);
    }
    FinishFails(domain, at, events);
    if Reduce(domain, at, events).Err? {
      FailureNamesTheFirstBadEvent(domain, events, at);
    }
  }

  lemma FinishFails(domain: string, at: int, events: seq<Event>)
    requires Reduce(domain, at, events).Ok? ==>
               Describes(Reduce(domain, at, events).value, events[..Cut(events, at)])
    ensures Reduce(domain, at, events).Ok? ==>
              var f := Finish(domain, at, Reduce(domain, at, events).value);
              if Cut(events, at) == 0 then f == Err(SnapshotEmpty, None) else f.Ok?
    ensures events == [] ==> Reduce(domain, at, events).Ok? && Cut(events, at) == 0
  {
    hide LastBinding;
  }

  lemma ReduceFailsAs(domain: string, at: int, events: seq<Event>, i: nat, c: Category)
    requires i < |events|
    ensures Reduce(domain, at, events) == Err(c, Some(i)) <==>
            Consistent(domain, events[..i], at) && SpoilsAs(domain, events, i, at, c)
  {
    hide Consistent, SpoilsAs, Describes, Next;
    var rest, upTo := events[..i], events[..i + 1];
    assert upTo == rest + [events[i]] && upTo[..i] == rest;
    ReduceDecides(domain, at, events, i);
    ReduceMeans(domain, at, rest);
    if Consistent(domain, rest, at) {
      NextFailsAs(domain, at, Reduce(domain, at, rest).value, rest, events[i], c);
      SpoilsLocally(domain, events, i, at, c);
    }
    if Reduce(domain, at, events).Err? {
      FailureNamesTheFirstBadEvent(domain, events, at);
      if Reduce(domain, at, events) == Err(c, Some(i)) {
        ReduceMeans(domain, at, upTo);
      }
    }
  }

  /** What comes after the event does not matter. */
  lemma SpoilsLocally(domain: string, events: seq<Event>, i: nat, at: int, c: Category)
    requires i < |events|
    ensures SpoilsAs(domain, events[..i + 1], i, at, c) <==> SpoilsAs(domain, events, i, at, c)
  {
    hide FailsAs, Cut;
    var upTo := events[..i + 1];
    assert upTo[..i] == events[..i];
    assert forall j | 0 <= j <= i :: upTo[j] == events[j];
    FailsLocally(events, i, c);
  }

  lemma FailsLocally(events: seq<Event>, i: nat, c: Category)
    requires i < |events|
    ensures FailsAs(events[..i + 1], i, c) <==> FailsAs(events, i, c)
  {
    hide LastBinding, BoundKey;
    assert events[..i + 1][..i] == events[..i];
  }
}
