/** The lifecycle reducer `DomainLog.snapshot_at` (dnsid/models.py:1313-1484): a loop over the verified
    events of a domain, and what a snapshot that succeeds says about them. */
module Lifecycle {
  import opened Options

  /** A public key, with its thumbprint. */
  datatype Jwk = Jwk(material: string, thumbprint: string)

  datatype Kind =
    | Issuance(governance: string, entityKey: Option<Jwk>, operationalKey: Option<Jwk>)
    | KeyRotation(previousThumbprint: string, newThumbprint: string, newKey: Option<Jwk>)
    | Revocation(reason: string)
    | Retirement
    | Migration(previousLog: string, newLog: string, finalEntryRef: string)
    | Delegation
    | Unsupported

  /** An event; one without a timestamp is no lifecycle event. */
  datatype Event = Event(domain: string, time: Option<int>, kind: Kind)

  datatype Status = Nothing | Active | Revoked | Retired

  datatype Category =
    | GenesisRequired | DuplicateIssuance | InvalidIssuance | TerminalState | DomainMismatch | KeyContinuity
    | InvalidReason | InvalidMigration | SnapshotEmpty | SnapshotNonPrefix | UnsupportedEvent

  datatype Outcome<+T> = Ok(value: T) | Err(category: Category, index: Option<nat>)

  /** The loop's variables. */
  datatype Reducer = Reducer(
    status: Status, entityKey: Option<Jwk>, activeKey: Option<Jwk>, thumbprint: string, boundAt: int,
    governance: string, events: seq<Event>, past: bool)

  datatype Snapshot = Snapshot(
    domain: string, status: Status, activeKey: Jwk, thumbprint: string, boundAt: int, governance: string,
    at: int, events: seq<Event>)

  const ZERO_TIME: int := 0

  const START := Reducer(Nothing, None, None, "", ZERO_TIME, "", [], false)

  predicate ValidReason(reason: string) {
    reason == "keyCompromise" || reason == "policyViolation" || reason == "superseded"
        || reason == "cessationOfOperation"
  }

  predicate ValidIssuance(k: Kind)
    requires k.Issuance?
  {
    k.entityKey.Some? && k.operationalKey.Some? && k.entityKey.value.thumbprint != k.operationalKey.value.thumbprint
  }

  predicate ValidMigration(k: Kind)
    requires k.Migration?
  {
    k.previousLog != "" && k.newLog != "" && k.finalEntryRef != "" && k.previousLog != k.newLog
  }

  /** The rotation continues from the active key, to a new one that is not the entity key. */
  predicate Continues(k: Kind, active: string, entity: string)
    requires k.KeyRotation?
  {
    && k.previousThumbprint == active
    && k.newKey.Some? && k.newThumbprint == k.newKey.value.thumbprint
    && k.newThumbprint != active && k.newThumbprint != entity
  }

  // ---- The reduction ----

  /** One event at or before the snapshot time. */
  function Absorb(r: Reducer, e: Event, time: int, i: nat): Outcome<Reducer> {
    var r1 := r.(events := r.events + [e]);
    if r.status.Nothing? && !e.kind.Issuance? then Err(GenesisRequired, Some(i))
    else if r.status.Revoked? || r.status.Retired? then Err(TerminalState, Some(i))
    else match e.kind
         case Issuance(governance, entityKey, operationalKey) =>
           if !r.status.Nothing? then Err(DuplicateIssuance, Some(i))
           else if !ValidIssuance(e.kind) then Err(InvalidIssuance, Some(i))
           else Ok(r1.(status := Active, entityKey := entityKey, activeKey := operationalKey,
                       thumbprint := operationalKey.value.thumbprint, boundAt := time, governance := governance))
         case KeyRotation(_, newThumbprint, newKey) =>
           if r.activeKey.None? || r.entityKey.None? || !Continues(e.kind, r.thumbprint, r.entityKey.value.thumbprint)
           then Err(KeyContinuity, Some(i))
           else Ok(r1.(activeKey := newKey, thumbprint := newThumbprint, boundAt := time))
         case Revocation(reason) =>
           if !ValidReason(reason) then Err(InvalidReason, Some(i)) else Ok(r1.(status := Revoked))
         case Retirement => Ok(r1.(status := Retired))
         case Migration(_, _, _) => if !ValidMigration(e.kind) then Err(InvalidMigration, Some(i)) else Ok(r1)
         case Delegation => Ok(r1)
         case Unsupported => Err(UnsupportedEvent, Some(i))
  }

  function Next(domain: string, at: int, r: Reducer, e: Event, i: nat): Outcome<Reducer> {
    if e.domain != domain then Err(DomainMismatch, Some(i))
    else if e.time.None? then Err(UnsupportedEvent, Some(i))
    else if e.time.value > at then Ok(r.(past := true))
    else if r.past then Err(SnapshotNonPrefix, Some(i))
    else Absorb(r, e, e.time.value, i)
  }

  function Reduce(domain: string, at: int, events: seq<Event>): Outcome<Reducer> {
    if events == [] then Ok(START)
    else
      var n := |events| - 1;
      match Reduce(domain, at, events[..n])
      case Err(c, i) => Err(c, i)
      case Ok(r) => Next(domain, at, r, events[n], n)
  }

  function Finish(domain: string, at: int, r: Reducer): Outcome<Snapshot> {
    if r.events == [] then Err(SnapshotEmpty, None)
    else if r.status.Nothing? || r.activeKey.None? then Err(GenesisRequired, None)
    else Ok(Snapshot(domain, r.status, r.activeKey.value, r.thumbprint, r.boundAt, r.governance, at, r.events))
  }

  function TakeSnapshot(domain: string, events: seq<Event>, at: int): Outcome<Snapshot> {
    if events == [] then Err(SnapshotEmpty, None)
    else match Reduce(domain, at, events)
         case Err(c, i) => Err(c, i)
         case Ok(r) => Finish(domain, at, r)
  }

  /** `snapshot_at`. */
  method SnapshotAt(domain: string, events: seq<Event>, at: int) returns (r: Outcome<Snapshot>)
    ensures r == TakeSnapshot(domain, events, at)
  {
    hide Absorb;
    if events == [] {
      return Err(SnapshotEmpty, None);
    }
    var reducer := START;
    for i := 0 to |events|
      invariant Reduce(domain, at, events[..i]) == Ok(reducer)
    {
      ReduceDecides(domain, at, events, i);
      var event := events[i];
      if event.domain != domain {
        return Err(DomainMismatch, Some(i));
      }
      if event.time.None? {
        return Err(UnsupportedEvent, Some(i));
      }
      if event.time.value > at {
        reducer := reducer.(past := true);
        continue;
      }
      if reducer.past {
        return Err(SnapshotNonPrefix, Some(i));
      }
      var absorbed := AbsorbEvent(reducer, event, event.time.value, i);
      if absorbed.Err? {
        return Err(absorbed.category, absorbed.index);
      }
      reducer := absorbed.value;
    }
    assert events[..|events|] == events;
    if reducer.events == [] {
      return Err(SnapshotEmpty, None);
    }
    if reducer.status.Nothing? || reducer.activeKey.None? {
      return Err(GenesisRequired, None);
    }
    return Ok(Snapshot(domain, reducer.status, reducer.activeKey.value, reducer.thumbprint, reducer.boundAt,
                       reducer.governance, at, reducer.events));
  }

  /** The body of the loop for an event within the snapshot. */
  method AbsorbEvent(r: Reducer, event: Event, time: int, i: nat) returns (out: Outcome<Reducer>)
    ensures out == Absorb(r, event, time, i)
  {
    var next := r.(events := r.events + [event]);
    if next.status.Nothing? && !event.kind.Issuance? {
      return Err(GenesisRequired, Some(i));
    }
    if next.status.Revoked? || next.status.Retired? {
      return Err(TerminalState, Some(i));
    }
    match event.kind {
      case Issuance(governance, entityKey, operationalKey) =>
        if !next.status.Nothing? {
          return Err(DuplicateIssuance, Some(i));
        }
        if entityKey.None? || operationalKey.None? || entityKey.value.thumbprint == operationalKey.value.thumbprint {
          return Err(InvalidIssuance, Some(i));
        }
        next := next.(status := Active, entityKey := entityKey, activeKey := operationalKey,
                      thumbprint := operationalKey.value.thumbprint, boundAt := time, governance := governance);
      case KeyRotation(previous, thumbprint, key) =>
        if next.activeKey.None? || next.entityKey.None? || previous != next.thumbprint || key.None?
           || thumbprint != key.value.thumbprint || thumbprint == next.thumbprint
           || thumbprint == next.entityKey.value.thumbprint
        {
          return Err(KeyContinuity, Some(i));
        }
        next := next.(activeKey := key, thumbprint := thumbprint, boundAt := time);
      case Revocation(reason) =>
        if !ValidReason(reason) {
          return Err(InvalidReason, Some(i));
        }
        next := next.(status := Revoked);
      case Retirement =>
        next := next.(status := Retired);
      case Migration(previous, new_, last) =>
        if previous == "" || new_ == "" || last == "" || previous == new_ {
          return Err(InvalidMigration, Some(i));
        }
      case Delegation =>
      case Unsupported =>
        return Err(UnsupportedEvent, Some(i));
    }
    return Ok(next);
  }

  /** The outcome on a prefix decides: an error stays, and the next event is taken after it. */
  lemma {:induction false} ReduceDecides(domain: string, at: int, events: seq<Event>, i: nat)
    requires i < |events|
    ensures Reduce(domain, at, events[..i + 1]).Err? ==>
            Reduce(domain, at, events) == Reduce(domain, at, events[..i + 1])
    ensures Reduce(domain, at, events[..i]).Ok? ==>
              Reduce(domain, at, events[..i + 1]) ==
                  Next(domain, at, Reduce(domain, at, events[..i]).value, events[i], i)
    decreases |events|
  {
    hide Next;
    assert events[..i + 1][..i] == events[..i];
    if i + 1 == |events| {
      assert events[..i + 1] == events;
    } else {
      var rest := events[..|events| - 1];
      ReduceDecides(domain, at, rest, i);
      assert rest[..i + 1] == events[..i + 1];
    }
  }
}
