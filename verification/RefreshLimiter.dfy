/** The limiter of mismatch refreshes of the WBA verifier (dnsid/wba_verifier.py:463-479): a map from
    domain to the time before which no further refresh starts.  A thread reads the clock before it
    takes the lock, so the lock regions come in any order of their readings. */
module RefreshLimiters {
  import opened Sets

  /** An attempt in flight never expires; a finished one expires five seconds after its reading. */
  datatype Deadline = Inf | At(time: real)

  const CAPACITY: nat := 1024
  const COOLDOWN: real := 5.0

  predicate After(d: Deadline, now: real) {
    d.Inf? || d.time > now
  }

  function Purge(deadlines: map<string, Deadline>, now: real): map<string, Deadline> {
    map name | name in deadlines && After(deadlines[name], now) :: deadlines[name]
  }

  predicate Admits(deadlines: map<string, Deadline>, domain: string, now: real) {
    domain !in Purge(deadlines, now) && |Purge(deadlines, now)| < CAPACITY
  }

  function Entered(deadlines: map<string, Deadline>, domain: string, now: real): map<string, Deadline> {
    if Admits(deadlines, domain, now) then Purge(deadlines, now)[domain := Inf] else Purge(deadlines, now)
  }

  // ---- The object ----

  class RefreshLimiter {
    var deadlines: map<string, Deadline>

    constructor ()
      ensures deadlines == map[]
    {
      deadlines := map[];
    }

    /** The first lock region; the purge stays even when the attempt is suppressed. */
    method Enter(domain: string, now: real) returns (accepted: bool)
      modifies this
      ensures accepted <==> Admits(old(deadlines), domain, now)
      ensures deadlines == Entered(old(deadlines), domain, now)
    {
      deadlines := map name | name in deadlines && After(deadlines[name], now) :: deadlines[name];
      if domain in deadlines || |deadlines| >= CAPACITY {
        return false;
      }
      deadlines := deadlines[domain := Inf];
      return true;
    }

    /** The lock region of the `finally` block: from then on, and until some reading purges the entry, the
        domain is let in exactly at readings five seconds past the one of this attempt, as far as there is
        room; for every other domain nothing changes. */
    method Leave(domain: string, now: real)
      modifies this
      ensures deadlines == old(deadlines)[domain := At(now + 5.0)]
      ensures forall later: real ::
                Admits(deadlines, domain, later) <==> later >= now + 5.0 && |Purge(deadlines, later)| < 1024
      ensures forall other, later: real | other != domain ::
                other in Purge(deadlines, later) <==> other in Purge(old(deadlines), later)
    {
      deadlines := deadlines[domain := At(now + COOLDOWN)];
    }
  }

  // ---- Every interleaving ----

  datatype Attempt = Attempt(domain: string, now: real)

  /** A lock region, as it happened. */
  datatype Region = Start(domain: string, now: real, accepted: bool) | End(domain: string, now: real)

  /** Which thread takes the lock next: a new one, with its reading, or one whose refresh ended. */
  datatype Choice = Enter(thread: nat, domain: string, now: real) | Leave(thread: nat)

  /** `log` records the lock regions in their order; it is never read. */
  datatype State = State(deadlines: map<string, Deadline>, running: map<nat, Attempt>, log: seq<Region>)

  const INITIAL := State(map[], map[], [])

  function Step(s: State, c: Choice): State {
    match c
    case Enter(t, domain, now) =>
      if t in s.running then s
      else
        var accepted := Admits(s.deadlines, domain, now);
        State(Entered(s.deadlines, domain, now),
              if accepted then s.running[t := Attempt(domain, now)] else s.running,
              s.log + [Start(domain, now, accepted)])
    case Leave(t) =>
      if t !in s.running then s
      else
        var a := s.running[t];
        State(s.deadlines[a.domain := At(a.now + COOLDOWN)], s.running - {t}, s.log + [End(a.domain, a.now)])
  }

  function Run(s: State, choices: seq<Choice>): State
    decreases |choices|
  {
    if choices == [] then s else Run(Step(s, choices[0]), choices[1..])
  }

  predicate InFlight(s: State, domain: string) {
    exists t | t in s.running :: s.running[t].domain == domain
  }

  /** Some thread has entered the lock with a reading this late. */
  predicate Reached(log: seq<Region>, time: real) {
    exists i | 0 <= i < |log| :: log[i].Start? && log[i].now >= time
  }

  /** The cooldown of the domain's last refresh is over at `now`, or was over at the reading of some
      thread that entered since. */
  predicate Cooled(log: seq<Region>, domain: string, now: real) {
    if log == [] then true
    else
      var rest := log[..|log| - 1];
      match log[|log| - 1]
      case Start(_, reading, _) => Cooled(rest, domain, if reading > now then reading else now)
      case End(d, a) => if d == domain then now >= a + COOLDOWN else Cooled(rest, domain, now)
  }

  // ---- The invariant ----

  ghost predicate OneInFlight(s: State) {
    && (forall t, u | t in s.running && u in s.running && t != u :: s.running[t].domain != s.running[u].domain)
    && (forall t | t in s.running :: s.running[t].domain in s.deadlines && s.deadlines[s.running[t].domain].Inf?)
    && forall d | d in s.deadlines && s.deadlines[d].Inf? :: InFlight(s, d)
  }

  ghost predicate Tracks(s: State) {
    forall d: string, now: real ::
      Cooled(s.log, d, now) <==> !(d in s.deadlines && s.deadlines[d].At? && s.deadlines[d].time > now)
  }

  ghost predicate Inv(s: State) {
    OneInFlight(s) && |s.deadlines| <= CAPACITY && Tracks(s)
  }

  lemma EnterTracks(s: State, t: nat, domain: string, reading: real)
    requires Inv(s) && t !in s.running
    ensures Tracks(Step(s, Enter(t, domain, reading)))
  {
  }

  lemma LeaveTracks(s: State, t: nat)
    requires Inv(s) && t in s.running
    ensures Tracks(Step(s, Leave(t)))
  {
  }

  lemma PurgeShrinks(deadlines: map<string, Deadline>, now: real)
    ensures |Purge(deadlines, now)| <= |deadlines|
  {
    SubsetSize(Purge(deadlines, now).Keys, deadlines.Keys);
  }

  lemma AcceptedOneInFlight(s: State, t: nat, domain: string, now: real)
    requires OneInFlight(s) && t !in s.running && Admits(s.deadlines, domain, now)
    ensures OneInFlight(Step(s, Enter(t, domain, now)))
  {
    var v := Step(s, Enter(t, domain, now));
    forall d | d in v.deadlines && v.deadlines[d].Inf?
      ensures InFlight(v, d)
    {
      if d == domain {
        assert t in v.running && v.running[t].domain == d;
      } else {
        var u :| u in s.running && s.running[u].domain == d;
        assert u in v.running && v.running[u].domain == d;
      }
    }
  }

  lemma LeaveOneInFlight(s: State, t: nat)
    requires OneInFlight(s) && t in s.running
    ensures OneInFlight(Step(s, Leave(t)))
    ensures |Step(s, Leave(t)).deadlines| == |s.deadlines|
  {
    var v := Step(s, Leave(t));
    assert v.deadlines.Keys == s.deadlines.Keys;
    forall d | d in v.deadlines && v.deadlines[d].Inf?
      ensures InFlight(v, d)
    {
      var u :| u in s.running && s.running[u].domain == d;
      assert u in v.running && v.running[u].domain == d;
    }
  }

  lemma StepOneInFlight(s: State, c: Choice)
    requires OneInFlight(s) && |s.deadlines| <= CAPACITY
    ensures OneInFlight(Step(s, c)) && |Step(s, c).deadlines| <= CAPACITY
  {
    match c
    case Enter(t, domain, now) =>
      PurgeShrinks(s.deadlines, now);
      if t !in s.running && Admits(s.deadlines, domain, now) {
        AcceptedOneInFlight(s, t, domain, now);
      }
    case Leave(t) => if t in s.running { LeaveOneInFlight(s, t); }
  }

  lemma StepInv(s: State, c: Choice)
    requires Inv(s)
    ensures Inv(Step(s, c))
  {
    hide OneInFlight, Tracks;
    StepOneInFlight(s, c);
    match c
    case Enter(t, domain, now) => if t !in s.running { EnterTracks(s, t, domain, now); }
    case Leave(t) => if t in s.running { LeaveTracks(s, t); }
  }

  lemma {:induction false} RunInv(s: State, choices: seq<Choice>)
    requires Inv(s)
    ensures Inv(Run(s, choices))
    decreases |choices|
  {
    hide Inv, Step;
    if choices != [] {
      StepInv(s, choices[0]);
      RunInv(Step(s, choices[0]), choices[1..]);
    }
  }

  // ---- Theorems ----

  /** In every interleaving a domain has at most one refresh in flight, however long it takes, and the
      map never holds more than 1024 domains. */
  lemma OneRefreshPerDomain(choices: seq<Choice>)
    ensures var s := Run(INITIAL, choices);
            && |s.deadlines| <= 1024
            && (forall t, u | t in s.running && u in s.running && t != u :: s.running[t].domain != s.running[u].domain)
            && forall t | t in s.running :: s.running[t].domain in s.deadlines && s.deadlines[s.running[t].domain].Inf?
  {
    hide Run, Step, Tracks;
    InitialInv();
    RunInv(INITIAL, choices);
  }

  lemma InitialInv()
    ensures Inv(INITIAL)
  {
  }

  /** A reading enters a log the domain has cooled in exactly when no refresh of the domain has ended
      yet, or five seconds after the last one's reading have passed, either on this reading or on one
      that entered since. */
  lemma {:induction false} CooledMeans(log: seq<Region>, domain: string, now: real, i: nat)
    requires i < |log| && log[i].End? && log[i].domain == domain
    requires forall j | i < j < |log| :: !(log[j].End? && log[j].domain == domain)
    ensures Cooled(log, domain, now) <==>
            now >= log[i].now + 5.0 || exists j | i < j < |log| ::
                log[j].Start? && log[j].now >= log[i].now + 5.0
  {
    var n := |log| - 1;
    if i < n {
      var rest := log[..n];
      var next := if log[n].Start? && log[n].now > now then log[n].now else now;
      CooledMeans(rest, domain, next, i);
      if exists j | i < j < |log| :: log[j].Start? && log[j].now >= log[i].now + COOLDOWN {
        var j :| i < j < |log| && log[j].Start? && log[j].now >= log[i].now + COOLDOWN;
        assert j < n ==> rest[j] == log[j];
      }
    }
  }

  /** In every interleaving, exactly when an attempt is let through: the domain has nothing in flight,
      its last cooldown is over on this reading or on one that entered the lock since, and there is
      room among the domains still cooling or in flight at this reading. */
  lemma AcceptedExactlyWhen(choices: seq<Choice>, domain: string, now: real)
    ensures var s := Run(INITIAL, choices);
            Admits(s.deadlines, domain, now) <==>
              !InFlight(s, domain) && Cooled(s.log, domain, now) && |Purge(s.deadlines, now)| < 1024
  {
    hide Run, Step;
    InitialInv();
    RunInv(INITIAL, choices);
  }

  // ---- Spacing of the starts ----

  predicate Accepted(r: Region, domain: string) {
    r.Start? && r.accepted && r.domain == domain
  }

  /** What keeps an accepted start apart from the next: it runs, or its deadline stands, or a reading
      five seconds later has entered. */
  predicate Held(s: State, r: Region) {
    r.Start? && r.accepted ==>
      || Reached(s.log, r.now + COOLDOWN)
      || (exists t | t in s.running :: s.running[t].domain == r.domain && s.running[t].now >= r.now)
      || (r.domain in s.deadlines && s.deadlines[r.domain].At? && s.deadlines[r.domain].time >= r.now + COOLDOWN)
  }

  predicate Spaced(log: seq<Region>) {
    forall i, j | 0 <= i < j < |log| && log[i].Start? && Accepted(log[j], log[i].domain) && log[i].accepted ::
      Reached(log[..j + 1], log[i].now + COOLDOWN)
  }

  lemma ReachedAppend(log: seq<Region>, r: Region, time: real)
    ensures Reached(log + [r], time) <==> Reached(log, time) || (r.Start? && r.now >= time)
  {
    var more := log + [r];
    if i :| 0 <= i < |log| && log[i].Start? && log[i].now >= time {
      assert more[i] == log[i];
    }
    assert more[|log|] == r;
  }

  lemma HeldStep(s: State, c: Choice, r: Region)
    requires OneInFlight(s) && Held(s, r)
    ensures Held(Step(s, c), r)
    ensures c.Enter? && c.thread !in s.running && Admits(s.deadlines, c.domain, c.now) && Accepted(r, c.domain) ==>
              Reached(Step(s, c).log, r.now + COOLDOWN)
  {
    var v := Step(s, c);
    if v != s {
      ReachedAppend(s.log, v.log[|s.log|], r.now + COOLDOWN);
      assert v.log == s.log + [v.log[|s.log|]];
      if t: nat :| t in s.running && s.running[t].domain == r.domain && s.running[t].now >= r.now {
        if t in v.running {
          assert v.running[t].domain == r.domain && v.running[t].now >= r.now;
        }
      }
    }
  }

  lemma SpacedStep(s: State, c: Choice)
    requires OneInFlight(s) && Spaced(s.log) && forall r | r in s.log :: Held(s, r)
    ensures Spaced(Step(s, c).log) && forall r | r in Step(s, c).log :: Held(Step(s, c), r)
  {
    hide Held, Admits, Entered, Reached;
    var v := Step(s, c);
    if v != s {
      var last := v.log[|s.log|];
      assert v.log == s.log + [last];
      forall r | r in v.log
        ensures Held(v, r)
      {
        if r in s.log { HeldStep(s, c, r); } else { assert r == last; NewHeld(s, c); }
      }
      forall i, j | 0 <= i < j < |v.log| && v.log[i].Start? && Accepted(v.log[j], v.log[i].domain) && v.log[i].accepted
        ensures Reached(v.log[..j + 1], v.log[i].now + COOLDOWN)
      {
        if j < |s.log| {
          assert v.log[..j + 1] == s.log[..j + 1];
        } else {
          assert v.log[..j + 1] == v.log && v.log[i] in s.log;
          HeldStep(s, c, v.log[i]);
        }
      }
    }
  }

  lemma NewHeld(s: State, c: Choice)
    requires Step(s, c) != s
    ensures |Step(s, c).log| == |s.log| + 1 && Held(Step(s, c), Step(s, c).log[|s.log|])
  {
    var v := Step(s, c);
    if c.Enter? && Admits(s.deadlines, c.domain, c.now) {
      assert v.running[c.thread].domain == c.domain;
    }
  }

  lemma {:induction false} RunSpaced(s: State, choices: seq<Choice>)
    requires Inv(s) && Spaced(s.log) && forall r | r in s.log :: Held(s, r)
    ensures Spaced(Run(s, choices).log)
    decreases |choices|
  {
    hide Inv, Step, Held, Spaced;
    if choices != [] {
      assert OneInFlight(s) by { InvOneInFlight(s); }
      StepInv(s, choices[0]);
      SpacedStep(s, choices[0]);
      RunSpaced(Step(s, choices[0]), choices[1..]);
    }
  }

  lemma InvOneInFlight(s: State)
    requires Inv(s)
    ensures OneInFlight(s)
  {
  }

  /** Two accepted starts of a domain, in any interleaving and any lock order: by the second one, some
      thread has entered with a reading five seconds past the first one's. */
  lemma StartsAreSpaced(choices: seq<Choice>, i: nat, j: nat)
    requires var log := Run(INITIAL, choices).log;
             i < j < |log| && log[i].Start? && log[i].accepted && Accepted(log[j], log[i].domain)
    ensures var log := Run(INITIAL, choices).log;
            Reached(log[..j + 1], log[i].now + 5.0)
  {
    hide Run, Step, Held;
    InitialInv();
    RunSpaced(INITIAL, choices);
  }

  /** The readings enter the lock in clock order. */
  predicate InClockOrder(log: seq<Region>) {
    forall i, j | 0 <= i < j < |log| && log[i].Start? && log[j].Start? :: log[i].now <= log[j].now
  }

  /** When threads take the lock in the order of their readings, two starts of a domain are at least
      five seconds apart on those readings. */
  lemma FiveSecondsApartInClockOrder(choices: seq<Choice>, i: nat, j: nat)
    requires var log := Run(INITIAL, choices).log;
             && i < j < |log| && log[i].Start? && log[i].accepted && Accepted(log[j], log[i].domain)
             && InClockOrder(log)
    ensures var log := Run(INITIAL, choices).log;
            log[j].now >= log[i].now + 5.0
  {
    hide Run;
    StartsAreSpaced(choices, i, j);
  }

  /** Out of clock order the promise fails, exactly so: an attempt whose reading is still within five
      seconds of the last one's is let through if and only if some other thread entered the lock, since
      that refresh ended, with a reading past the five seconds. */
  lemma TooSoonExactlyWhen(choices: seq<Choice>, domain: string, now: real, i: nat)
    requires var s := Run(INITIAL, choices);
             && i < |s.log| && s.log[i].End? && s.log[i].domain == domain && now < s.log[i].now + 5.0
             && (forall j | i < j < |s.log| :: !(s.log[j].End? && s.log[j].domain == domain))
             && !InFlight(s, domain) && |Purge(s.deadlines, now)| < 1024
    ensures var s := Run(INITIAL, choices);
            Admits(s.deadlines, domain, now) <==>
              exists j | i < j < |s.log| :: s.log[j].Start? && s.log[j].now >= s.log[i].now + 5.0
  {
    hide Run, Step, InFlight, Cooled, Purge;
    AcceptedExactlyWhen(choices, domain, now);
    CooledMeans(Run(INITIAL, choices).log, domain, now, i);
  }

  lemma Admitted(s: State, t: nat, domain: string, now: real, purged: map<string, Deadline>)
    requires t !in s.running && Purge(s.deadlines, now) == purged && domain !in purged && |purged| < CAPACITY
    ensures Step(s, Enter(t, domain, now)) ==
            State(purged[domain := Inf], s.running[t := Attempt(domain, now)], s.log + [Start(domain, now, true)])
  {
  }

  lemma OneRefresh(a: string, x: real, rest: seq<Choice>)
    ensures Run(INITIAL, [Enter(0, a, x)] + ([Leave(0)] + rest)) ==
            Run(State(map[a := At(x + COOLDOWN)], map[], [Start(a, x, true), End(a, x)]), rest)
  {
    hide Admits, Entered;
    Admitted(INITIAL, 0, a, x, map[]);
    var s := Step(INITIAL, Enter(0, a, x));
    assert ([Enter(0, a, x)] + ([Leave(0)] + rest))[1..] == [Leave(0)] + rest && ([Leave(0)] + rest)[1..] == rest;
    var deadlines: map<string, Deadline> := map[a := Inf];
    assert deadlines[a := At(x + COOLDOWN)] == map[a := At(x + COOLDOWN)] && s.running - {0} == map[];
    assert Step(s, Leave(0)) == State(map[a := At(x + COOLDOWN)], map[], [Start(a, x, true), End(a, x)]);
  }

  /** A thread for domain `c` reads `x + 6` and enters before a thread for domain `a` that read `x + 1`. */
  function Overtaking(a: string, c: string, x: real): seq<Choice> {
    [Enter(0, a, x), Leave(0), Enter(1, c, x + 6.0), Enter(2, a, x + 1.0)]
  }

  /** For instance, from any reading and for any two domains: the overtaking thread purges the entry
      that would have held the other one back, and two starts of a domain are one second apart. */
  lemma OneSecondApartOutOfOrder(a: string, c: string, x: real)
    requires a != c
    ensures Run(INITIAL, Overtaking(a, c, x)).log ==
            [Start(a, x, true), End(a, x), Start(c, x + 6.0, true), Start(a, x + 1.0, true)]
  {
    hide Admits, Entered, Step;
    var e := Overtaking(a, c, x);
    assert e == [e[0]] + ([e[1]] + [e[2], e[3]]);
    OneRefresh(a, x, [e[2], e[3]]);
    var s := State(map[a := At(x + COOLDOWN)], map[], [Start(a, x, true), End(a, x)]);
    Admitted(s, 1, c, x + 6.0, map[]);
    var t := Step(s, e[2]);
    Admitted(t, 2, a, x + 1.0, map[c := Inf]);
    assert [e[2], e[3]][1..] == [e[3]] && [e[3]][1..] == [];
    assert Run(s, [e[2], e[3]]) == Run(t, [e[3]]) == Step(t, e[3]);
  }
}
