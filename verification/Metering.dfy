/**
  The money side of one request: two-scope admission, release, and the billing write. `Books` is
  the shared state as a value; the class `Meter` updates it in place, and each of its methods
  is proved to move the books exactly as the specification functions say.
*/
module Metering {
  import opened Outcomes
  import opened Failover
  import opened Totals

  datatype Scope = KeyScope(key: nat) | TeamScope(team: nat)

  datatype Claim = Claim(scope: Scope, amount: nat)

  datatype Charge = Charge(model: nat, cost: nat)

  datatype Books = Books(
    claims: map<nat, Claim>, nextClaim: nat,                        // the reservation store
    ledger: seq<Charge>, outbox: seq<Charge>, lost: seq<Charge>,    // billing writes, by where they landed
    keyHits: nat, teamHits: nat)                                    // rate-limit counters

  /** Claim ids are handed out once. */
  predicate Wf(b: Books) { forall id :: id in b.claims ==> id < b.nextClaim }

  // ---- What the repositories answer during one admission ----

  datatype KeyGate = KeyFree | KeyAlert | KeyCap(spent: int, limit: int) | KeyBroken
  datatype TeamGate = TeamFree | TeamCap(spent: int, limit: int) | TeamBroken
  datatype Rpm = Unlimited | Limited(allowed: bool)

  datatype Caller = Caller(team: nat, key: nat)
  datatype Gates = Gates(keyGate: KeyGate, teamGate: TeamGate)

  datatype Admission = Admitted(ids: seq<nat>) | Refused(error: Error)

  // ---- The store ----

  ghost function Amounts(claims: map<nat, Claim>, among: set<nat>, scope: Scope): map<nat, nat> {
    map id | id in among && id in claims && claims[id].scope == scope :: claims[id].amount
  }

  ghost function InFlight(claims: map<nat, Claim>, scope: Scope): nat { Total(Amounts(claims, claims.Keys, scope)) }

  lemma OneClaimLess(claims: map<nat, Claim>, among: set<nat>, scope: Scope, id: nat)
    requires id in among && id in claims
    ensures Total(Amounts(claims, among, scope))
            == Total(Amounts(claims, among - {id}, scope)) + if claims[id].scope == scope then claims[id].amount else 0
  {
    var all, less := Amounts(claims, among, scope), Amounts(claims, among - {id}, scope);
    if claims[id].scope == scope {
      TotalWithout(all, id);
      assert all - {id} == less;
    } else {
      assert all == less;
    }
  }

  function Ids(ids: seq<nat>): set<nat> { set id | id in ids }

  function Reserve(b: Books, scope: Scope, amount: nat): Books {
    b.(claims := b.claims[b.nextClaim := Claim(scope, amount)], nextClaim := b.nextClaim + 1)
  }

  function Release(b: Books, ids: seq<nat>): Books { b.(claims := b.claims - Ids(ids)) }

  /** A scope admits iff what is spent plus what is in flight is below its limit. */
  ghost predicate HasRoom(b: Books, scope: Scope, spent: int, limit: int) {
    spent + InFlight(b.claims, scope) < limit
  }

  // ---- Admission, as a function of the books ----

  /** The key's verdict: an error, or the claim it took. */
  ghost function KeyAdmission(b: Books, caller: Caller, gate: KeyGate, amount: nat): Result<(Books, seq<nat>), Error> {
    match gate
    case KeyFree => Ok((b, []))
    case KeyAlert => Ok((b, []))
    case KeyCap(spent, limit) =>
      if HasRoom(b, KeyScope(caller.key), spent, limit) then Ok((Reserve(b, KeyScope(caller.key), amount), [b.nextClaim]))
      else Err(OtherDomain)
    case KeyBroken => Err(Foreign)
  }

  ghost function TeamAdmission(b: Books, caller: Caller, gate: TeamGate, amount: nat): Result<(Books, seq<nat>), Error> {
    match gate
    case TeamFree => Ok((b, []))
    case TeamCap(spent, limit) =>
      if HasRoom(b, TeamScope(caller.team), spent, limit) then Ok((Reserve(b, TeamScope(caller.team), amount), [b.nextClaim]))
      else Err(OtherDomain)
    case TeamBroken => Err(Foreign)
  }

  /** Both gates, key first; a team refusal gives the key's claim back. */
  ghost function GatesAdmission(b: Books, caller: Caller, gates: Gates, amount: nat): (Books, Admission) {
    match KeyAdmission(b, caller, gates.keyGate, amount)
    case Err(e) => (b, Refused(e))
    case Ok((b1, keyIds)) =>
      match TeamAdmission(b1, caller, gates.teamGate, amount)
      case Err(e) => (Release(b1, keyIds), Refused(e))
      case Ok((b2, teamIds)) => (b2, Admitted(keyIds + teamIds))
  }

  lemma ReserveThenRelease(b: Books, scope: Scope, amount: nat)
    requires Wf(b)
    ensures Release(Reserve(b, scope, amount), [b.nextClaim]).claims == b.claims
  {
    var r := Reserve(b, scope, amount);
    assert Ids([b.nextClaim]) == {b.nextClaim};
    assert r.claims - {b.nextClaim} == b.claims;
  }

  /** A claim of one scope is invisible to every other. */
  lemma OtherScopesUnmoved(b: Books, scope: Scope, amount: nat, other: Scope)
    requires Wf(b) && other != scope
    ensures InFlight(Reserve(b, scope, amount).claims, other) == InFlight(b.claims, other)
  {
    var r := Reserve(b, scope, amount).claims;
    assert Amounts(r, r.Keys, other) == Amounts(b.claims, b.claims.Keys, other);
  }

  /** And adds its amount to its own. */
  lemma ReservedInFlight(b: Books, scope: Scope, amount: nat)
    requires Wf(b)
    ensures InFlight(Reserve(b, scope, amount).claims, scope) == InFlight(b.claims, scope) + amount
  {
    var r := Reserve(b, scope, amount).claims;
    OneClaimLess(r, r.Keys, scope, b.nextClaim);
    assert Amounts(r, r.Keys - {b.nextClaim}, scope) == Amounts(b.claims, b.claims.Keys, scope);
  }

  /** A refusal leaves the store as it was; an admission adds fresh claims and nothing else. */
  lemma AdmissionKeepsTheRest(b: Books, caller: Caller, gates: Gates, amount: nat)
    requires Wf(b)
    ensures var (b', r) := GatesAdmission(b, caller, gates, amount);
            && Wf(b') && b'.nextClaim >= b.nextClaim
            && b'.ledger == b.ledger && b'.outbox == b.outbox && b'.lost == b.lost
            && b'.keyHits == b.keyHits && b'.teamHits == b.teamHits
            && (r.Refused? ==> b'.claims == b.claims)
            && (r.Admitted? ==>
                  && b'.claims - Ids(r.ids) == b.claims
                  && (forall id :: id in r.ids ==>
                        id in b'.claims && id >= b.nextClaim
                        && b'.claims[id] in {Claim(KeyScope(caller.key), amount), Claim(TeamScope(caller.team), amount)}))
  {
    hide InFlight;
    match KeyAdmission(b, caller, gates.keyGate, amount)
    case Err(_) =>
    case Ok((b1, keyIds)) =>
      if keyIds != [] { ReserveThenRelease(b, KeyScope(caller.key), amount); }
      match TeamAdmission(b1, caller, gates.teamGate, amount)
      case Err(_) => assert keyIds == [] ==> b1.claims - Ids(keyIds) == b.claims;
      case Ok((b2, teamIds)) => assert b2.claims - Ids(keyIds + teamIds) == b.claims;
  }

  /** Admission is granted exactly when both gates pass on the books as they were before it. */
  lemma AdmittedIff(b: Books, caller: Caller, gates: Gates, amount: nat)
    requires Wf(b)
    ensures var (b', r) := GatesAdmission(b, caller, gates, amount);
            var key, team := KeyScope(caller.key), TeamScope(caller.team);
            && (r.Admitted? <==>
                  && !gates.keyGate.KeyBroken? && !gates.teamGate.TeamBroken?
                  && (gates.keyGate.KeyCap? ==> HasRoom(b, key, gates.keyGate.spent, gates.keyGate.limit))
                  && (gates.teamGate.TeamCap? ==> HasRoom(b, team, gates.teamGate.spent, gates.teamGate.limit)))
            && (r.Admitted? ==> |r.ids| == (if gates.keyGate.KeyCap? then 1 else 0) + if gates.teamGate.TeamCap? then 1 else 0)
            && (r.Refused? ==>
                  var keyFull := gates.keyGate.KeyCap? && !HasRoom(b, key, gates.keyGate.spent, gates.keyGate.limit);
                  r.error == if gates.keyGate.KeyBroken? || (!keyFull && gates.teamGate.TeamBroken?) then Foreign else OtherDomain)
  {
    hide InFlight;
    OtherScopesUnmoved(b, KeyScope(caller.key), amount, TeamScope(caller.team));
  }

  /**
    What an admission puts in flight: the amount in the key's scope if the key is capped, the amount
    in the team's if the team is, and nothing anywhere else.
  */
  lemma AdmissionReserves(b: Books, caller: Caller, gates: Gates, amount: nat, scope: Scope)
    requires Wf(b)
    ensures var (b', r) := GatesAdmission(b, caller, gates, amount);
            var capped := (scope == KeyScope(caller.key) && gates.keyGate.KeyCap?)
                          || (scope == TeamScope(caller.team) && gates.teamGate.TeamCap?);
            InFlight(b'.claims, scope) == InFlight(b.claims, scope) + if r.Admitted? && capped then amount else 0
  {
    AdmissionKeepsTheRest(b, caller, gates, amount);
    hide InFlight, HasRoom;
    var key, team := KeyScope(caller.key), TeamScope(caller.team);
    if GatesAdmission(b, caller, gates, amount).1.Admitted? {
      var b1 := if gates.keyGate.KeyCap? then Reserve(b, key, amount) else b;
      if gates.keyGate.KeyCap? {
        if scope == key { ReservedInFlight(b, key, amount); } else { OtherScopesUnmoved(b, key, amount, scope); }
      }
      if gates.teamGate.TeamCap? {
        if scope == team { ReservedInFlight(b1, team, amount); } else { OtherScopesUnmoved(b1, team, amount, scope); }
      }
    }
  }

  // ---- The billing write ----

  /** Where a billing write lands: the ledger, else the outbox, else only the error log. */
  datatype Write = Recorded | DeadLettered | Dropped

  function Bill(b: Books, charge: Charge, w: Write): Books {
    match w
    case Recorded => b.(ledger := b.ledger + [charge])
    case DeadLettered => b.(outbox := b.outbox + [charge])
    case Dropped => b.(lost := b.lost + [charge])
  }

  /** The charge went to the first place that took it, and nothing else was written. */
  predicate Wrote(b: Books, after: Books, charge: Charge, ledgerUp: bool, outboxUp: bool) {
    && after.ledger == b.ledger + (if ledgerUp then [charge] else [])
    && after.outbox == b.outbox + (if !ledgerUp && outboxUp then [charge] else [])
    && after.lost == b.lost + (if !ledgerUp && !outboxUp then [charge] else [])
  }

  predicate WroteNothing(b: Books, after: Books) {
    after.ledger == b.ledger && after.outbox == b.outbox && after.lost == b.lost
  }

  function Charges(b: Books): nat { |b.ledger| + |b.outbox| + |b.lost| }

  /** What becomes of one attempt's money, in the order it happens. */
  datatype Effect = Billed(charge: Charge) | Spared | GaveBack(ids: seq<nat>)

  function Happen(b: Books, e: Effect, w: Write): Books {
    match e
    case Billed(charge) => Bill(b, charge, w)
    case Spared => b
    case GaveBack(ids) => Release(b, ids)
  }

  /** The books after a list of effects whose billing writes land as `w` says. */
  function Play(b: Books, effects: seq<Effect>, w: Write): Books
    decreases |effects|
  {
    if effects == [] then b else Play(Happen(b, effects[0], w), effects[1..], w)
  }

  // ---- The mutable meter ----

  class Meter {
    var claims: map<nat, Claim>
    var nextClaim: nat
    var ledger: seq<Charge>
    var outbox: seq<Charge>
    var lost: seq<Charge>
    var keyHits: nat
    var teamHits: nat
    ghost var log: seq<Effect>      // the order of billing and release, which the books do not show

    function State(): Books
      reads this
    {
      Books(claims, nextClaim, ledger, outbox, lost, keyHits, teamHits)
    }

    constructor ()
      ensures State() == Books(map[], 0, [], [], [], 0, 0) && log == []
    {
      log := [];
      claims, nextClaim, ledger, outbox, lost, keyHits, teamHits := map[], 0, [], [], [], 0, 0;
    }

    /** The sum the store takes over a scope's live claims. */
    method LiveTotal(scope: Scope) returns (total: nat)
      ensures total == InFlight(claims, scope)
    {
      total := 0;
      var todo := claims.Keys;
      while todo != {}
        invariant todo <= claims.Keys
        invariant total + Total(Amounts(claims, todo, scope)) == InFlight(claims, scope)
        decreases |todo|
      {
        var id :| id in todo;
        OneClaimLess(claims, todo, scope, id);
        if claims[id].scope == scope { total := total + claims[id].amount; }
        todo := todo - {id};
      }
      assert Amounts(claims, {}, scope) == map[];
    }

    /** One atomic step: read the in-flight total, decide, record. */
    method TryReserve(scope: Scope, amount: nat, spent: int, limit: int) returns (ids: seq<nat>)
      modifies this
      ensures HasRoom(old(State()), scope, spent, limit) ==>
                ids == [old(nextClaim)] && State() == Reserve(old(State()), scope, amount)
      ensures !HasRoom(old(State()), scope, spent, limit) ==> ids == [] && State() == old(State())
    {
      var reserved := LiveTotal(scope);
      if spent + reserved >= limit { return []; }
      ids := [nextClaim];
      claims, nextClaim := claims[nextClaim := Claim(scope, amount)], nextClaim + 1;
    }

    /** Idempotent: a claim that is already gone is skipped. */
    method ReleaseAll(ids: seq<nat>)
      modifies this
      ensures State() == Release(old(State()), ids)
      ensures log == old(log) + [GaveBack(ids)]
    {
      log := log + [GaveBack(ids)];
      assert claims - Ids([]) == claims;
      for n := 0 to |ids|
        invariant State() == Release(old(State()), ids[..n])
        invariant log == old(log) + [GaveBack(ids)]
      {
        assert Ids(ids[..n + 1]) == Ids(ids[..n]) + {ids[n]};
        claims := claims - {ids[n]};
      }
      assert ids[..|ids|] == ids;
    }

    method AdmitKey(caller: Caller, gate: KeyGate, amount: nat) returns (r: Result<seq<nat>, Error>)
      modifies this
      ensures match KeyAdmission(old(State()), caller, gate, amount)
              case Ok((b, ids)) => r == Ok(ids) && State() == b
              case Err(e) => r == Err(e) && State() == old(State())
    {
      match gate
      case KeyFree => r := Ok([]);
      case KeyAlert => r := Ok([]);
      case KeyCap(spent, limit) =>
        var ids := TryReserve(KeyScope(caller.key), amount, spent, limit);
        r := if ids == [] then Err(OtherDomain) else Ok(ids);
      case KeyBroken => r := Err(Foreign);
    }

    method AdmitTeam(caller: Caller, gate: TeamGate, amount: nat) returns (r: Result<seq<nat>, Error>)
      modifies this
      ensures match TeamAdmission(old(State()), caller, gate, amount)
              case Ok((b, ids)) => r == Ok(ids) && State() == b
              case Err(e) => r == Err(e) && State() == old(State())
    {
      match gate
      case TeamFree => r := Ok([]);
      case TeamCap(spent, limit) =>
        var ids := TryReserve(TeamScope(caller.team), amount, spent, limit);
        r := if ids == [] then Err(OtherDomain) else Ok(ids);
      case TeamBroken => r := Err(Foreign);
    }

    /** The budget half of `admit`, after the rate limits. */
    method AdmitBudgets(caller: Caller, gates: Gates, amount: nat) returns (r: Admission)
      modifies this
      ensures (State(), r) == GatesAdmission(old(State()), caller, gates, amount)
    {
      var key := AdmitKey(caller, gates.keyGate, amount);
      if key.Err? { return Refused(key.error); }
      var team := AdmitTeam(caller, gates.teamGate, amount);
      if team.Err? {
        ReleaseAll(key.value);
        return Refused(team.error);
      }
      return Admitted(key.value + team.value);
    }

    /** Each gate takes one hit when it is limited, allowed or not; a throttled request reserves nothing. */
    method Admit(caller: Caller, gates: Gates, amount: nat, teamRpm: Rpm, keyRpm: Rpm, skipTeam: bool, skipKey: bool)
      returns (r: Admission)
      requires Wf(State())
      modifies this
      ensures teamHits == old(teamHits) + if !skipTeam && teamRpm.Limited? then 1 else 0
      ensures keyHits == old(keyHits) + if !skipKey && keyRpm.Limited? && (skipTeam || teamRpm != Limited(false)) then 1 else 0
      ensures var b := old(State()).(keyHits := keyHits, teamHits := teamHits);
              if (!skipTeam && teamRpm == Limited(false)) || (!skipKey && keyRpm == Limited(false))
              then r == Refused(OtherDomain) && State() == b
              else (State(), r) == GatesAdmission(b, caller, gates, amount)
    {
      hide InFlight;
      if !skipTeam && teamRpm.Limited? {
        teamHits := teamHits + 1;
        if !teamRpm.allowed { return Refused(OtherDomain); }
      }
      if !skipKey && keyRpm.Limited? {
        keyHits := keyHits + 1;
        if !keyRpm.allowed { return Refused(OtherDomain); }
      }
      AdmissionKeepsTheRest(State(), caller, gates, amount);
      r := AdmitBudgets(caller, gates, amount);
    }

    /** A failed ledger write is dead-lettered, and only a failed dead-letter is dropped. */
    method RecordUsage(charge: Charge, ledgerUp: bool, outboxUp: bool)
      modifies this
      ensures State() == Bill(old(State()), charge, if ledgerUp then Recorded else if outboxUp then DeadLettered else Dropped)
      ensures log == old(log) + [Billed(charge)]
    {
      log := log + [Billed(charge)];
      if ledgerUp { ledger := ledger + [charge]; return; }
      if outboxUp { outbox := outbox + [charge]; return; }
      lost := lost + [charge];
    }

    /** Marks the point from which an attempt is known to cost nothing. */
    ghost method Spare()
      modifies this`log
      ensures log == old(log) + [Spared]
    {
      log := log + [Spared];
    }
  }
}
