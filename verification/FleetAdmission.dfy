/**
  What stands behind the steps of the fleet: an admission through both budget gates is a run of it,
  seen from whichever scope, a live stream's session has the effects the fleet gives it, and the
  spend the fleet counts is what its requests were billed.
*/
module FleetAdmission {
  import opened Outcomes
  import opened Failover
  import opened Metering
  import opened Fleet
  import D = Dispatch
  import SM = StreamMetering
  import Pricing

  lemma Then(f: Fleet, scope: Scope, x: Action, rest: seq<Action>)
    requires Enabled(f, scope, x) && ValidRun(Apply(f, scope, x), scope, rest)
    ensures ValidRun(f, scope, [x] + rest) && After(f, scope, [x] + rest) == After(Apply(f, scope, x), scope, rest)
  {
    hide Apply, Enabled;
    assert ([x] + rest)[1..] == rest;
  }

  lemma One(f: Fleet, scope: Scope, x: Action)
    requires Enabled(f, scope, x)
    ensures ValidRun(f, scope, [x]) && After(f, scope, [x]) == Apply(f, scope, x)
  {
    hide Apply, Enabled;
    assert [x][1..] == [];
  }

  lemma Two(f: Fleet, scope: Scope, x: Action, y: Action)
    requires Enabled(f, scope, x) && Enabled(Apply(f, scope, x), scope, y)
    ensures ValidRun(f, scope, [x, y]) && After(f, scope, [x, y]) == Apply(Apply(f, scope, x), scope, y)
  {
    hide Apply, Enabled;
    One(Apply(f, scope, x), scope, y);
    Then(f, scope, x, [y]);
    assert [x] + [y] == [x, y];
  }

  // ---- Admission ----

  /** One gate's reservation: the request's own in the scope looked at, somebody's elsewhere in any other. */
  function Taking(scope: Scope, other: Scope, r: nat, a: D.Attempt, settling: Effect): Action {
    if other == scope then Admit(r, a, settling) else ReserveElsewhere(other, a.amount)
  }

  /** What takes a refused request's first claim back. */
  function GivingBack(scope: Scope, other: Scope, r: nat, id: nat): seq<Action> {
    if other == scope then [Act(r), Act(r)] else [ReleaseElsewhere(id)]
  }

  /** A request that will be refused never calls the provider. */
  function NeverCalled(a: D.Attempt): D.Attempt { a.(outcome := D.CallFailed(OtherDomain)) }

  /** The gate of the scope looked at is asked with what the request has read, against the scope's limit. */
  predicate Sees(f: Fleet, scope: Scope, caller: Caller, gates: Gates, r: nat)
    requires r in f.seen
  {
    && (scope == KeyScope(caller.key) && gates.keyGate.KeyCap? ==>
          gates.keyGate.spent == f.seen[r] && gates.keyGate.limit == f.limit)
    && (scope == TeamScope(caller.team) && gates.teamGate.TeamCap? ==>
          gates.teamGate.spent == f.seen[r] && gates.teamGate.limit == f.limit)
  }

  predicate Caps(scope: Scope, caller: Caller, gates: Gates) {
    (scope == KeyScope(caller.key) && gates.keyGate.KeyCap?) || (scope == TeamScope(caller.team) && gates.teamGate.TeamCap?)
  }

  /** The request is now in flight in the scope, with the claim, the debt and the work that come with it. */
  predicate InFlightNow(f: Fleet, e: Fleet, r: nat, a: D.Attempt, settling: Effect, ids: seq<nat>) {
    && r in e.held && e.held[r] in ids && e.held == f.held[r := e.held[r]] && e.owed == f.owed[r := a.amount]
    && e.todo == f.todo[r := Program(a, settling, e.held[r])]
  }

  lemma TakingReserves(f: Fleet, scope: Scope, other: Scope, spent: int, limit: int, r: nat, a: D.Attempt, settling: Effect)
    requires Priced(a, settling) && HasRoom(f.books, other, spent, limit)
    requires other == scope ==> r in f.seen && spent == f.seen[r] && limit == f.limit
    ensures Enabled(f, scope, Taking(scope, other, r, a, settling))
    ensures var e := Apply(f, scope, Taking(scope, other, r, a, settling));
            && e.books == Reserve(f.books, other, a.amount) && e.committed == f.committed && e.limit == f.limit
            && (if other == scope then InFlightNow(f, e, r, a, settling, [f.books.nextClaim])
                else e == f.(books := e.books))
  {
    hide InFlight, Program;
  }

  /** The run takes the fleet back to the spend, claims and debts of `f`, with these books. */
  ghost predicate TakesBack(f: Fleet, e: Fleet, scope: Scope, run: seq<Action>, books: Books) {
    ValidRun(e, scope, run)
    && var u := After(e, scope, run); u.books == books && u.committed == f.committed && u.held == f.held && u.owed == f.owed
  }

  /** A claim just taken is given back by the two effects of a request that is never called. */
  lemma OwnClaimGoesBack(f: Fleet, e: Fleet, scope: Scope, r: nat, id: nat, owed: nat)
    requires r in e.todo && e.todo[r] == [Spared, GaveBack([id])]
    requires r !in f.held && r !in f.owed && e.held == f.held[r := id] && e.owed == f.owed[r := owed] && e.committed == f.committed
    ensures TakesBack(f, e, scope, [Act(r), Act(r)], Release(e.books, [id]))
  {
    hide Release;
    var e1 := Apply(e, scope, Act(r));
    assert e1.todo[r] == [GaveBack([id])] && e1.owed == f.owed && e1.held - {r} == f.held;
    Two(e, scope, Act(r), Act(r));
  }

  lemma OtherClaimGoesBack(f: Fleet, scope: Scope, other: Scope, amount: nat)
    requires other != scope
    ensures var e, id := f.(books := Reserve(f.books, other, amount)), f.books.nextClaim;
            TakesBack(f, e, scope, [ReleaseElsewhere(id)], Release(e.books, [id]))
  {
    One(f.(books := Reserve(f.books, other, amount)), scope, ReleaseElsewhere(f.books.nextClaim));
  }

  lemma NotYetThere(f: Fleet, scope: Scope, r: nat)
    requires Inv(f, scope) && r in f.seen
    ensures r !in f.held && r !in f.owed
  {
    assert r !in f.todo;
  }

  /** Between the two gates nobody else has moved, so a refusal takes back exactly what was taken. */
  lemma GivingBackUndoes(f: Fleet, scope: Scope, other: Scope, spent: int, limit: int, r: nat, a: D.Attempt)
    requires Inv(f, scope) && HasRoom(f.books, other, spent, limit)
    requires other == scope ==> r in f.seen && spent == f.seen[r] && limit == f.limit
    ensures Enabled(f, scope, Taking(scope, other, r, NeverCalled(a), Spared))
    ensures var x, id := Taking(scope, other, r, NeverCalled(a), Spared), f.books.nextClaim;
            TakesBack(f, Apply(f, scope, x), scope, GivingBack(scope, other, r, id),
                      Release(Reserve(f.books, other, a.amount), [id]))
  {
    TakingReserves(f, scope, other, spent, limit, r, NeverCalled(a), Spared);
    hide HasRoom, Apply, Enabled, Reserve, Release, TakesBack;
    if other == scope {
      NotYetThere(f, scope, r);
      hide Inv;
      var e := Apply(f, scope, Taking(scope, other, r, NeverCalled(a), Spared));
      OwnClaimGoesBack(f, e, scope, r, f.books.nextClaim, a.amount);
    } else {
      OtherClaimGoesBack(f, scope, other, a.amount);
    }
  }

  lemma ReleasingNothing(b: Books)
    ensures Release(b, []) == b
  {
    assert b.claims - Ids([]) == b.claims;
  }

  /**
    Every admission through both gates is a run of the fleet, whichever scope it is looked at from: it
    moves the store as the gates do, and in the scope looked at the request is in flight afterwards
    exactly when it was admitted and that scope is capped. A refusal leaves nothing held or owed.
  */
  lemma AdmissionIsARun(f: Fleet, scope: Scope, caller: Caller, gates: Gates, r: nat, a: D.Attempt, settling: Effect)
    returns (run: seq<Action>)
    requires Inv(f, scope) && r in f.seen && Priced(a, settling) && Sees(f, scope, caller, gates, r)
    ensures ValidRun(f, scope, run)
    ensures var (b, admission) := GatesAdmission(f.books, caller, gates, a.amount);
            var e := After(f, scope, run);
            && e.books == b && e.committed == f.committed
            && (match admission
                case Refused(_) => e.held == f.held && e.owed == f.owed
                case Admitted(ids) =>
                  if Caps(scope, caller, gates) then InFlightNow(f, e, r, a, settling, ids)
                  else e.held == f.held && e.owed == f.owed && e.todo == f.todo)
  {
    hide HasRoom, Inv, Priced, Program, Apply, Enabled;
    var key, team := KeyScope(caller.key), TeamScope(caller.team);
    ReleasingNothing(f.books);
    var admission := GatesAdmission(f.books, caller, gates, a.amount).1;
    if admission.Refused? {
      run := RefusalIsARun(f, scope, caller, gates, r, a);
    } else if gates.keyGate.KeyCap? {
      TakingReserves(f, scope, key, gates.keyGate.spent, gates.keyGate.limit, r, a, settling);
      var x := Taking(scope, key, r, a, settling);
      if gates.teamGate.TeamCap? {
        var y := Taking(scope, team, r, a, settling);
        TakingReserves(Apply(f, scope, x), scope, team, gates.teamGate.spent, gates.teamGate.limit, r, a, settling);
        Two(f, scope, x, y);
        run := [x, y];
      } else {
        One(f, scope, x);
        run := [x];
      }
    } else if gates.teamGate.TeamCap? {
      TakingReserves(f, scope, team, gates.teamGate.spent, gates.teamGate.limit, r, a, settling);
      One(f, scope, Taking(scope, team, r, a, settling));
      run := [Taking(scope, team, r, a, settling)];
    } else {
      run := [];
    }
  }

  lemma RefusalIsARun(f: Fleet, scope: Scope, caller: Caller, gates: Gates, r: nat, a: D.Attempt) returns (run: seq<Action>)
    requires Inv(f, scope) && r in f.seen && Sees(f, scope, caller, gates, r)
    requires GatesAdmission(f.books, caller, gates, a.amount).1.Refused?
    ensures ValidRun(f, scope, run)
    ensures var e := After(f, scope, run);
            && e.books == GatesAdmission(f.books, caller, gates, a.amount).0
            && e.committed == f.committed && e.held == f.held && e.owed == f.owed
  {
    hide HasRoom, Inv, Program, Apply, Enabled;
    var key := KeyScope(caller.key);
    ReleasingNothing(f.books);
    if gates.keyGate.KeyCap? && HasRoom(f.books, key, gates.keyGate.spent, gates.keyGate.limit) {
      GivingBackUndoes(f, scope, key, gates.keyGate.spent, gates.keyGate.limit, r, a);
      var x := Taking(scope, key, r, NeverCalled(a), Spared);
      Then(f, scope, x, GivingBack(scope, key, r, f.books.nextClaim));
      run := [x] + GivingBack(scope, key, r, f.books.nextClaim);
    } else {
      run := [];
    }
  }

  // ---- Sessions ----

  /** What is left of a request whose stream went live is what its session does, wherever it stops. */
  lemma LiveProgramIsItsSession(a: D.Attempt, c: SM.Context, chunks: seq<SM.Chunk>, failed: bool, id: nat)
    requires a.outcome.FirstChunk? && c.ids == [id]
    requires Pricing.NoNegativeRate(c.card) && Pricing.NoNegativeImagePrice(c.card)
    ensures var effects := SM.FinalEffects(c, chunks, failed);
            && effects[0] == GaveBack(c.ids) && !effects[1].GaveBack?
            && Program(a, effects[1], id) == effects
  {
    hide SM.BilledUsage, SM.CostOf, Pricing.NoNegativeRate, Pricing.NoNegativeImagePrice;
  }

  /** And of one whose answer is replayed, its end: release, then the record at no cost. */
  lemma ReplayProgramIsItsEnd(a: D.Attempt, id: nat)
    requires a.outcome.ReplayStarted?
    ensures Program(a, Billed(Charge(a.model, 0)), id) == [GaveBack([id]), Billed(Charge(a.model, 0))]
  {
  }

  // ---- Spend ----

  /** The costs billed along a run. */
  ghost function Bills(f: Fleet, scope: Scope, run: seq<Action>): nat
    requires ValidRun(f, scope, run)
    decreases |run|
  {
    if run == [] then 0
    else
      (match run[0]
       case Act(r) => if f.todo[r][0].Billed? then f.todo[r][0].charge.cost else 0
       case _ => 0)
      + Bills(Apply(f, scope, run[0]), scope, run[1..])
  }

  lemma StepCommits(f: Fleet, scope: Scope, act: Action)
    requires Enabled(f, scope, act)
    ensures Apply(f, scope, act).committed
            == f.committed + if act.Act? && f.todo[act.r][0].Billed? then f.todo[act.r][0].charge.cost else 0
  {
    hide HasRoom, Reserve, Release, Program;
  }

  /** No spend appears or is lost: the scope's total grows by what is billed in it. */
  lemma {:induction false} CommittedIsBilled(f: Fleet, scope: Scope, run: seq<Action>)
    requires ValidRun(f, scope, run)
    ensures After(f, scope, run).committed == f.committed + Bills(f, scope, run)
    decreases |run|
  {
    if run != [] {
      StepCommits(f, scope, run[0]);
      hide Apply, Enabled;
      CommittedIsBilled(Apply(f, scope, run[0]), scope, run[1..]);
    }
  }
}
