/**
  Many requests at once over the shared reservation store, seen from one budget scope. Each
  request reads the ledger, is admitted by the store's atomic step, and then has the effects its
  attempt has, one at a time, in any interleaving with all others and with other scopes. Every
  such run is a run of the spend-bound protocol, so what holds there holds of the store.
*/
module Fleet {
  import opened Outcomes
  import opened Metering
  import opened Totals
  import D = Dispatch
  import P = SpendBound

  datatype Fleet = Fleet(
    limit: int,
    books: Books,
    committed: nat,               // the scope's ledger total
    seen: map<nat, nat>,          // by request: the total it has read
    held: map<nat, nat>,          // by request: the claim it holds in the scope
    owed: map<nat, nat>,          // by request: the reservation it has not settled
    todo: map<nat, seq<Effect>>,  // by request: what is left of its attempt
    last: Option<P.Admission>)    // the last admission: amount, drift since its read, unsettled without a claim

  datatype Action =
    | Read(r: nat)
    | Admit(r: nat, a: D.Attempt, settling: Effect)   // `settling` is how a stream that goes live will end
    | Act(r: nat)
    | ReserveElsewhere(other: Scope, amount: nat)
    | ReleaseElsewhere(id: nat)

  /** An attempt never bills above what it reserved; see `Pricing.ReservationDominates`. */
  predicate Priced(a: D.Attempt, settling: Effect) {
    && (D.Bills(a.outcome) ==> D.ChargeOf(a).cost <= a.amount)
    && !settling.GaveBack? && (settling.Billed? ==> settling.charge.cost <= a.amount)
  }

  predicate GoesLive(a: D.Attempt) { a.outcome.FirstChunk? || a.outcome.ReplayStarted? }

  /** All an attempt will do once admitted; a live stream is left to its session, which releases and then settles. */
  function Program(a: D.Attempt, settling: Effect, id: nat): seq<Effect> {
    if GoesLive(a) then [GaveBack([id]), settling] else D.Effects(a, [id])
  }

  predicate Enabled(f: Fleet, scope: Scope, act: Action) {
    match act
    case Read(r) => r !in f.seen && r !in f.todo
    case Admit(r, a, settling) => r in f.seen && Priced(a, settling)
    case Act(r) => r in f.todo && f.todo[r] != []
    case ReserveElsewhere(other, _) => other != scope
    case ReleaseElsewhere(id) => id in f.books.claims && f.books.claims[id].scope != scope
  }

  function AfterEffect(f: Fleet, r: nat, e: Effect): Fleet {
    match e
    case Billed(charge) => f.(committed := f.committed + charge.cost, owed := f.owed - {r})
    case Spared => f.(owed := f.owed - {r})
    case GaveBack(ids) => f.(books := Release(f.books, ids), held := f.held - {r})
  }

  ghost function Apply(f: Fleet, scope: Scope, act: Action): Fleet
    requires Enabled(f, scope, act)
  {
    match act
    case Read(r) => f.(seen := f.seen[r := f.committed])
    case Admit(r, a, settling) =>
      if HasRoom(f.books, scope, f.seen[r], f.limit) then
        var id := f.books.nextClaim;
        f.(books := Reserve(f.books, scope, a.amount), seen := f.seen - {r}, held := f.held[r := id],
           owed := f.owed[r := a.amount], todo := f.todo[r := Program(a, settling, id)],
           last := Some(P.Admission(a.amount, f.committed - f.seen[r], Total(f.owed - f.held.Keys))))
      else f.(seen := f.seen - {r})
    case Act(r) => AfterEffect(f.(todo := f.todo[r := f.todo[r][1..]]), r, f.todo[r][0])
    case ReserveElsewhere(other, amount) => f.(books := Reserve(f.books, other, amount))
    case ReleaseElsewhere(id) => f.(books := Release(f.books, [id]))
  }

  // ---- Claims and who holds them ----

  function ScopeIds(claims: map<nat, Claim>, scope: Scope): set<nat> {
    set id | id in claims && claims[id].scope == scope
  }

  /** The scope's claims are exactly those some request holds, each held by one. */
  predicate OneToOne(held: map<nat, nat>, ids: set<nat>) {
    && held.Values == ids
    && forall r, q :: r in held && q in held && held[r] == held[q] ==> r == q
  }

  lemma HeldIsLive(held: map<nat, nat>, ids: set<nat>)
    requires OneToOne(held, ids)
    ensures forall r :: r in held ==> held[r] in ids
  {
    forall r | r in held ensures held[r] in ids { assert held[r] in held.Values; }
  }

  lemma OneMoreHeld(held: map<nat, nat>, ids: set<nat>, r: nat, id: nat)
    requires OneToOne(held, ids) && r !in held && id !in ids
    ensures OneToOne(held[r := id], ids + {id})
  {
    HeldIsLive(held, ids);
    var n := held[r := id];
    forall x | x in held.Values ensures x in n.Values {
      var j :| j in held && held[j] == x;
      assert n[j] == x;
    }
    assert n[r] == id;
  }

  lemma OneHeldLess(held: map<nat, nat>, ids: set<nat>, r: nat)
    requires OneToOne(held, ids) && r in held
    ensures OneToOne(held - {r}, ids - {held[r]})
  {
    HeldIsLive(held, ids);
    var n := held - {r};
    forall x | x in ids && x != held[r] ensures x in n.Values {
      var j :| j in held && held[j] == x;
      assert n[j] == x;
    }
    forall x | x in n.Values ensures x in ids - {held[r]} {
      var j :| j in n && n[j] == x;
      assert held[j] == x;
    }
  }

  /** What each request holds, as the protocol sees it. */
  function HeldAmounts(claims: map<nat, Claim>, held: map<nat, nat>): map<nat, nat> {
    map r | r in held && held[r] in claims :: claims[held[r]].amount
  }

  lemma AmountsGrow(claims: map<nat, Claim>, held: map<nat, nat>, r: nat, id: nat, claim: Claim)
    requires (forall q :: q in held ==> held[q] in claims) && id !in claims && r !in held
    ensures HeldAmounts(claims[id := claim], held[r := id]) == HeldAmounts(claims, held)[r := claim.amount]
  {
  }

  lemma AmountsShrink(claims: map<nat, Claim>, held: map<nat, nat>, r: nat)
    requires (forall q :: q in held ==> held[q] in claims) && r in held
    requires forall p, q :: p in held && q in held && held[p] == held[q] ==> p == q
    ensures HeldAmounts(claims - {held[r]}, held - {r}) == HeldAmounts(claims, held) - {r}
  {
  }

  lemma AmountsStay(claims: map<nat, Claim>, after: map<nat, Claim>, held: map<nat, nat>)
    requires forall q :: q in held ==> held[q] in claims && held[q] in after && after[held[q]] == claims[held[q]]
    ensures HeldAmounts(after, held) == HeldAmounts(claims, held)
  {
  }

  lemma LiveInStore(claims: map<nat, Claim>, held: map<nat, nat>, scope: Scope)
    requires OneToOne(held, ScopeIds(claims, scope))
    ensures forall r :: r in held ==> held[r] in claims && claims[held[r]].scope == scope
    ensures HeldAmounts(claims, held).Keys == held.Keys
  {
    HeldIsLive(held, ScopeIds(claims, scope));
  }

  /** What the store sums over claims is what the protocol sums over requests. */
  lemma SameInFlight(claims: map<nat, Claim>, held: map<nat, nat>, scope: Scope)
    requires OneToOne(held, ScopeIds(claims, scope))
    ensures InFlight(claims, scope) == Total(HeldAmounts(claims, held))
  {
    LiveInStore(claims, held, scope);
    var m := Amounts(claims, claims.Keys, scope);
    assert m.Keys == ScopeIds(claims, scope);
    assert Renames(m, HeldAmounts(claims, held), held);
    TotalOfRenamed(m, HeldAmounts(claims, held), held);
  }

  lemma IdsAfterReserve(b: Books, other: Scope, amount: nat, scope: Scope)
    requires Wf(b)
    ensures ScopeIds(Reserve(b, other, amount).claims, scope)
            == ScopeIds(b.claims, scope) + if other == scope then {b.nextClaim} else {}
    ensures b.nextClaim !in ScopeIds(b.claims, scope) && Wf(Reserve(b, other, amount))
  {
  }

  lemma IdsAfterRelease(b: Books, id: nat, scope: Scope)
    requires Wf(b) && id in b.claims
    ensures Release(b, [id]).claims == b.claims - {id} && Wf(Release(b, [id]))
    ensures ScopeIds(Release(b, [id]).claims, scope) == ScopeIds(b.claims, scope) - {id}
  {
    assert Ids([id]) == {id};
  }

  // ---- What is left of each attempt ----

  /** An effect that is still to come finds what it settles or gives back. */
  predicate EffectReady(owed: map<nat, nat>, held: map<nat, nat>, r: nat, e: Effect) {
    match e
    case Billed(charge) => r in owed && charge.cost <= owed[r]
    case Spared => r in owed
    case GaveBack(ids) => r in held && ids == [held[r]]
  }

  predicate Remaining(owed: map<nat, nat>, held: map<nat, nat>, r: nat, effects: seq<Effect>) {
    && |effects| <= 2
    && (forall i :: 0 <= i < |effects| ==> EffectReady(owed, held, r, effects[i]))
    && (|effects| == 2 ==> effects[0].GaveBack? != effects[1].GaveBack?)
  }

  predicate Programs(owed: map<nat, nat>, held: map<nat, nat>, todo: map<nat, seq<Effect>>) {
    forall r :: r in todo ==> Remaining(owed, held, r, todo[r])
  }

  lemma EffectsAreReady(owed: map<nat, nat>, held: map<nat, nat>, r: nat, a: D.Attempt, settling: Effect, id: nat)
    requires r in held && held[r] == id && r in owed && owed[r] == a.amount && Priced(a, settling)
    ensures Remaining(owed, held, r, Program(a, settling, id))
  {
    hide D.Bills, D.Streamed, D.KeepsClaim, D.ChargeOf;
  }

  lemma ProgramsGrow(owed: map<nat, nat>, held: map<nat, nat>, todo: map<nat, seq<Effect>>, r: nat, a: D.Attempt,
                     settling: Effect, id: nat)
    requires Programs(owed, held, todo) && r !in todo && Priced(a, settling)
    ensures Programs(owed[r := a.amount], held[r := id], todo[r := Program(a, settling, id)])
  {
    hide Program;
    EffectsAreReady(owed[r := a.amount], held[r := id], r, a, settling, id);
    forall q | q in todo ensures Remaining(owed[r := a.amount], held[r := id], q, todo[q]) {
      assert Remaining(owed, held, q, todo[q]);
    }
  }

  /** Having one effect leaves the other, which needs what the first did not take. */
  lemma ProgramsShrink(owed: map<nat, nat>, held: map<nat, nat>, todo: map<nat, seq<Effect>>, r: nat)
    requires Programs(owed, held, todo) && r in todo && todo[r] != []
    ensures EffectReady(owed, held, r, todo[r][0])
    ensures var rest := todo[r := todo[r][1..]];
            if todo[r][0].GaveBack? then Programs(owed, held - {r}, rest) else Programs(owed - {r}, held, rest)
  {
    assert Remaining(owed, held, r, todo[r]);
    var e := todo[r];
    assert |e| == 2 ==> EffectReady(owed, held, r, e[1]);
    var owed' := if e[0].GaveBack? then owed else owed - {r};
    var held' := if e[0].GaveBack? then held - {r} else held;
    forall q | q in todo && q != r ensures Remaining(owed', held', q, todo[q]) {
      assert Remaining(owed, held, q, todo[q]);
      forall i | 0 <= i < |todo[q]| ensures EffectReady(owed', held', q, todo[q][i]) {
        assert EffectReady(owed, held, q, todo[q][i]);
      }
    }
  }

  // ---- Invariant and simulation ----

  predicate Inv(f: Fleet, scope: Scope) {
    && Wf(f.books) && OneToOne(f.held, ScopeIds(f.books.claims, scope))
    && f.seen.Keys !! f.todo.Keys && f.held.Keys <= f.todo.Keys && f.owed.Keys <= f.todo.Keys
    && Programs(f.owed, f.held, f.todo)
  }

  predicate Matches(f: Fleet, s: P.State) {
    && s.limit == f.limit && s.committed == f.committed && s.seen == f.seen
    && s.claims == HeldAmounts(f.books.claims, f.held) && s.unsettled == f.owed && s.last == f.last
  }

  /** The protocol's step, if the action is one. */
  function Step(f: Fleet, scope: Scope, act: Action): Option<P.Action>
    requires Enabled(f, scope, act)
  {
    match act
    case Read(r) => Some(P.Read(r))
    case Admit(r, a, _) => Some(P.Reserve(r, a.amount))
    case Act(r) =>
      (match f.todo[r][0]
       case Billed(charge) => Some(P.Settle(r, charge.cost))
       case Spared => Some(P.Fail(r))
       case GaveBack(_) => Some(P.Release(r)))
    case ReserveElsewhere(_, _) => None
    case ReleaseElsewhere(_) => None
  }

  ghost predicate Simulated(f: Fleet, scope: Scope, act: Action, s: P.State)
    requires Enabled(f, scope, act)
  {
    match Step(f, scope, act)
    case None => Matches(Apply(f, scope, act), s)
    case Some(x) => P.Enabled(s, x) && Matches(Apply(f, scope, act), P.Apply(s, x))
  }

  lemma AdmitSimulates(f: Fleet, scope: Scope, s: P.State, r: nat, a: D.Attempt, settling: Effect)
    requires Inv(f, scope) && Matches(f, s) && Enabled(f, scope, Admit(r, a, settling))
    ensures Simulated(f, scope, Admit(r, a, settling), s)
  {
    hide InFlight, OneToOne, Programs, Program, HeldAmounts, ScopeIds, Priced;
    LiveInStore(f.books.claims, f.held, scope);
    SameInFlight(f.books.claims, f.held, scope);
    assert r !in f.todo && r !in f.held && r !in f.owed;
    if HasRoom(f.books, scope, f.seen[r], f.limit) {
      AmountsGrow(f.books.claims, f.held, r, f.books.nextClaim, Claim(scope, a.amount));
    }
  }

  lemma AdmitKeepsInv(f: Fleet, scope: Scope, r: nat, a: D.Attempt, settling: Effect)
    requires Inv(f, scope) && Enabled(f, scope, Admit(r, a, settling))
    ensures Inv(Apply(f, scope, Admit(r, a, settling)), scope)
  {
    hide InFlight, HasRoom, OneToOne, Programs, Program, ScopeIds, Priced, Reserve, Wf;
    assert r !in f.todo && r !in f.held;
    if HasRoom(f.books, scope, f.seen[r], f.limit) {
      IdsAfterReserve(f.books, scope, a.amount, scope);
      OneMoreHeld(f.held, ScopeIds(f.books.claims, scope), r, f.books.nextClaim);
      ProgramsGrow(f.owed, f.held, f.todo, r, a, settling, f.books.nextClaim);
    }
  }

  lemma NextIsReady(f: Fleet, scope: Scope, r: nat)
    requires Inv(f, scope) && r in f.todo && f.todo[r] != []
    ensures EffectReady(f.owed, f.held, r, f.todo[r][0])
  {
    hide OneToOne, Wf;
    assert Remaining(f.owed, f.held, r, f.todo[r]);
  }

  lemma BillingIsSettling(f: Fleet, s: P.State, r: nat, rest: seq<Effect>, charge: Charge)
    requires Matches(f, s) && r in f.owed && charge.cost <= f.owed[r]
    ensures P.Enabled(s, P.Settle(r, charge.cost))
    ensures Matches(AfterEffect(f.(todo := f.todo[r := rest]), r, Billed(charge)), P.Apply(s, P.Settle(r, charge.cost)))
  {
    hide HeldAmounts;
  }

  lemma BillingSimulates(f: Fleet, scope: Scope, s: P.State, r: nat)
    requires Inv(f, scope) && Matches(f, s) && Enabled(f, scope, Act(r)) && f.todo[r][0].Billed?
    ensures Simulated(f, scope, Act(r), s)
  {
    NextIsReady(f, scope, r);
    BillingIsSettling(f, s, r, f.todo[r][1..], f.todo[r][0].charge);
    hide Inv, Matches, P.Apply, P.Enabled, AfterEffect, HasRoom;
  }

  lemma SparingSimulates(f: Fleet, scope: Scope, s: P.State, r: nat)
    requires Inv(f, scope) && Matches(f, s) && Enabled(f, scope, Act(r)) && f.todo[r][0].Spared?
    ensures Simulated(f, scope, Act(r), s)
  {
    NextIsReady(f, scope, r);
    hide HeldAmounts, Inv, HasRoom, Release, Reserve, Program, P.Admits;
  }

  lemma GivingBackIsReleasing(f: Fleet, scope: Scope, s: P.State, r: nat, rest: seq<Effect>)
    requires Wf(f.books) && OneToOne(f.held, ScopeIds(f.books.claims, scope)) && Matches(f, s) && r in f.held
    ensures P.Enabled(s, P.Release(r))
    ensures Matches(AfterEffect(f.(todo := f.todo[r := rest]), r, GaveBack([f.held[r]])), P.Apply(s, P.Release(r)))
  {
    LiveInStore(f.books.claims, f.held, scope);
    IdsAfterRelease(f.books, f.held[r], scope);
    AmountsShrink(f.books.claims, f.held, r);
    hide HeldAmounts, ScopeIds, OneToOne, Wf, Ids;
  }

  lemma GivingBackIsAStep(f: Fleet, scope: Scope, r: nat)
    requires Enabled(f, scope, Act(r)) && r in f.held && f.todo[r][0] == GaveBack([f.held[r]])
    ensures Step(f, scope, Act(r)) == Some(P.Release(r))
    ensures Apply(f, scope, Act(r)) == AfterEffect(f.(todo := f.todo[r := f.todo[r][1..]]), r, GaveBack([f.held[r]]))
  {
    hide AfterEffect;
  }

  lemma GivingBackSimulates(f: Fleet, scope: Scope, s: P.State, r: nat)
    requires Inv(f, scope) && Matches(f, s) && Enabled(f, scope, Act(r)) && f.todo[r][0].GaveBack?
    ensures Simulated(f, scope, Act(r), s)
  {
    NextIsReady(f, scope, r);
    GivingBackIsAStep(f, scope, r);
    hide Matches, P.Apply, P.Enabled, AfterEffect, Apply, Enabled, Step, OneToOne, ScopeIds, Programs, Wf;
    GivingBackIsReleasing(f, scope, s, r, f.todo[r][1..]);
  }

  lemma SettlingKeepsInv(f: Fleet, scope: Scope, r: nat)
    requires Inv(f, scope) && Enabled(f, scope, Act(r)) && !f.todo[r][0].GaveBack?
    ensures Inv(Apply(f, scope, Act(r)), scope)
  {
    hide Programs, ScopeIds, OneToOne, Wf, HasRoom;
    ProgramsShrink(f.owed, f.held, f.todo, r);
  }

  lemma GivingBackKeepsInv(f: Fleet, scope: Scope, r: nat)
    requires Inv(f, scope) && Enabled(f, scope, Act(r)) && f.todo[r][0].GaveBack?
    ensures Inv(Apply(f, scope, Act(r)), scope)
  {
    LiveInStore(f.books.claims, f.held, scope);
    hide Programs, ScopeIds, Release, OneToOne, Wf, HasRoom;
    ProgramsShrink(f.owed, f.held, f.todo, r);
    OneHeldLess(f.held, ScopeIds(f.books.claims, scope), r);
    IdsAfterRelease(f.books, f.held[r], scope);
  }

  lemma ReserveElsewhereIsUnseen(b: Books, held: map<nat, nat>, other: Scope, amount: nat, scope: Scope)
    requires Wf(b) && other != scope && OneToOne(held, ScopeIds(b.claims, scope))
    ensures var after := Reserve(b, other, amount);
            && Wf(after) && ScopeIds(after.claims, scope) == ScopeIds(b.claims, scope)
            && HeldAmounts(after.claims, held) == HeldAmounts(b.claims, held)
  {
    LiveInStore(b.claims, held, scope);
    IdsAfterReserve(b, other, amount, scope);
    AmountsStay(b.claims, Reserve(b, other, amount).claims, held);
  }

  lemma ReleaseElsewhereIsUnseen(b: Books, held: map<nat, nat>, id: nat, scope: Scope)
    requires Wf(b) && id in b.claims && b.claims[id].scope != scope && OneToOne(held, ScopeIds(b.claims, scope))
    ensures var after := Release(b, [id]);
            && Wf(after) && ScopeIds(after.claims, scope) == ScopeIds(b.claims, scope)
            && HeldAmounts(after.claims, held) == HeldAmounts(b.claims, held)
  {
    LiveInStore(b.claims, held, scope);
    IdsAfterRelease(b, id, scope);
    assert ScopeIds(b.claims, scope) - {id} == ScopeIds(b.claims, scope);
    hide OneToOne, ScopeIds;
    AmountsStay(b.claims, Release(b, [id]).claims, held);
  }

  lemma ElsewhereIsNoStep(f: Fleet, scope: Scope, s: P.State, act: Action)
    requires Inv(f, scope) && Matches(f, s) && Enabled(f, scope, act)
    requires act.ReserveElsewhere? || act.ReleaseElsewhere?
    ensures Simulated(f, scope, act, s) && Inv(Apply(f, scope, act), scope)
  {
    if act.ReserveElsewhere? { ReserveElsewhereIsUnseen(f.books, f.held, act.other, act.amount, scope); }
    else { ReleaseElsewhereIsUnseen(f.books, f.held, act.id, scope); }
    hide OneToOne, Programs, HeldAmounts, ScopeIds, Wf, Release, Reserve;
  }

  lemma ReadSimulates(f: Fleet, scope: Scope, s: P.State, r: nat)
    requires Inv(f, scope) && Matches(f, s) && Enabled(f, scope, Read(r))
    ensures Simulated(f, scope, Read(r), s)
  {
    LiveInStore(f.books.claims, f.held, scope);
    hide OneToOne, Programs, HeldAmounts, ScopeIds, Wf;
  }

  lemma ReadKeepsInv(f: Fleet, scope: Scope, r: nat)
    requires Inv(f, scope) && Enabled(f, scope, Read(r))
    ensures Inv(Apply(f, scope, Read(r)), scope)
  {
    hide OneToOne, Programs, ScopeIds, Wf;
  }

  /** Every step of the fleet is a step of the protocol, or none. */
  lemma StepSimulates(f: Fleet, scope: Scope, s: P.State, act: Action)
    requires Inv(f, scope) && Matches(f, s) && Enabled(f, scope, act)
    ensures Simulated(f, scope, act, s) && Inv(Apply(f, scope, act), scope)
  {
    hide Inv, Simulated, Matches, Apply;
    match act
    case Read(r) =>
      ReadSimulates(f, scope, s, r);
      ReadKeepsInv(f, scope, r);
    case Admit(r, a, settling) =>
      AdmitSimulates(f, scope, s, r, a, settling);
      AdmitKeepsInv(f, scope, r, a, settling);
    case Act(r) =>
      match f.todo[r][0] {
        case Billed(_) => BillingSimulates(f, scope, s, r);
        case Spared => SparingSimulates(f, scope, s, r);
        case GaveBack(_) => GivingBackSimulates(f, scope, s, r);
      }
      if f.todo[r][0].GaveBack? { GivingBackKeepsInv(f, scope, r); } else { SettlingKeepsInv(f, scope, r); }
    case _ => ElsewhereIsNoStep(f, scope, s, act);
  }

  // ---- Runs ----

  ghost predicate ValidRun(f: Fleet, scope: Scope, run: seq<Action>)
    decreases |run|
  {
    run == [] || (Enabled(f, scope, run[0]) && ValidRun(Apply(f, scope, run[0]), scope, run[1..]))
  }

  ghost function After(f: Fleet, scope: Scope, run: seq<Action>): Fleet
    requires ValidRun(f, scope, run)
    decreases |run|
  {
    if run == [] then f else After(Apply(f, scope, run[0]), scope, run[1..])
  }

  /** Whoever is about to give a claim back has settled: the order of dispatches. */
  predicate SettledBeforeRelease(f: Fleet) {
    forall r :: r in f.todo && f.todo[r] != [] && f.todo[r][0].GaveBack? ==> r !in f.owed
  }

  predicate NoStream(act: Action) { act.Admit? ==> !D.Streamed(act.a.outcome) }

  lemma DispatchStartsBySettling(a: D.Attempt, settling: Effect, id: nat)
    requires !D.Streamed(a.outcome)
    ensures Program(a, settling, id) != [] && !Program(a, settling, id)[0].GaveBack?
  {
  }

  lemma StepKeepsOrder(f: Fleet, scope: Scope, act: Action)
    requires Inv(f, scope) && SettledBeforeRelease(f) && Enabled(f, scope, act) && NoStream(act)
    ensures SettledBeforeRelease(Apply(f, scope, act))
    ensures var x := Step(f, scope, act); x.Some? && x.value.Release? ==> x.value.request !in f.owed
  {
    hide HasRoom, OneToOne, Program, ScopeIds, Wf;
    if act.Admit? { DispatchStartsBySettling(act.a, act.settling, f.books.nextClaim); }
    if act.Act? { assert Remaining(f.owed, f.held, act.r, f.todo[act.r]); }
  }

  /** Every run of the fleet is a run of the protocol, and without streams one that settles before it releases. */
  lemma {:induction false} RunSimulates(f: Fleet, scope: Scope, s: P.State, run: seq<Action>) returns (steps: seq<P.Action>)
    requires Inv(f, scope) && Matches(f, s) && ValidRun(f, scope, run)
    ensures P.ValidRun(s, steps) && Matches(After(f, scope, run), P.After(s, steps))
    ensures SettledBeforeRelease(f) && (forall i :: 0 <= i < |run| ==> NoStream(run[i])) ==> P.SettlesFirst(s, steps)
    decreases |run|
  {
    hide Inv, Matches, Apply, Enabled, SettledBeforeRelease, NoStream, P.Apply, P.Enabled, Step;
    if run == [] {
      steps := [];
      P.EmptyRun(s);
    } else {
      StepSimulates(f, scope, s, run[0]);
      var ordered := SettledBeforeRelease(f) && forall i :: 0 <= i < |run| ==> NoStream(run[i]);
      if ordered { StepKeepsOrder(f, scope, run[0]); }
      assert forall i :: 0 <= i < |run[1..]| ==> run[1..][i] == run[i + 1];
      match Step(f, scope, run[0]) {
        case None =>
          steps := RunSimulates(Apply(f, scope, run[0]), scope, s, run[1..]);
        case Some(x) =>
          var rest := RunSimulates(Apply(f, scope, run[0]), scope, P.Apply(s, x), run[1..]);
          steps := [x] + rest;
          P.Prepend(s, x, rest);
          OwedIsUnsettled(f, s);
      }
    }
  }

  lemma OwedIsUnsettled(f: Fleet, s: P.State)
    requires Matches(f, s)
    ensures s.unsettled == f.owed
  {
  }

  function Largest(run: seq<Action>): nat {
    if run == [] then 0
    else
      var rest := Largest(run[1..]);
      if run[0].Admit? && run[0].a.amount > rest then run[0].a.amount else rest
  }

  lemma StepsLast(f: Fleet, scope: Scope, act: Action)
    requires Enabled(f, scope, act)
    ensures var e := Apply(f, scope, act);
            e.limit == f.limit && (e.last == f.last || (act.Admit? && e.last.Some? && e.last.value.amount == act.a.amount))
  {
    hide HasRoom, Reserve, Release, Program;
  }

  lemma {:induction false} LastIsNoLarger(f: Fleet, scope: Scope, run: seq<Action>)
    requires ValidRun(f, scope, run)
    ensures var e := After(f, scope, run);
            (e.last == f.last || (e.last.Some? && e.last.value.amount <= Largest(run))) && e.limit == f.limit
    decreases |run|
  {
    if run != [] {
      StepsLast(f, scope, run[0]);
      hide Apply, Enabled;
      LastIsNoLarger(Apply(f, scope, run[0]), scope, run[1..]);
    }
  }

  /** Nobody in the scope yet, and spend below the limit. */
  predicate Starts(f: Fleet, scope: Scope) {
    && Wf(f.books) && ScopeIds(f.books.claims, scope) == {} && f.committed < f.limit
    && f.seen == map[] && f.held == map[] && f.owed == map[] && f.todo == map[] && f.last.None?
  }

  /**
    The spend bound of the store itself. Whatever the interleaving, money spent or still owed stays
    below the limit plus what the last admission reserved, what was committed between its ledger
    read and its admission, and what was then owed by requests that had given their claims back;
    if none of them streams, there is none of the last.
  */
  lemma FleetSpendBound(f: Fleet, scope: Scope, run: seq<Action>)
    requires Starts(f, scope) && ValidRun(f, scope, run)
    ensures var e := After(f, scope, run);
            if e.last.None? then e.committed + Total(e.owed) < f.limit
            else
              && e.committed + Total(e.owed) < f.limit + Largest(run) + e.last.value.drift + e.last.value.gap
              && ((forall i :: 0 <= i < |run| ==> NoStream(run[i])) ==> e.last.value.gap == 0)
  {
    var s := P.State(f.limit, f.committed, map[], map[], map[], None);
    FleetStarts(f, scope, s);
    LastIsNoLarger(f, scope, run);
    hide Inv, Matches, Starts, ValidRun, After, P.ValidRun, P.After, P.SettlesFirst, NoStream;
    var steps := RunSimulates(f, scope, s, run);
    P.RunIsBounded(s, steps);
    SameOutcome(After(f, scope, run), P.After(s, steps));
    P.LastIsNoLarger(s, steps);
    if forall i :: 0 <= i < |run| ==> NoStream(run[i]) { P.SettlingFirstLeavesNoGap(s, steps); }
  }

  lemma FleetStarts(f: Fleet, scope: Scope, s: P.State)
    requires Starts(f, scope) && s == P.State(f.limit, f.committed, map[], map[], map[], None)
    ensures Inv(f, scope) && Matches(f, s) && SettledBeforeRelease(f) && P.Inv(s) && P.NoGap(s) && f.last.None?
  {
  }

  lemma SameOutcome(f: Fleet, s: P.State)
    requires Matches(f, s)
    ensures P.Exposure(s) == f.committed + Total(f.owed) && s.last == f.last && s.limit == f.limit
  {
  }
}
