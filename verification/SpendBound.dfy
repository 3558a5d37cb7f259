/**
  The fleet-wide spend bound of one budget scope: any number of requests read the ledger, reserve
  in one atomic step, settle at no more than they reserved or fail, and give their claim back, in
  any interleaving.
*/
module SpendBound {
  import opened Outcomes
  import opened Totals

  /**
    What the last admission saw: its own amount, what had been committed since it read the ledger,
    and what was owed by requests whose claims were already gone.
  */
  datatype Admission = Admission(amount: nat, drift: int, gap: nat)

  datatype State = State(
    limit: int,
    committed: nat,
    seen: map<nat, nat>,        // the ledger total each admitting request has read
    claims: map<nat, nat>,      // the reservation store
    unsettled: map<nat, nat>,   // dispatched requests that have not billed or failed yet
    last: Option<Admission>)

  datatype Action =
    | Read(request: nat)
    | Reserve(request: nat, amount: nat)
    | Settle(request: nat, cost: nat)
    | Fail(request: nat)
    | Release(request: nat)

  predicate Enabled(s: State, a: Action) {
    match a
    case Read(r) => r !in s.seen && r !in s.claims && r !in s.unsettled
    case Reserve(r, _) => r in s.seen && r !in s.claims && r !in s.unsettled
    case Settle(r, cost) => r in s.unsettled && cost <= s.unsettled[r]
    case Fail(r) => r in s.unsettled
    case Release(r) => r in s.claims
  }

  /** The store's one atomic step: admit iff spent plus in flight is below the limit, then record. */
  ghost predicate Admits(s: State, request: nat)
    requires request in s.seen
  {
    s.seen[request] + Total(s.claims) < s.limit
  }

  ghost function Apply(s: State, a: Action): State
    requires Enabled(s, a)
  {
    match a
    case Read(r) => s.(seen := s.seen[r := s.committed])
    case Reserve(r, amount) =>
      if Admits(s, r) then
        s.(seen := s.seen - {r}, claims := s.claims[r := amount], unsettled := s.unsettled[r := amount],
           last := Some(Admission(amount, s.committed - s.seen[r], Total(s.unsettled - s.claims.Keys))))
      else s.(seen := s.seen - {r})
    case Settle(r, cost) => s.(committed := s.committed + cost, unsettled := s.unsettled - {r})
    case Fail(r) => s.(unsettled := s.unsettled - {r})
    case Release(r) => s.(claims := s.claims - {r})
  }

  ghost predicate ValidRun(s: State, run: seq<Action>)
    decreases |run|
  {
    run == [] || (Enabled(s, run[0]) && ValidRun(Apply(s, run[0]), run[1..]))
  }

  ghost function After(s: State, run: seq<Action>): State
    requires ValidRun(s, run)
    decreases |run|
  {
    if run == [] then s else After(Apply(s, run[0]), run[1..])
  }

  /** Money spent or still owed. */
  ghost function Exposure(s: State): nat { s.committed + Total(s.unsettled) }

  ghost predicate Starts(s: State) {
    && s.last.None? && s.seen == map[]
    && (forall r :: r in s.unsettled && r in s.claims ==> s.unsettled[r] == s.claims[r])
    && Exposure(s) < s.limit
  }

  ghost predicate Bounded(s: State) {
    match s.last
    case None => Exposure(s) < s.limit
    case Some(a) => Exposure(s) < s.limit + a.amount + a.drift + a.gap
  }

  ghost predicate Inv(s: State) {
    && Bounded(s)
    && (forall r :: r in s.unsettled && r in s.claims ==> s.unsettled[r] == s.claims[r])
  }

  lemma StepKeepsInv(s: State, a: Action)
    requires Inv(s) && Enabled(s, a)
    ensures Inv(Apply(s, a))
  {
    match a
    case Read(_) =>
    case Reserve(r, amount) =>
      if Admits(s, r) {
        TotalWith(s.unsettled, r, amount);
        TotalOfAgreeing(s.unsettled, s.claims);
      }
    case Settle(r, _) => TotalWithout(s.unsettled, r);
    case Fail(r) => TotalWithout(s.unsettled, r);
    case Release(_) =>
  }

  /**
    In every run, claims released or expired at any moment included, exposure stays below the
    limit plus the last admission's amount, its read-to-reserve drift, and its gap.
  */
  lemma {:induction false} RunIsBounded(s: State, run: seq<Action>)
    requires Inv(s) && ValidRun(s, run)
    ensures Inv(After(s, run))
    decreases |run|
  {
    hide Inv;
    if run != [] {
      StepKeepsInv(s, run[0]);
      RunIsBounded(Apply(s, run[0]), run[1..]);
    }
  }

  // ---- Settle first, then release: the order of a non-streamed dispatch ----

  ghost predicate SettlesFirst(s: State, run: seq<Action>)
    requires ValidRun(s, run)
    decreases |run|
  {
    run == []
    || (&& (run[0].Release? ==> run[0].request !in s.unsettled)
        && SettlesFirst(Apply(s, run[0]), run[1..]))
  }

  ghost predicate NoGap(s: State) {
    && s.unsettled.Keys <= s.claims.Keys
    && (s.last.Some? ==> s.last.value.gap == 0)
  }

  lemma {:induction false} SettlingFirstLeavesNoGap(s: State, run: seq<Action>)
    requires ValidRun(s, run) && SettlesFirst(s, run) && NoGap(s)
    ensures NoGap(After(s, run))
    decreases |run|
  {
    if run != [] {
      assert s.unsettled - s.claims.Keys == map[];
      SettlingFirstLeavesNoGap(Apply(s, run[0]), run[1..]);
    }
  }

  /** The largest reservation any step of the run asks for. */
  function Largest(run: seq<Action>): nat {
    if run == [] then 0
    else
      var rest := Largest(run[1..]);
      if run[0].Reserve? && run[0].amount > rest then run[0].amount else rest
  }

  lemma {:induction false} LastIsNoLarger(s: State, run: seq<Action>)
    requires ValidRun(s, run)
    ensures var e := After(s, run);
            e.last == s.last || (e.last.Some? && e.last.value.amount <= Largest(run))
    ensures After(s, run).limit == s.limit
    decreases |run|
  {
    if run != [] { LastIsNoLarger(Apply(s, run[0]), run[1..]); }
  }

  /** The spend bound of dispatches that settle before they release. */
  lemma DispatchSpendBound(s: State, run: seq<Action>)
    requires Starts(s) && s.unsettled.Keys <= s.claims.Keys
    requires ValidRun(s, run) && SettlesFirst(s, run)
    ensures var e := After(s, run);
            if e.last.None? then Exposure(e) < s.limit
            else Exposure(e) < s.limit + Largest(run) + e.last.value.drift
  {
    hide After, ValidRun, SettlesFirst;
    RunIsBounded(s, run);
    SettlingFirstLeavesNoGap(s, run);
    LastIsNoLarger(s, run);
  }

  // ---- The bound is attained ----

  lemma EmptyRun(s: State)
    ensures ValidRun(s, []) && SettlesFirst(s, []) && After(s, []) == s
  {
  }

  lemma Prepend(s: State, a: Action, rest: seq<Action>)
    requires Enabled(s, a) && ValidRun(Apply(s, a), rest)
    ensures ValidRun(s, [a] + rest) && After(s, [a] + rest) == After(Apply(s, a), rest)
    ensures SettlesFirst(Apply(s, a), rest) && (a.Release? ==> a.request !in s.unsettled) ==> SettlesFirst(s, [a] + rest)
  {
    hide Apply, Enabled;
    assert ([a] + rest)[1..] == rest;
  }

  /**
    Two requests read the same total, the first reserves, bills `drift` and releases, and the second
    is admitted on its stale reading: exposure ends one unit short of the bound.
  */
  lemma BoundIsAttained(limit: nat, drift: nat, amount: nat)
    requires limit > 0
    ensures var s := State(limit, limit - 1, map[], map[], map[], None);
            var run := [Read(0), Read(1), Reserve(0, drift), Settle(0, drift), Release(0), Reserve(1, amount)];
            && Starts(s) && ValidRun(s, run) && SettlesFirst(s, run)
            && var e := After(s, run);
               && e.last == Some(Admission(amount, drift, 0))
               && Exposure(e) == limit + amount + drift - 1
  {
    hide ValidRun, After, SettlesFirst;
    var s := State(limit, limit - 1, map[], map[], map[], None);
    var s1 := Apply(s, Read(0));
    var s2 := Apply(s1, Read(1));
    var s3 := Apply(s2, Reserve(0, drift));
    assert s3.unsettled == map[0 := drift] && s3.claims == map[0 := drift];
    var s4 := Apply(s3, Settle(0, drift));
    assert s4.unsettled == map[];
    var s5 := Apply(s4, Release(0));
    assert s5.claims == map[] && s5.unsettled - s5.claims.Keys == map[];
    var s6 := Apply(s5, Reserve(1, amount));
    TotalWith(s5.unsettled, 1, amount);
    EmptyRun(s6);
    Prepend(s5, Reserve(1, amount), []);
    var r5 := [Reserve(1, amount)] + [];
    Prepend(s4, Release(0), r5);
    var r4 := [Release(0)] + r5;
    Prepend(s3, Settle(0, drift), r4);
    var r3 := [Settle(0, drift)] + r4;
    Prepend(s2, Reserve(0, drift), r3);
    var r2 := [Reserve(0, drift)] + r3;
    Prepend(s1, Read(1), r2);
    Prepend(s, Read(0), [Read(1)] + r2);
    assert [Read(0)] + ([Read(1)] + r2)
      == [Read(0), Read(1), Reserve(0, drift), Settle(0, drift), Release(0), Reserve(1, amount)];
  }

  // ---- Release first, then settle: the order of a stream ----

  /** One stream that has been admitted, has ended its output, released its claim and not yet billed. */
  function StreamSteps(r: nat, amount: nat): seq<Action> { [Read(r), Reserve(r, amount), Release(r)] }

  function Streams(n: nat, amount: nat): seq<Action> {
    if n == 0 then [] else Streams(n - 1, amount) + StreamSteps(n - 1, amount)
  }

  lemma {:induction false} RunsCompose(s: State, run: seq<Action>, more: seq<Action>)
    requires ValidRun(s, run) && ValidRun(After(s, run), more)
    ensures ValidRun(s, run + more) && After(s, run + more) == After(After(s, run), more)
    decreases |run|
  {
    if run == [] {
      assert run + more == more;
    } else {
      assert (run + more)[1..] == run[1..] + more;
      RunsCompose(Apply(s, run[0]), run[1..], more);
    }
  }

  lemma StartsEmpty(limit: nat)
    requires limit > 0
    ensures var s := State(limit, 0, map[], map[], map[], None); Starts(s) && Exposure(s) == 0
  {
  }

  lemma OneMoreStream(e: State, r: nat, amount: nat)
    requires e.seen == map[] && e.claims == map[] && r !in e.unsettled && e.committed < e.limit
    ensures ValidRun(e, StreamSteps(r, amount))
    ensures var e' := After(e, StreamSteps(r, amount));
            && Exposure(e') == Exposure(e) + amount && e'.committed == e.committed && e'.limit == e.limit
            && e'.seen == map[] && e'.claims == map[] && e'.unsettled == e.unsettled[r := amount]
  {
    hide ValidRun, After, SettlesFirst;
    var e1 := Apply(e, Read(r));
    var e2 := Apply(e1, Reserve(r, amount));
    TotalWith(e.unsettled, r, amount);
    var e3 := Apply(e2, Release(r));
    assert e3.claims == map[] && e3.seen == map[];
    EmptyRun(e3);
    Prepend(e2, Release(r), []);
    var tail := [Release(r)] + [];
    Prepend(e1, Reserve(r, amount), tail);
    Prepend(e, Read(r), [Reserve(r, amount)] + tail);
    assert [Read(r)] + ([Reserve(r, amount)] + tail) == StreamSteps(r, amount);
  }

  /** What n streams of the same amount owe. */
  function Multiple(n: nat, amount: nat): nat { if n == 0 then 0 else Multiple(n - 1, amount) + amount }

  lemma {:induction false} MultipleIsProduct(n: nat, amount: nat)
    ensures Multiple(n, amount) == n * amount
  {
    if n > 0 {
      MultipleIsProduct(n - 1, amount);
      assert n * amount == (n - 1) * amount + amount;
    }
  }

  ghost predicate Owing(e: State, limit: int, n: nat, exposure: nat) {
    && Exposure(e) == exposure && e.committed == 0 && e.seen == map[] && e.claims == map[] && e.limit == limit
    && forall k :: k in e.unsettled ==> k < n
  }

  lemma {:induction false} StreamsPileUp(s: State, n: nat, amount: nat)
    requires 0 < s.limit && Owing(s, s.limit, 0, 0)
    ensures ValidRun(s, Streams(n, amount)) && Owing(After(s, Streams(n, amount)), s.limit, n, Multiple(n, amount))
  {
    hide ValidRun, After, StreamSteps, Exposure;
    if n == 0 {
      EmptyRun(s);
    } else {
      StreamsPileUp(s, n - 1, amount);
      OneMoreStream(After(s, Streams(n - 1, amount)), n - 1, amount);
      RunsCompose(s, Streams(n - 1, amount), StreamSteps(n - 1, amount));
    }
  }

  /**
    Streams that release before they settle escape the bound: with nothing committed and no claim
    in the store, n of them still owe n reservations.
  */
  lemma ReleasingFirstIsUnbounded(limit: nat, n: nat, amount: nat)
    requires limit > 0
    ensures var s := State(limit, 0, map[], map[], map[], None);
            && Starts(s) && ValidRun(s, Streams(n, amount))
            && var e := After(s, Streams(n, amount));
               && Exposure(e) == n * amount && e.committed == 0 && e.seen == map[] && e.claims == map[] && e.limit == limit
               && (forall k :: k in e.unsettled ==> k < n)
  {
    StartsEmpty(limit);
    hide ValidRun, After, Streams, Exposure, Starts;
    StreamsPileUp(State(limit, 0, map[], map[], map[], None), n, amount);
    MultipleIsProduct(n, amount);
  }
}
