/**
  A whole chat request: preparation and admission, then a direct call or the failover loop,
  streamed or not. The main results on claims, charges and rate-limit hits are stated here.
*/
module Requests {
  import opened Outcomes
  import opened Failover
  import opened Metering
  import opened Dispatch

  /**
    What preparing a request meets: the key's rate limit, an error before admission (resolution,
    routing, validation, guardrails), the team's rate limit, and whether credentials exist.
  */
  datatype Preparation = Preparation(keyRpm: Rpm, early: Option<Error>, teamRpm: Rpm, credentials: bool)

  /** Where an admitted request goes; `LookupFails` is a failure to load the fallback candidates. */
  datatype Route = Direct | LookupFails | Routed(chain: seq<Attempt>, maxAttempts: nat, deadline: Option<nat>)

  function Hit(rpm: Rpm): nat { if rpm.Limited? then 1 else 0 }

  ghost function PrepareBooks(b: Books, caller: Caller, p: Preparation, a: Attempt): (Books, Admission) {
    var b1 := b.(keyHits := b.keyHits + Hit(p.keyRpm));
    if p.keyRpm == Limited(false) then (b1, Refused(OtherDomain))
    else if p.early.Some? then (b1, Refused(p.early.value))
    else
      var b2 := b1.(teamHits := b1.teamHits + Hit(p.teamRpm));
      if p.teamRpm == Limited(false) then (b2, Refused(OtherDomain))
      else
        var (b3, r) := GatesAdmission(b2, caller, a.gates, a.amount);
        if r.Admitted? && !p.credentials then (Release(b3, r.ids), Refused(OtherDomain)) else (b3, r)
  }

  method Prepare(meter: Meter, caller: Caller, p: Preparation, a: Attempt) returns (r: Admission)
    requires Wf(meter.State())
    modifies meter
    ensures (meter.State(), r) == PrepareBooks(old(meter.State()), caller, p, a)
  {
    hide GatesAdmission;
    if p.keyRpm.Limited? {
      meter.keyHits := meter.keyHits + 1;
      if !p.keyRpm.allowed { return Refused(OtherDomain); }
    }
    if p.early.Some? { return Refused(p.early.value); }
    r := meter.Admit(caller, a.gates, a.amount, p.teamRpm, Unlimited, false, true);
    if r.Admitted? && !p.credentials {
      meter.ReleaseAll(r.ids);
      return Refused(OtherDomain);
    }
  }

  /** A refused preparation leaves no claim and no charge; either way each limit is hit at most once. */
  lemma PreparationConserves(b: Books, caller: Caller, p: Preparation, a: Attempt)
    requires Wf(b)
    ensures var (b', r) := PrepareBooks(b, caller, p, a);
            && Wf(b') && Charges(b') == Charges(b)
            && b.keyHits <= b'.keyHits <= b.keyHits + 1 && b.teamHits <= b'.teamHits <= b.teamHits + 1
            && (r.Refused? ==> b'.claims == b.claims)
            && (r.Admitted? ==> Holds(b', a, r.ids) && b'.claims - Ids(r.ids) == b.claims)
  {
    hide GatesAdmission, HasRoom;
    var b2 := b.(keyHits := b.keyHits + Hit(p.keyRpm), teamHits := b.teamHits + Hit(p.teamRpm));
    AdmissionKeepsTheRest(b2, caller, a.gates, a.amount);
    AdmittedIff(b2, caller, a.gates, a.amount);
  }

  /**
    A request is admitted exactly when neither rate limit refuses it, nothing fails before admission,
    both budgets have room on the books it met, and the model's credentials exist.
  */
  lemma PreparedIff(b: Books, caller: Caller, p: Preparation, a: Attempt)
    requires Wf(b)
    ensures var key, team := KeyScope(caller.key), TeamScope(caller.team);
            PrepareBooks(b, caller, p, a).1.Admitted? <==>
              && p.keyRpm != Limited(false) && p.early.None? && p.teamRpm != Limited(false) && p.credentials
              && !a.gates.keyGate.KeyBroken? && !a.gates.teamGate.TeamBroken?
              && (a.gates.keyGate.KeyCap? ==> a.gates.keyGate.spent + InFlight(b.claims, key) < a.gates.keyGate.limit)
              && (a.gates.teamGate.TeamCap? ==> a.gates.teamGate.spent + InFlight(b.claims, team) < a.gates.teamGate.limit)
  {
    hide GatesAdmission, InFlight;
    AdmittedIff(b.(keyHits := b.keyHits + Hit(p.keyRpm), teamHits := b.teamHits + Hit(p.teamRpm)), caller, a.gates, a.amount);
  }

  /** Each limit is hit once when the request reaches it: the key's first, the team's after what may fail before admission. */
  lemma PreparationHits(b: Books, caller: Caller, p: Preparation, a: Attempt)
    requires Wf(b)
    ensures var b' := PrepareBooks(b, caller, p, a).0;
            && b'.keyHits == b.keyHits + (if p.keyRpm.Limited? then 1 else 0)
            && b'.teamHits == b.teamHits + (if p.keyRpm != Limited(false) && p.early.None? && p.teamRpm.Limited? then 1 else 0)
            && WroteNothing(b, b')
  {
    hide GatesAdmission;
    AdmissionKeepsTheRest(b.(keyHits := b.keyHits + Hit(p.keyRpm), teamHits := b.teamHits + Hit(p.teamRpm)), caller, a.gates, a.amount);
  }

  // ---- The request as a function of the books ----

  ghost function RequestRun(b: Books, caller: Caller, p: Preparation, first: Attempt, route: Route): Run
    requires route.Routed? ==> route.maxAttempts >= 1
  {
    var (b', r) := PrepareBooks(b, caller, p, first);
    match r
    case Refused(e) => Run(b', Raise(e), 0, 0, [])
    case Admitted(ids) =>
      match route
      case Direct => Run(Attempted(b', first, ids), ReplyTo(first.outcome), 1, 1, ids)
      case LookupFails => Run(b', Raise(Foreign), 0, 0, ids)
      case Routed(chain, maxAttempts, deadline) => RunChain(b', caller, deadline, first, Reachable(chain, maxAttempts), ids, 1)
  }

  method ChatCompletion(meter: Meter, caller: Caller, p: Preparation, first: Attempt, route: Route)
    returns (reply: Reply, attemptsMade: nat)
    requires Wf(meter.State()) && (route.Routed? ==> route.maxAttempts >= 1)
    requires !Streamed(first.outcome) && (route.Routed? ==> forall a :: a in route.chain ==> !Streamed(a.outcome))
    modifies meter
    ensures var run := RequestRun(old(meter.State()), caller, p, first, route);
            meter.State() == run.books && reply == run.reply && attemptsMade == run.made
  {
    hide PrepareBooks, RunChain, Attempted, Effects;
    PreparationConserves(meter.State(), caller, p, first);
    var admission := Prepare(meter, caller, p, first);
    if admission.Refused? { return Raise(admission.error), 0; }
    match route
    case Direct =>
      attemptsMade := 1;
      reply := RunDispatch(meter, first, admission.ids);
    case LookupFails => return Raise(Foreign), 0;
    case Routed(chain, maxAttempts, deadline) =>
      reply, attemptsMade := ChatWithFailover(meter, caller, deadline, first, chain, admission.ids, maxAttempts);
  }

  /** `held` is the claim a live stream or replay still holds. */
  method OpenChatStream(meter: Meter, caller: Caller, p: Preparation, first: Attempt, route: Route)
    returns (reply: Reply, attemptsMade: nat, held: seq<nat>)
    requires Wf(meter.State()) && (route.Routed? ==> route.maxAttempts >= 1)
    requires Streamed(first.outcome) && (route.Routed? ==> forall a :: a in route.chain ==> Streamed(a.outcome))
    modifies meter
    ensures var run := RequestRun(old(meter.State()), caller, p, first, route);
            meter.State() == run.books && reply == run.reply && attemptsMade == run.made && held == run.held
  {
    hide PrepareBooks, RunChain, Attempted, Effects;
    PreparationConserves(meter.State(), caller, p, first);
    var admission := Prepare(meter, caller, p, first);
    if admission.Refused? { return Raise(admission.error), 0, []; }
    match route
    case Direct =>
      attemptsMade, held := 1, admission.ids;
      reply := RunOpen(meter, first, admission.ids);
    case LookupFails => return Raise(Foreign), 0, admission.ids;
    case Routed(chain, maxAttempts, deadline) =>
      reply, attemptsMade, held := OpenStreamWithFailover(meter, caller, deadline, first, chain, admission.ids, maxAttempts);
  }

  // ---- Main results ----

  function Fallbacks(route: Route): seq<Attempt>
    requires route.Routed? ==> route.maxAttempts >= 1
  {
    if route.Routed? then Reachable(route.chain, route.maxAttempts) else []
  }

  /** The attempts of a request that held a claim, in order. */
  function DoneAttempts(first: Attempt, route: Route, run: Run): seq<Attempt>
    requires route.Routed? ==> route.maxAttempts >= 1
    requires run.dispatched <= 1 + |Fallbacks(route)|
  {
    if run.dispatched == 0 then [] else [first] + Fallbacks(route)[..run.dispatched - 1]
  }

  function DeadlineOf(route: Route): Option<nat> { if route.Routed? then route.deadline else None }

  /** The attempts' times and the router's deadline are read off one clock. */
  predicate Clocked(first: Attempt, route: Route)
    requires route.Routed? ==> route.maxAttempts >= 1
  {
    Timed(DeadlineOf(route), [first] + Fallbacks(route))
  }

  /**
    Attempts never exceed min(max_attempts, 1 + candidates), only a retryable failure before the
    deadline leads to the next, and an attempt that is not retryable decides the reply.
  */
  lemma RequestShape(b: Books, caller: Caller, p: Preparation, first: Attempt, route: Route)
    requires Wf(b) && (route.Routed? ==> route.maxAttempts >= 1)
    ensures var run := RequestRun(b, caller, p, first, route);
            && run.dispatched <= run.made <= 1 + |Fallbacks(route)|
            && (route.Routed? ==> run.made <= route.maxAttempts)
            && var done := DoneAttempts(first, route, run);
               && (forall i :: 0 <= i < |done| - 1 ==> Retried(done[i].outcome))
               && (forall i :: 0 < i < |done| ==> !Spent(DeadlineOf(route), done[i].startsAt))
               && (done != [] && !Retried(done[|done| - 1].outcome) ==> run.reply == ReplyTo(done[|done| - 1].outcome))
  {
    hide PrepareBooks, RunChain, Attempted, Spent, ReplyTo, Retried;
    PreparationConserves(b, caller, p, first);
    var (b', r) := PrepareBooks(b, caller, p, first);
    if r.Admitted? && route.Routed? {
      ChainShape(b', caller, route.deadline, first, Fallbacks(route), r.ids, 1);
    }
  }

  /** One logical request costs each rate limit it reaches exactly one hit, whatever the number of attempts. */
  lemma OneHitPerLimit(b: Books, caller: Caller, p: Preparation, first: Attempt, route: Route)
    requires Wf(b) && (route.Routed? ==> route.maxAttempts >= 1)
    ensures var run := RequestRun(b, caller, p, first, route);
            && run.books.keyHits == b.keyHits + (if p.keyRpm.Limited? then 1 else 0)
            && run.books.teamHits ==
                 b.teamHits + (if p.keyRpm != Limited(false) && p.early.None? && p.teamRpm.Limited? then 1 else 0)
  {
    hide PrepareBooks, RunChain;
    PreparationConserves(b, caller, p, first);
    PreparationHits(b, caller, p, first);
    var (b', r) := PrepareBooks(b, caller, p, first);
    if r.Admitted? && route.Routed? {
      ChainShape(b', caller, route.deadline, first, Fallbacks(route), r.ids, 1);
    }
  }

  /** The loop re-reads the clock before each retry, so an attempt its deadline ended is the last to be dispatched. */
  lemma ExpiredIsLast(b: Books, caller: Caller, p: Preparation, first: Attempt, route: Route)
    requires Wf(b) && (route.Routed? ==> route.maxAttempts >= 1) && Clocked(first, route)
    ensures RequestRun(b, caller, p, first, route).dispatched <= 1 + |Fallbacks(route)|
    ensures var done := DoneAttempts(first, route, RequestRun(b, caller, p, first, route));
            forall i :: 0 <= i < |done| - 1 ==> Retried(done[i].outcome) && !Expired(done[i].outcome)
  {
    RequestShape(b, caller, p, first, route);
    hide RequestRun, Expired, Retried;
    var done, all := DoneAttempts(first, route, RequestRun(b, caller, p, first, route)), [first] + Fallbacks(route);
    assert forall i :: 0 <= i < |done| ==> done[i] == all[i];
    forall i | 0 <= i < |done| - 1 ensures !Expired(done[i].outcome) {
      assert all[i].endsAt <= all[i + 1].startsAt && done[i + 1] == all[i + 1];
    }
  }

  /** Nothing but a deadline firing behind the settlement leaves a billed attempt with a retryable error. */
  lemma BilledAndRetryable(o: Outcome)
    ensures Bills(o) && Retried(o) ==> Expired(o)
    ensures KeepsClaim(o) && Retried(o) ==> Expired(o)
  {
  }

  lemma {:induction false} OnlyTheLastBills(done: seq<Attempt>)
    requires done != [] && forall i :: 0 <= i < |done| - 1 ==> Retried(done[i].outcome) && !Expired(done[i].outcome)
    ensures BilledCount(done) == if Bills(done[|done| - 1].outcome) then 1 else 0
  {
    hide Bills, Retried, Expired;
    BilledAndRetryable(done[0].outcome);
    if |done| == 1 {
      assert BilledCount(done[1..]) == 0;
    } else {
      var rest := done[1..];
      forall i | 0 <= i < |rest| - 1 ensures Retried(rest[i].outcome) && !Expired(rest[i].outcome) {
        assert rest[i] == done[i + 1];
      }
      OnlyTheLastBills(rest);
    }
  }

  /**
    One logical request is charged at most once, ledger, outbox and losses together, however many
    attempts it takes: only the last attempt dispatched can bill.
  */
  lemma ChargedAtMostOnce(b: Books, caller: Caller, p: Preparation, first: Attempt, route: Route)
    requires Wf(b) && (route.Routed? ==> route.maxAttempts >= 1) && Clocked(first, route)
    ensures RequestRun(b, caller, p, first, route).dispatched <= 1 + |Fallbacks(route)|
    ensures var run := RequestRun(b, caller, p, first, route);
            var done := DoneAttempts(first, route, run);
            && Charges(b) <= Charges(run.books) <= Charges(b) + 1
            && (Charges(run.books) == Charges(b) + 1 <==> done != [] && Bills(done[|done| - 1].outcome))
  {
    ExpiredIsLast(b, caller, p, first, route);
    hide PrepareBooks, RunChain, Attempted, Bills, Retried, Charges, Expired, Clocked;
    PreparationConserves(b, caller, p, first);
    var run := RequestRun(b, caller, p, first, route);
    var done := DoneAttempts(first, route, run);
    var (b', r) := PrepareBooks(b, caller, p, first);
    if r.Admitted? && route.Routed? { ChainShape(b', caller, route.deadline, first, Fallbacks(route), r.ids, 1); }
    if done != [] {
      OnlyTheLastBills(done);
      if route.Routed? {
        assert done == Dispatched(first, Fallbacks(route), run, 1);
      } else {
        AttemptCharges(b', first, r.ids);
        assert done == [first] && BilledCount(done[1..]) == 0;
      }
    }
  }

  /**
    And that charge is the last attempt's: the request writes what the outcome of its last attempt owes,
    or nothing when no attempt was dispatched.
  */
  lemma RequestWritesItsDue(b: Books, caller: Caller, p: Preparation, first: Attempt, route: Route)
    requires Wf(b) && (route.Routed? ==> route.maxAttempts >= 1) && Clocked(first, route)
    ensures RequestRun(b, caller, p, first, route).dispatched <= 1 + |Fallbacks(route)|
    ensures var run := RequestRun(b, caller, p, first, route);
            var done := DoneAttempts(first, route, run);
            if done == [] then WroteNothing(b, run.books) else WroteItsDue(b, run.books, done[|done| - 1])
  {
    ExpiredIsLast(b, caller, p, first, route);
    PreparationHits(b, caller, p, first);
    PreparationConserves(b, caller, p, first);
    hide PrepareBooks, RunChain, Attempted, Bills, Retried, Expired, Clocked, Holds, WroteItsDue, WroteNothing;
    var run := RequestRun(b, caller, p, first, route);
    var done := DoneAttempts(first, route, run);
    var (b', r) := PrepareBooks(b, caller, p, first);
    if r.Refused? || route.LookupFails? {
      WroteNothingTwice(b, b', run.books);
    } else if route.Direct? {
      assert done == [first];
      LastWrites(b, b', first, r.ids, run.books);
    } else {
      forall i | 0 <= i < |done| - 1 ensures !Bills(done[i].outcome) { BilledAndRetryable(done[i].outcome); }
      RoutedWritesItsDue(b, b', caller, route, first, r.ids);
    }
  }

  lemma RoutedWritesItsDue(b: Books, b': Books, caller: Caller, route: Route, first: Attempt, ids: seq<nat>)
    requires Wf(b') && WroteNothing(b, b') && route.Routed? && route.maxAttempts >= 1
    ensures var run := RunChain(b', caller, route.deadline, first, Fallbacks(route), ids, 1);
            && 1 <= run.dispatched <= 1 + |Fallbacks(route)|
            && var done := DoneAttempts(first, route, run);
               OnlyTheLastMayBill(done) ==> WroteItsDue(b, run.books, done[|done| - 1])
  {
    hide RunChain, Attempted, OnlyTheLastMayBill, WroteItsDue, WroteNothing;
    ChainWrites(b', caller, route.deadline, first, Fallbacks(route), ids, 1);
    var run := RunChain(b', caller, route.deadline, first, Fallbacks(route), ids, 1);
    var done := DoneAttempts(first, route, run);
    assert done == Dispatched(first, Fallbacks(route), run, 1);
    if OnlyTheLastMayBill(done) { LastWrites(b, b', done[|done| - 1], ids, run.books); }
  }

  lemma LastWrites(b: Books, b': Books, last: Attempt, ids: seq<nat>, end: Books)
    requires WroteNothing(b, b') && (end == Attempted(b', last, ids) || WroteNothing(Attempted(b', last, ids), end))
    ensures WroteItsDue(b, end, last)
  {
    AttemptWritesItsDue(b', last, ids);
    hide Attempted;
  }

  lemma WroteNothingTwice(b: Books, c: Books, d: Books)
    requires WroteNothing(b, c) && (c == d || WroteNothing(c, d))
    ensures WroteNothing(b, d)
  {
  }

  /**
    No answer is free: a request answered without a stream has written one more charge, for the model
    of the attempt that answered and at its cost, or at none when the cache did.
  */
  lemma AnsweredIsCharged(b: Books, caller: Caller, p: Preparation, first: Attempt, route: Route)
    requires Wf(b) && (route.Routed? ==> route.maxAttempts >= 1) && Clocked(first, route)
    requires !Streamed(first.outcome) && (route.Routed? ==> forall a :: a in route.chain ==> !Streamed(a.outcome))
    requires RequestRun(b, caller, p, first, route).reply == Answer
    ensures 1 <= RequestRun(b, caller, p, first, route).dispatched <= 1 + |Fallbacks(route)|
    ensures var run := RequestRun(b, caller, p, first, route);
            var done := DoneAttempts(first, route, run);
            var last := done[|done| - 1];
            && last.outcome in {Answered(false, false), CacheHit(false)}
            && Wrote(b, run.books, Charge(last.model, if last.outcome.CacheHit? then 0 else last.cost), last.ledgerUp, last.outboxUp)
            && Charges(run.books) == Charges(b) + 1
  {
    RequestWritesItsDue(b, caller, p, first, route);
    AnswerIsTheLasts(b, caller, p, first, route);
    hide RequestRun, Clocked;
    var run := RequestRun(b, caller, p, first, route);
    var done := DoneAttempts(first, route, run);
    var last := done[|done| - 1];
    assert last == first || last in route.chain;
    AttemptReplies(last.outcome);
  }

  lemma AnswerIsTheLasts(b: Books, caller: Caller, p: Preparation, first: Attempt, route: Route)
    requires Wf(b) && (route.Routed? ==> route.maxAttempts >= 1)
    requires RequestRun(b, caller, p, first, route).reply == Answer
    ensures 1 <= RequestRun(b, caller, p, first, route).dispatched <= 1 + |Fallbacks(route)|
    ensures var done := DoneAttempts(first, route, RequestRun(b, caller, p, first, route));
            ReplyTo(done[|done| - 1].outcome) == Answer
  {
    RequestShape(b, caller, p, first, route);
    hide PrepareBooks, RunChain, Attempted, Spent, ReplyTo, Retried;
    PreparationConserves(b, caller, p, first);
    var (b', r) := PrepareBooks(b, caller, p, first);
    if route.Routed? { ChainShape(b', caller, route.deadline, first, Fallbacks(route), r.ids, 1); }
  }

  /**
    Why a routed request ends where it does: its last attempt was not retryable, or every fallback it
    may use was tried, or the next one met a spent deadline, failed in its setup, or was refused.
  */
  lemma RequestStops(b: Books, caller: Caller, p: Preparation, first: Attempt, route: Route)
    requires Wf(b) && route.Routed? && route.maxAttempts >= 1
    requires PrepareBooks(b, caller, p, first).1.Admitted?
    ensures 1 <= RequestRun(b, caller, p, first, route).dispatched <= 1 + |Fallbacks(route)|
    ensures |Fallbacks(route)| == if route.maxAttempts <= |route.chain| then route.maxAttempts - 1 else |route.chain|
    ensures Fallbacks(route) <= route.chain
    ensures var run := RequestRun(b, caller, p, first, route);
            var done := DoneAttempts(first, route, run);
            StoppedFor(run, caller, route.deadline, done[|done| - 1], Fallbacks(route)[|done| - 1..])
  {
    hide PrepareBooks, RunChain, StoppedFor;
    PreparationConserves(b, caller, p, first);
    var (b', r) := PrepareBooks(b, caller, p, first);
    ChainStops(b', caller, route.deadline, first, Fallbacks(route), r.ids, 1);
  }

  /**
    Which errors fail over. With a fallback that is ready and would be admitted in time, attempt one
    leads to a second attempt exactly when a call raised one of four upstream errors, an open or a
    priming one of these or a malformed response, or the attempt's own deadline fired.
  */
  lemma SecondAttemptIff(b: Books, caller: Caller, p: Preparation, first: Attempt, route: Route)
    requires Wf(b) && route.Routed? && route.maxAttempts >= 2 && route.chain != []
    requires var (b', r) := PrepareBooks(b, caller, p, first);
             var next := route.chain[0];
             && r.Admitted? && !Spent(route.deadline, next.startsAt) && next.setup.Ready?
             && GatesAdmission(Attempted(b', first, r.ids), caller, next.gates, next.amount).1.Admitted?
    ensures RequestRun(b, caller, p, first, route).dispatched >= 2 <==>
              match first.outcome
              case CallFailed(e) => e in {UpstreamTimeout, UpstreamRateLimited, UpstreamUnavailable, UpstreamAuthFailed}
              case OpenFailed(e) =>
                e in {UpstreamTimeout, UpstreamRateLimited, UpstreamUnavailable, UpstreamAuthFailed, UpstreamResponseInvalid}
              case PrimeFailed(e) =>
                e in {UpstreamTimeout, UpstreamRateLimited, UpstreamUnavailable, UpstreamAuthFailed, UpstreamResponseInvalid}
              case Answered(_, late) => late
              case NeverEntered => true
              case NeverOpened => true
              case NeverPrimed => true
              case PrimeCancelled => true
              case _ => false
  {
    RetriedWhen(first.outcome);
    PreparationConserves(b, caller, p, first);
    hide PrepareBooks, RunChain, GatesAdmission, Attempted, Retried, Spent;
    var (b', r) := PrepareBooks(b, caller, p, first);
    var rest := Fallbacks(route);
    assert rest[0] == route.chain[0];
    ChainUnfolds(b', caller, route.deadline, first, rest, r.ids, 1);
    if !Ends(b', caller, route.deadline, first, rest, r.ids) {
      NextStep(b', caller, route.deadline, first, rest, r.ids);
      var (b'', ids') := NextBooks(b', caller, route.deadline, first, rest, r.ids);
      ChainShape(b'', caller, route.deadline, rest[0], rest[1..], ids', 2);
    }
  }

  /** Claims nobody gives back: fallback lookups failing after admission. */
  predicate Stranded(run: Run, route: Route) {
    route.LookupFails? && run.held != []
  }

  lemma OneAttemptConserves(b: Books, a: Attempt, ids: seq<nat>)
    requires Holds(b, a, ids)
    ensures var base, after := b.claims - Ids(ids), Attempted(b, a, ids).claims;
            Within(base, after) && (after == base <==> !Leaks(a)) && after - Ids(ids) == base
  {
    AttemptClaims(b, a, ids);
    hide Attempted, Leaks, Holds;
    assert b.claims - Ids(ids) - Ids(ids) == b.claims - Ids(ids);
  }

  /**
    Reservation conservation: the store ends as it began if and only if no attempt that ran kept a
    claim and no lookup stranded the first one. Claims of other requests are never touched.
  */
  lemma ReservationsConserved(b: Books, caller: Caller, p: Preparation, first: Attempt, route: Route)
    requires Wf(b) && (route.Routed? ==> route.maxAttempts >= 1)
    ensures RequestRun(b, caller, p, first, route).dispatched <= 1 + |Fallbacks(route)|
    ensures var run := RequestRun(b, caller, p, first, route);
            var done := DoneAttempts(first, route, run);
            && Within(b.claims, run.books.claims)
            && (run.books.claims == b.claims <==>
                  !Stranded(run, route) && forall i :: 0 <= i < |done| ==> !Leaks(done[i]))
            && ((forall i :: 0 <= i < |done| - 1 ==> !Leaks(done[i])) ==> run.books.claims - Ids(run.held) == b.claims)
  {
    RequestShape(b, caller, p, first, route);
    hide PrepareBooks, RunChain, Attempted, Leaks;
    PreparationConserves(b, caller, p, first);
    var run := RequestRun(b, caller, p, first, route);
    var done := DoneAttempts(first, route, run);
    var (b', r) := PrepareBooks(b, caller, p, first);
    if r.Refused? {
      assert b.claims - Ids([]) == b.claims;
    } else if route.Direct? {
      OneAttemptConserves(b', first, r.ids);
      assert done == [first] && run.held == r.ids && run.books == Attempted(b', first, r.ids);
      assert (forall i :: 0 <= i < |done| ==> !Leaks(done[i])) <==> !Leaks(done[0]);
    } else if route.LookupFails? {
      if r.ids != [] { assert r.ids[0] in b'.claims && r.ids[0] in Ids(r.ids); }
      else { assert b'.claims - Ids(r.ids) == b'.claims; }
    } else {
      ChainClaims(b', caller, route.deadline, first, Fallbacks(route), r.ids, 1);
      assert done == Dispatched(first, Fallbacks(route), run, 1);
    }
  }

  /** At most one attempt, the last, keeps its claim; giving back what it holds restores the store. */
  lemma OnlyTheLastMayKeepAClaim(b: Books, caller: Caller, p: Preparation, first: Attempt, route: Route)
    requires Wf(b) && (route.Routed? ==> route.maxAttempts >= 1) && Clocked(first, route)
    ensures RequestRun(b, caller, p, first, route).dispatched <= 1 + |Fallbacks(route)|
    ensures var run := RequestRun(b, caller, p, first, route);
            var done := DoneAttempts(first, route, run);
            && run.books.claims - Ids(run.held) == b.claims
            && (run.books.claims == b.claims <==> !Stranded(run, route) && (done != [] ==> !Leaks(done[|done| - 1])))
  {
    ExpiredIsLast(b, caller, p, first, route);
    ReservationsConserved(b, caller, p, first, route);
    hide RequestRun, Retried, Expired, Clocked, KeepsClaim;
    var done := DoneAttempts(first, route, RequestRun(b, caller, p, first, route));
    forall i | 0 <= i < |done| - 1 ensures !Leaks(done[i]) { BilledAndRetryable(done[i].outcome); }
  }

  /**
    The attempts after the first serve, in declared order, capable declared candidates other than
    the one attempt one was chosen as.
  */
  lemma FallbacksAreDeclared(b: Books, caller: Caller, p: Preparation, first: Attempt, route: Route, ctx: Context,
                             candidates: seq<Candidate>, chosen: string, models: map<Candidate, Model>, fallbacks: seq<Candidate>)
    returns (ix: seq<nat>)
    requires Wf(b) && route.Routed? && route.maxAttempts >= 1 && |route.chain| == |fallbacks|
    requires Servable(ctx, candidates, chosen, models, fallbacks)
    requires forall k :: 0 <= k < |fallbacks| ==> fallbacks[k] in models && route.chain[k].model == models[fallbacks[k]].id
    ensures RequestRun(b, caller, p, first, route).dispatched <= 1 + |Fallbacks(route)|
    ensures var done := DoneAttempts(first, route, RequestRun(b, caller, p, first, route));
            && Increasing(ix, |candidates|) && (done != [] ==> |ix| == |done| - 1)
            && forall k :: 0 <= k < |ix| && k + 1 < |done| ==>
                 && Fallback(ctx, candidates[ix[k]], chosen, models)
                 && done[k + 1].model == models[candidates[ix[k]]].id
  {
    RequestShape(b, caller, p, first, route);
    hide Fallback, RequestRun, Servable, Increasing;
    var done := DoneAttempts(first, route, RequestRun(b, caller, p, first, route));
    ix := ServablePrefix(ctx, candidates, chosen, models, fallbacks, if done == [] then 0 else |done| - 1);
    assert forall k :: 0 <= k < |ix| ==> done[k + 1] == route.chain[k];
  }

  // ---- Requests that end with a claim ----

  const NO_BOOKS := Books(map[], 0, [], [], [], 0, 0)
  const EASY := Preparation(Unlimited, None, Unlimited, true)

  /** An attempt by a key with a cap of 100 and nothing spent. */
  function CappedAttempt(o: Outcome): Attempt {
    Attempt(1, 5, Gates(KeyCap(0, 100), TeamFree), 0, Ready, o, 10, 5, true, true)
  }

  lemma CappedAttemptIsAdmitted(caller: Caller, o: Outcome)
    ensures PrepareBooks(NO_BOOKS, caller, EASY, CappedAttempt(o))
            == (Reserve(NO_BOOKS, KeyScope(caller.key), 5), Admitted([0]))
  {
    assert Amounts(map[], {}, KeyScope(caller.key)) == map[];
    assert InFlight(NO_BOOKS.claims, KeyScope(caller.key)) == 0;
    assert [0] + [] == [0];
  }

  /** The deadline is spent between the admission and the dispatch of the only attempt. */
  lemma SpentDeadlineKeepsItsClaim(caller: Caller)
    ensures var first, route := CappedAttempt(NeverEntered), Routed([], 2, Some(10));
            var run := RequestRun(NO_BOOKS, caller, EASY, first, route);
            && Clocked(first, route) && run.reply == Raise(UpstreamTimeout)
            && run.books.claims == map[0 := Claim(KeyScope(caller.key), 5)] && Charges(run.books) == 0
  {
    CappedAttemptIsAdmitted(caller, NeverEntered);
    hide PrepareBooks;
  }

  /** The fallback candidates cannot be loaded. */
  lemma FailedLookupStrandsItsClaim(caller: Caller)
    ensures var run := RequestRun(NO_BOOKS, caller, EASY, CappedAttempt(Answered(false, false)), LookupFails);
            && run.reply == Raise(Foreign) && Stranded(run, LookupFails)
            && run.books.claims == map[0 := Claim(KeyScope(caller.key), 5)]
  {
    CappedAttemptIsAdmitted(caller, Answered(false, false));
    hide PrepareBooks;
  }

  /** The client cancels between the record of a cache hit and the release behind it. */
  lemma CancelledCacheHitKeepsItsClaim(caller: Caller)
    ensures var first := CappedAttempt(CacheAbandoned(true));
            var run := RequestRun(NO_BOOKS, caller, EASY, first, Direct);
            && Clocked(first, Direct) && run.books.claims == map[0 := Claim(KeyScope(caller.key), 5)]
            && run.books.ledger == [Charge(1, 0)]
  {
    CappedAttemptIsAdmitted(caller, CacheAbandoned(true));
    hide PrepareBooks;
  }
}
