/**
  One attempt at a provider, streamed or not, and the failover loops over attempts. The
  environment (provider, guardrails, deadline, repositories) is a script of outcomes.
*/
module Dispatch {
  import opened Outcomes
  import opened Failover
  import opened Metering

  /** How an attempt whose claim is held ends. `Abandoned` and its kin are the client's cancellation. */
  datatype Outcome =
    // a non-streamed dispatch
    | Answered(guardBlocks: bool, lateDeadline: bool)   // settled; the deadline may still fire behind the settlement
    | CacheHit(guardBlocks: bool)                       // the exact cache answered
    | CacheAbandoned(billed: bool)                      // cancelled on the cache path, which no handler covers
    | CallFailed(error: Error)                          // the provider call raised, its own deadline expiry included
    | Abandoned(billed: bool)                           // cancelled in the call or behind it
    | NeverEntered                                      // the deadline was spent before the dispatch began
    // a streamed one, up to its first chunk
    | ReplayStarted                                     // the exact cache answered; the stored body is replayed
    | LookupAbandoned                                   // cancelled in the cache lookup, which no handler covers
    | OpenFailed(error: Error)
    | NeverOpened                                       // the deadline was spent before the stream was opened
    | NeverPrimed                                       // or between the open and the first chunk
    | PrimeFailed(error: Error)                         // the provider raised before the first chunk
    | PrimeCancelled                                    // the deadline cancelled the wait for the first chunk
    | PrimeAbandoned                                    // the client did
    | EmptyStream                                       // the provider ended without a chunk
    | FirstChunk                                        // the stream is handed to the client, claim and all

  predicate Streamed(o: Outcome) {
    match o
    case Answered(_, _) => false
    case CacheHit(_) => false
    case CacheAbandoned(_) => false
    case CallFailed(_) => false
    case Abandoned(_) => false
    case NeverEntered => false
    case _ => true
  }

  function ErrorOf(o: Outcome): Option<Error> {
    match o
    case Answered(blocks, late) => if late then Some(UpstreamTimeout) else if blocks then Some(OtherDomain) else None
    case CacheHit(blocks) => if blocks then Some(OtherDomain) else None
    case CacheAbandoned(_) => Some(Foreign)
    case CallFailed(e) => Some(e)
    case Abandoned(_) => Some(Foreign)
    case ReplayStarted => None
    case LookupAbandoned => Some(Foreign)
    case OpenFailed(e) => Some(e)
    case PrimeFailed(e) => Some(e)
    case PrimeAbandoned => Some(Foreign)
    case EmptyStream => None
    case FirstChunk => None
    case _ => Some(UpstreamTimeout)
  }

  predicate Bills(o: Outcome) {
    o.Answered? || o.CacheHit? || o == CacheAbandoned(true) || o == CallFailed(UpstreamResponseInvalid) || o == Abandoned(true)
    || o.PrimeCancelled? || o.PrimeAbandoned? || o.EmptyStream?
  }

  /** The claim outlives the attempt: on purpose for a live stream or replay, by omission otherwise. */
  predicate KeepsClaim(o: Outcome) {
    o.NeverEntered? || o.CacheAbandoned? || o.LookupAbandoned? || o.FirstChunk? || o.ReplayStarted?
  }

  predicate Retried(o: Outcome) {
    var e := ErrorOf(o);
    e.Some? && IsFailoverEligible(e.value) && o != CallFailed(UpstreamResponseInvalid)
  }

  /** The router's deadline ended the attempt. */
  predicate Expired(o: Outcome) {
    o.NeverEntered? || o.NeverOpened? || o.NeverPrimed? || o.PrimeCancelled? || (o.Answered? && o.lateDeadline)
  }

  /** What a retry meets, once it is due, before it is admitted. */
  datatype Setup = Ready | SetupFails(error: Error)

  /** `startsAt` and `endsAt` are the time elapsed when the loop turns to the attempt and when it ended. */
  datatype Attempt = Attempt(
    model: nat, amount: nat, gates: Gates, startsAt: nat, setup: Setup, outcome: Outcome, endsAt: nat,
    cost: nat, ledgerUp: bool, outboxUp: bool)

  predicate Spent(deadline: Option<nat>, elapsed: nat) { deadline.Some? && elapsed >= deadline.value }

  /** One clock times the loop and its deadline: time does not go back, and only a spent deadline ends an attempt. */
  predicate Timed(deadline: Option<nat>, attempts: seq<Attempt>) {
    && (forall i :: 0 <= i < |attempts| - 1 ==> attempts[i].endsAt <= attempts[i + 1].startsAt)
    && forall i :: 0 <= i < |attempts| && Expired(attempts[i].outcome) ==> Spent(deadline, attempts[i].endsAt)
  }

  datatype Reply = Answer | Raise(error: Error)

  function ReplyTo(o: Outcome): Reply {
    match ErrorOf(o) case None => Answer case Some(e) => Raise(e)
  }

  function WriteOf(a: Attempt): Write {
    if a.ledgerUp then Recorded else if a.outboxUp then DeadLettered else Dropped
  }

  /** A cache hit is recorded at no cost. */
  function ChargeOf(a: Attempt): Charge {
    Charge(a.model, if a.outcome.CacheHit? || a.outcome.CacheAbandoned? then 0 else a.cost)
  }

  /** The books after one attempt that holds the claims `ids`. */
  function Attempted(b: Books, a: Attempt, ids: seq<nat>): Books {
    var billed := if Bills(a.outcome) then Bill(b, ChargeOf(a), WriteOf(a)) else b;
    if KeepsClaim(a.outcome) then billed else Release(billed, ids)
  }

  /**
    The order of it: a dispatch settles before it releases; a stream that failed to open only
    releases; one that was opened releases before it settles; a live one has done neither yet.
  */
  function Effects(a: Attempt, ids: seq<nat>): seq<Effect> {
    var settling := if Bills(a.outcome) then Billed(ChargeOf(a)) else Spared;
    if a.outcome.FirstChunk? || a.outcome.ReplayStarted? then []
    else if KeepsClaim(a.outcome) then [settling]
    else if Streamed(a.outcome) && !a.outcome.OpenFailed? && !a.outcome.NeverOpened? then [GaveBack(ids), settling]
    else [settling, GaveBack(ids)]
  }

  lemma EffectsExplainTheBooks(b: Books, a: Attempt, ids: seq<nat>)
    ensures Play(b, Effects(a, ids), WriteOf(a)) == Attempted(b, a, ids)
  {
    var effects, w := Effects(a, ids), WriteOf(a);
    hide Bill;
    if |effects| == 2 {
      assert effects[1..] == [effects[1]] && effects[1..][1..] == [];
      var next := Happen(b, effects[0], w);
      assert Play(b, effects, w) == Play(next, effects[1..], w) == Play(Happen(next, effects[1], w), [], w);
      ReleaseThenBill(b, ids, ChargeOf(a), w);
    } else if |effects| == 1 {
      assert effects[1..] == [];
      assert Play(b, effects, w) == Happen(b, effects[0], w);
    }
  }

  lemma ReleaseThenBill(b: Books, ids: seq<nat>, charge: Charge, w: Write)
    ensures Bill(Release(b, ids), charge, w) == Release(Bill(b, charge, w), ids)
  {
  }

  // ---- What each outcome costs, gives back and answers ----

  /**
    What an attempt owes. An answer is paid for, and so is a response that turned out malformed; a hit
    in the cache is recorded at no cost; any other failed call or open is free. A stream stopped
    before its first chunk, unless the provider failed, is billed for what it sent.
  */
  predicate WroteItsDue(b: Books, after: Books, a: Attempt) {
    var paid, free := Charge(a.model, a.cost), Charge(a.model, 0);
    match a.outcome
    case Answered(_, _) => Wrote(b, after, paid, a.ledgerUp, a.outboxUp)
    case CallFailed(e) =>
      if e == UpstreamResponseInvalid then Wrote(b, after, paid, a.ledgerUp, a.outboxUp) else WroteNothing(b, after)
    case Abandoned(billed) => if billed then Wrote(b, after, paid, a.ledgerUp, a.outboxUp) else WroteNothing(b, after)
    case CacheHit(_) => Wrote(b, after, free, a.ledgerUp, a.outboxUp)
    case CacheAbandoned(billed) => if billed then Wrote(b, after, free, a.ledgerUp, a.outboxUp) else WroteNothing(b, after)
    case PrimeCancelled => Wrote(b, after, paid, a.ledgerUp, a.outboxUp)
    case PrimeAbandoned => Wrote(b, after, paid, a.ledgerUp, a.outboxUp)
    case EmptyStream => Wrote(b, after, paid, a.ledgerUp, a.outboxUp)
    case _ => WroteNothing(b, after)
  }

  lemma AttemptWritesItsDue(b: Books, a: Attempt, ids: seq<nat>)
    ensures WroteItsDue(b, Attempted(b, a, ids), a)
  {
  }

  /** Every attempt gives its claims back, but for one refused at the door, cancelled around the cache, or live. */
  lemma AttemptGivesBack(b: Books, a: Attempt, ids: seq<nat>)
    ensures Attempted(b, a, ids).claims ==
              match a.outcome
              case NeverEntered => b.claims
              case CacheAbandoned(_) => b.claims
              case LookupAbandoned => b.claims
              case ReplayStarted => b.claims
              case FirstChunk => b.claims
              case _ => b.claims - Ids(ids)
    ensures Attempted(b, a, ids).keyHits == b.keyHits && Attempted(b, a, ids).teamHits == b.teamHits
  {
  }

  /** In which order: a dispatch settles and then releases, a stream once opened releases and then settles. */
  lemma AttemptOrder(a: Attempt, ids: seq<nat>) returns (settling: Effect)
    ensures !settling.GaveBack?
    ensures Effects(a, ids) ==
              match a.outcome
              case FirstChunk => []
              case ReplayStarted => []
              case NeverEntered => [settling]
              case CacheAbandoned(_) => [settling]
              case LookupAbandoned => [settling]
              case OpenFailed(_) => [settling, GaveBack(ids)]
              case NeverOpened => [settling, GaveBack(ids)]
              case Answered(_, _) => [settling, GaveBack(ids)]
              case CacheHit(_) => [settling, GaveBack(ids)]
              case CallFailed(_) => [settling, GaveBack(ids)]
              case Abandoned(_) => [settling, GaveBack(ids)]
              case _ => [GaveBack(ids), settling]
  {
    settling := if Bills(a.outcome) then Billed(ChargeOf(a)) else Spared;
    hide Bills, ChargeOf;
  }

  /** Blocked content, a spent deadline and a cancellation never reach the client as an answer. */
  lemma AttemptReplies(o: Outcome)
    ensures ReplyTo(o) == Answer <==>
              o == Answered(false, false) || o == CacheHit(false) || o.ReplayStarted? || o.EmptyStream? || o.FirstChunk?
    ensures o.CallFailed? || o.OpenFailed? || o.PrimeFailed? ==> ReplyTo(o) == Raise(o.error)
    ensures o.NeverEntered? || o.NeverOpened? || o.NeverPrimed? || o.PrimeCancelled? || (o.Answered? && o.lateDeadline) ==>
              ReplyTo(o) == Raise(UpstreamTimeout)
    ensures o == Answered(true, false) || o == CacheHit(true) ==> ReplyTo(o) == Raise(OtherDomain)
    ensures o.CacheAbandoned? || o.Abandoned? || o.LookupAbandoned? || o.PrimeAbandoned? ==> ReplyTo(o) == Raise(Foreign)
  {
  }

  /** The errors that lead to a retry, and that a malformed response does so only where it has not been paid for. */
  lemma RetriedWhen(o: Outcome)
    ensures Retried(o) <==>
              match o
              case CallFailed(e) => e in {UpstreamTimeout, UpstreamRateLimited, UpstreamUnavailable, UpstreamAuthFailed}
              case OpenFailed(e) =>
                e in {UpstreamTimeout, UpstreamRateLimited, UpstreamUnavailable, UpstreamAuthFailed, UpstreamResponseInvalid}
              case PrimeFailed(e) =>
                e in {UpstreamTimeout, UpstreamRateLimited, UpstreamUnavailable, UpstreamAuthFailed, UpstreamResponseInvalid}
              case Answered(_, late) => late
              case NeverEntered => true
              case NeverOpened => true
              case NeverPrimed => true
              case PrimeCancelled => true
              case _ => false
  {
  }

  /** `_dispatch` under the attempt's deadline: bill, guard, and release in the `finally`. */
  method RunDispatch(meter: Meter, a: Attempt, ids: seq<nat>) returns (reply: Reply)
    requires !Streamed(a.outcome)
    modifies meter
    ensures meter.State() == Attempted(old(meter.State()), a, ids)
    ensures meter.log == old(meter.log) + Effects(a, ids)
    ensures reply == ReplyTo(a.outcome)
  {
    hide Bill, Release;
    match a.outcome
    case NeverEntered =>
      meter.Spare();
      reply := Raise(UpstreamTimeout);
    case CacheHit(blocks) =>
      meter.RecordUsage(Charge(a.model, 0), a.ledgerUp, a.outboxUp);
      meter.ReleaseAll(ids);
      reply := if blocks then Raise(OtherDomain) else Answer;
    case CacheAbandoned(billed) =>
      if billed { meter.RecordUsage(Charge(a.model, 0), a.ledgerUp, a.outboxUp); } else { meter.Spare(); }
      reply := Raise(Foreign);
    case CallFailed(e) =>
      if e == UpstreamResponseInvalid { meter.RecordUsage(Charge(a.model, a.cost), a.ledgerUp, a.outboxUp); }
      else { meter.Spare(); }
      reply := Raise(e);
      meter.ReleaseAll(ids);
    case Abandoned(billed) =>
      if billed { meter.RecordUsage(Charge(a.model, a.cost), a.ledgerUp, a.outboxUp); } else { meter.Spare(); }
      reply := Raise(Foreign);
      meter.ReleaseAll(ids);
    case Answered(blocks, late) =>
      meter.RecordUsage(Charge(a.model, a.cost), a.ledgerUp, a.outboxUp);
      reply := if late then Raise(UpstreamTimeout) else if blocks then Raise(OtherDomain) else Answer;
      meter.ReleaseAll(ids);
  }

  /** Opening and priming one stream; the metered generator releases once, then bills. */
  method RunOpen(meter: Meter, a: Attempt, ids: seq<nat>) returns (reply: Reply)
    requires Streamed(a.outcome)
    modifies meter
    ensures meter.State() == Attempted(old(meter.State()), a, ids)
    ensures meter.log == old(meter.log) + Effects(a, ids)
    ensures reply == ReplyTo(a.outcome)
  {
    match a.outcome
    case ReplayStarted => reply := Answer;
    case LookupAbandoned =>
      meter.Spare();
      reply := Raise(Foreign);
    case OpenFailed(e) =>
      meter.Spare();
      meter.ReleaseAll(ids);
      reply := Raise(e);
    case NeverOpened =>
      meter.Spare();
      meter.ReleaseAll(ids);
      reply := Raise(UpstreamTimeout);
    case FirstChunk => reply := Answer;
    case EmptyStream =>
      meter.ReleaseAll(ids);
      meter.RecordUsage(Charge(a.model, a.cost), a.ledgerUp, a.outboxUp);
      reply := Answer;
    case PrimeFailed(e) =>
      meter.ReleaseAll(ids);
      meter.Spare();
      reply := Raise(e);
    case PrimeCancelled =>
      meter.ReleaseAll(ids);
      meter.RecordUsage(Charge(a.model, a.cost), a.ledgerUp, a.outboxUp);
      reply := Raise(UpstreamTimeout);
    case PrimeAbandoned =>
      meter.ReleaseAll(ids);
      meter.RecordUsage(Charge(a.model, a.cost), a.ledgerUp, a.outboxUp);
      reply := Raise(Foreign);
    case NeverPrimed =>
      meter.ReleaseAll(ids);
      meter.Spare();
      reply := Raise(UpstreamTimeout);
  }

  // ---- The failover loop, as a function ----

  /**
    `made` counts the attempts begun, `dispatched` those that got as far as holding their claims,
    and `held` is what the last of these held.
  */
  datatype Run = Run(books: Books, reply: Reply, made: nat, dispatched: nat, held: seq<nat>)

  ghost function RunChain(b: Books, caller: Caller, deadline: Option<nat>, a: Attempt, rest: seq<Attempt>, ids: seq<nat>, made: nat): Run
    requires made > 0
    decreases |rest|, 1
  {
    var after := Attempted(b, a, ids);
    if !Retried(a.outcome) || rest == [] then Run(after, ReplyTo(a.outcome), made, made, ids)
    else RetryChain(after, caller, deadline, rest, ErrorOf(a.outcome).value, ids, made)
  }

  /** The loop's head from the second iteration on: `made` attempts have failed, the last with `error`. */
  ghost function RetryChain(b: Books, caller: Caller, deadline: Option<nat>, rest: seq<Attempt>, error: Error, last: seq<nat>, made: nat): Run
    requires rest != [] && made > 0
    decreases |rest|, 0
  {
    if Spent(deadline, rest[0].startsAt) then Run(b, Raise(error), made + 1, made, last)
    else
      match rest[0].setup
      case SetupFails(e) => Run(b, Raise(e), made + 1, made, last)
      case Ready =>
        var (b', admission) := GatesAdmission(b, caller, rest[0].gates, rest[0].amount);
        match admission
        case Refused(e) => Run(b', Raise(e), made + 1, made, last)
        case Admitted(ids) => RunChain(b', caller, deadline, rest[0], rest[1..], ids, made + 1)
  }

  /** The fallbacks the loop may reach. */
  function Reachable(chain: seq<Attempt>, maxAttempts: nat): seq<Attempt>
    requires maxAttempts >= 1
  {
    if maxAttempts - 1 < |chain| then chain[..maxAttempts - 1] else chain
  }

  /** The loop both twins run; they differ in what an attempt is. */
  method RunAttempts(meter: Meter, caller: Caller, deadline: Option<nat>, first: Attempt, chain: seq<Attempt>, ids: seq<nat>,
                     maxAttempts: nat, streamed: bool)
    returns (reply: Reply, attemptsMade: nat, held: seq<nat>)
    requires maxAttempts >= 1 && Wf(meter.State())
    requires Streamed(first.outcome) == streamed && forall a :: a in chain ==> Streamed(a.outcome) == streamed
    modifies meter
    ensures var run := RunChain(old(meter.State()), caller, deadline, first, Reachable(chain, maxAttempts), ids, 1);
            meter.State() == run.books && reply == run.reply && attemptsMade == run.made && held == run.held
  {
    hide GatesAdmission, Attempted, Effects, Spent;
    var limit := if maxAttempts < 1 + |chain| then maxAttempts else 1 + |chain|;
    var rest := Reachable(chain, maxAttempts);
    ghost var run := RunChain(meter.State(), caller, deadline, first, rest, ids, 1);
    var current, lastError := first, OtherDomain;
    held := ids;
    attemptsMade := 0;
    for i := 0 to limit
      invariant attemptsMade == i && Wf(meter.State()) && Streamed(current.outcome) == streamed
      invariant if i == 0 then current == first && held == ids && run == RunChain(meter.State(), caller, deadline, first, rest, ids, 1)
                else i < limit && run == RetryChain(meter.State(), caller, deadline, rest[i - 1..], lastError, held, i)
    {
      attemptsMade := i + 1;
      if i > 0 {
        current := rest[i - 1];
        assert rest[i - 1..][0] == current && rest[i - 1..][1..] == rest[i..];
        if Spent(deadline, current.startsAt) { return Raise(lastError), attemptsMade, held; }
        if current.setup.SetupFails? { return Raise(current.setup.error), attemptsMade, held; }
        AdmissionKeepsTheRest(meter.State(), caller, current.gates, current.amount);
        var admission := meter.Admit(caller, current.gates, current.amount, Unlimited, Unlimited, true, true);
        if admission.Refused? { return Raise(admission.error), attemptsMade, held; }
        held := admission.ids;
      }
      AttemptKeepsWf(meter.State(), current, held);
      assert rest[0..] == rest;
      if streamed { reply := RunOpen(meter, current, held); } else { reply := RunDispatch(meter, current, held); }
      if !Retried(current.outcome) || i == limit - 1 { return; }
      lastError := reply.error;
    }
    assert false;
  }

  /** Each attempt is dispatched under what is left of the router's deadline. */
  method ChatWithFailover(meter: Meter, caller: Caller, deadline: Option<nat>, first: Attempt, chain: seq<Attempt>, ids: seq<nat>,
                          maxAttempts: nat)
    returns (reply: Reply, attemptsMade: nat)
    requires maxAttempts >= 1 && Wf(meter.State())
    requires !Streamed(first.outcome) && forall a :: a in chain ==> !Streamed(a.outcome)
    modifies meter
    ensures var run := RunChain(old(meter.State()), caller, deadline, first, Reachable(chain, maxAttempts), ids, 1);
            meter.State() == run.books && reply == run.reply && attemptsMade == run.made
  {
    var held;
    reply, attemptsMade, held := RunAttempts(meter, caller, deadline, first, chain, ids, maxAttempts, false);
  }

  /** The streaming twin: only what happens before the first chunk can be retried; `held` is the live stream's claim. */
  method OpenStreamWithFailover(meter: Meter, caller: Caller, deadline: Option<nat>, first: Attempt, chain: seq<Attempt>, ids: seq<nat>,
                                maxAttempts: nat)
    returns (reply: Reply, attemptsMade: nat, held: seq<nat>)
    requires maxAttempts >= 1 && Wf(meter.State())
    requires Streamed(first.outcome) && forall a :: a in chain ==> Streamed(a.outcome)
    modifies meter
    ensures var run := RunChain(old(meter.State()), caller, deadline, first, Reachable(chain, maxAttempts), ids, 1);
            meter.State() == run.books && reply == run.reply && attemptsMade == run.made && held == run.held
  {
    reply, attemptsMade, held := RunAttempts(meter, caller, deadline, first, chain, ids, maxAttempts, true);
  }

  lemma AttemptKeepsWf(b: Books, a: Attempt, ids: seq<nat>)
    requires Wf(b)
    ensures Wf(Attempted(b, a, ids))
  {
  }

  // ---- What a chain of attempts does to the books ----

  predicate Capped(g: Gates) { g.keyGate.KeyCap? || g.teamGate.TeamCap? }

  /** The attempt's claims are in the store: one per capped scope. */
  predicate Holds(b: Books, a: Attempt, ids: seq<nat>) {
    (forall id :: id in ids ==> id in b.claims) && (ids == [] <==> !Capped(a.gates))
  }

  /** A claim stays behind. */
  predicate Leaks(a: Attempt) { KeepsClaim(a.outcome) && Capped(a.gates) }

  function BilledCount(attempts: seq<Attempt>): nat {
    if attempts == [] then 0 else (if Bills(attempts[0].outcome) then 1 else 0) + BilledCount(attempts[1..])
  }

  /** The attempts of the run that got as far as holding a claim. */
  function Dispatched(a: Attempt, rest: seq<Attempt>, run: Run, made: nat): seq<Attempt>
    requires made <= run.dispatched <= made + |rest|
  {
    [a] + rest[..run.dispatched - made]
  }

  /** The base case and the step of every induction below. */
  ghost predicate Ends(b: Books, caller: Caller, deadline: Option<nat>, a: Attempt, rest: seq<Attempt>, ids: seq<nat>) {
    !Retried(a.outcome) || rest == [] || Spent(deadline, rest[0].startsAt) || !rest[0].setup.Ready?
    || GatesAdmission(Attempted(b, a, ids), caller, rest[0].gates, rest[0].amount).1.Refused?
  }

  ghost function NextBooks(b: Books, caller: Caller, deadline: Option<nat>, a: Attempt, rest: seq<Attempt>, ids: seq<nat>): (Books, seq<nat>)
    requires !Ends(b, caller, deadline, a, rest, ids)
  {
    var (b', admission) := GatesAdmission(Attempted(b, a, ids), caller, rest[0].gates, rest[0].amount);
    (b', admission.ids)
  }

  lemma ChainUnfolds(b: Books, caller: Caller, deadline: Option<nat>, a: Attempt, rest: seq<Attempt>, ids: seq<nat>, made: nat)
    requires made > 0 && Wf(b)
    ensures var run := RunChain(b, caller, deadline, a, rest, ids, made);
            if Ends(b, caller, deadline, a, rest, ids) then
              && run.dispatched == made && made <= run.made <= made + 1 && run.held == ids
              && (run.made == made + 1 ==> rest != [] && Retried(a.outcome))
              && (if Retried(a.outcome) then run.reply.Raise? else run.reply == ReplyTo(a.outcome))
              && run.books.claims == Attempted(b, a, ids).claims && run.books.keyHits == b.keyHits
              && run.books.teamHits == b.teamHits && Charges(run.books) == Charges(Attempted(b, a, ids))
              && WroteNothing(Attempted(b, a, ids), run.books)
            else
              run == RunChain(NextBooks(b, caller, deadline, a, rest, ids).0, caller, deadline, rest[0], rest[1..],
                              NextBooks(b, caller, deadline, a, rest, ids).1, made + 1)
  {
    hide GatesAdmission;
    AttemptKeepsWf(b, a, ids);
    if Retried(a.outcome) && rest != [] {
      AdmissionKeepsTheRest(Attempted(b, a, ids), caller, rest[0].gates, rest[0].amount);
    }
  }

  lemma NextStep(b: Books, caller: Caller, deadline: Option<nat>, a: Attempt, rest: seq<Attempt>, ids: seq<nat>)
    requires Wf(b) && !Ends(b, caller, deadline, a, rest, ids)
    ensures var (b', ids') := NextBooks(b, caller, deadline, a, rest, ids);
            var after := Attempted(b, a, ids);
            && Wf(b') && Holds(b', rest[0], ids') && b'.claims - Ids(ids') == after.claims
            && b'.keyHits == b.keyHits && b'.teamHits == b.teamHits && Charges(b') == Charges(after)
            && WroteNothing(after, b')
  {
    hide GatesAdmission, HasRoom;
    AttemptKeepsWf(b, a, ids);
    AdmissionKeepsTheRest(Attempted(b, a, ids), caller, rest[0].gates, rest[0].amount);
    AdmittedIff(Attempted(b, a, ids), caller, rest[0].gates, rest[0].amount);
  }

  lemma AttemptCharges(b: Books, a: Attempt, ids: seq<nat>)
    ensures Charges(Attempted(b, a, ids)) == Charges(b) + if Bills(a.outcome) then 1 else 0
  {
  }

  /** How far a chain goes, what it bills, and that it costs no further rate-limit hit. */
  lemma {:induction false} ChainShape(b: Books, caller: Caller, deadline: Option<nat>, a: Attempt, rest: seq<Attempt>, ids: seq<nat>, made: nat)
    requires made > 0 && Wf(b)
    ensures var run := RunChain(b, caller, deadline, a, rest, ids, made);
            && made <= run.dispatched <= run.made <= made + |rest| && run.made <= run.dispatched + 1
            && run.books.keyHits == b.keyHits && run.books.teamHits == b.teamHits
            && var done := Dispatched(a, rest, run, made);
               && (forall i :: 0 <= i < |done| - 1 ==> Retried(done[i].outcome))
               && (forall i :: 0 < i < |done| ==> !Spent(deadline, done[i].startsAt))
               && (if Retried(done[|done| - 1].outcome) then run.reply.Raise?
                   else run.reply == ReplyTo(done[|done| - 1].outcome) && run.made == run.dispatched)
               && Charges(run.books) == Charges(b) + BilledCount(done)
    decreases |rest|
  {
    hide Attempted, GatesAdmission, Ends, NextBooks, RunChain, Retried, Bills, Charges, Spent, ReplyTo;
    ChainUnfolds(b, caller, deadline, a, rest, ids, made);
    AttemptCharges(b, a, ids);
    var run := RunChain(b, caller, deadline, a, rest, ids, made);
    if Ends(b, caller, deadline, a, rest, ids) {
      assert [a] + rest[..0] == [a];
      assert BilledCount([a]) == (if Bills(a.outcome) then 1 else 0) + BilledCount([a][1..]);
    } else {
      ChainGoesOn(b, caller, deadline, a, rest, ids);
      NextStep(b, caller, deadline, a, rest, ids);
      var (b', ids') := NextBooks(b, caller, deadline, a, rest, ids);
      ChainShape(b', caller, deadline, rest[0], rest[1..], ids', made + 1);
      DispatchedUnfolds(a, rest, run, made);
      var done, later := Dispatched(a, rest, run, made), Dispatched(rest[0], rest[1..], run, made + 1);
      forall i | 0 < i < |done| ensures !Spent(deadline, done[i].startsAt) {
        assert done[i] == later[i - 1];
      }
    }
  }

  /** What is written depends on the attempt and on nothing else. */
  lemma WritingIsLocal(b: Books, c: Books, a: Attempt, ids: seq<nat>, ids': seq<nat>)
    requires WroteNothing(b, c)
    ensures WroteNothing(Attempted(b, a, ids), Attempted(c, a, ids'))
    ensures !Bills(a.outcome) ==> WroteNothing(b, Attempted(b, a, ids))
  {
    hide Bills, KeepsClaim;
  }

  predicate OnlyTheLastMayBill(done: seq<Attempt>) { forall i :: 0 <= i < |done| - 1 ==> !Bills(done[i].outcome) }

  lemma OthersDoNotBill(a: Attempt, later: seq<Attempt>)
    requires later != [] && OnlyTheLastMayBill([a] + later)
    ensures !Bills(a.outcome) && OnlyTheLastMayBill(later)
  {
    var done := [a] + later;
    assert done[0] == a && forall i :: 0 <= i < |later| ==> later[i] == done[i + 1];
  }

  /** If no attempt before the last bills, the chain writes what its last attempt writes. */
  lemma {:induction false} ChainWrites(b: Books, caller: Caller, deadline: Option<nat>, a: Attempt, rest: seq<Attempt>, ids: seq<nat>, made: nat)
    requires made > 0 && Wf(b)
    ensures made <= RunChain(b, caller, deadline, a, rest, ids, made).dispatched <= made + |rest|
    ensures var run := RunChain(b, caller, deadline, a, rest, ids, made);
            var done := Dispatched(a, rest, run, made);
            OnlyTheLastMayBill(done) ==> WroteNothing(Attempted(b, done[|done| - 1], ids), run.books)
    decreases |rest|
  {
    hide Attempted, GatesAdmission, Ends, NextBooks, RunChain, Retried, Bills, Charges, WroteNothing, BilledCount, Spent, ReplyTo,
      OnlyTheLastMayBill, Holds;
    ChainUnfolds(b, caller, deadline, a, rest, ids, made);
    var run := RunChain(b, caller, deadline, a, rest, ids, made);
    if !Ends(b, caller, deadline, a, rest, ids) {
      ChainGoesOn(b, caller, deadline, a, rest, ids);
      NextStep(b, caller, deadline, a, rest, ids);
      var (b', ids') := NextBooks(b, caller, deadline, a, rest, ids);
      ChainWrites(b', caller, deadline, rest[0], rest[1..], ids', made + 1);
      DispatchedUnfolds(a, rest, run, made);
      var done, later := Dispatched(a, rest, run, made), Dispatched(rest[0], rest[1..], run, made + 1);
      if OnlyTheLastMayBill(done) {
        OthersDoNotBill(a, later);
        SameWriting(b, Attempted(b, a, ids), b', a, later[|later| - 1], ids, ids', run.books);
      }
    }
  }

  lemma SameWriting(b: Books, after: Books, b': Books, a: Attempt, last: Attempt, ids: seq<nat>, ids': seq<nat>, end: Books)
    requires after == Attempted(b, a, ids) && !Bills(a.outcome) && WroteNothing(after, b')
    requires WroteNothing(Attempted(b', last, ids'), end)
    ensures WroteNothing(Attempted(b, last, ids), end)
  {
    WritingIsLocal(b, b, a, ids, ids);
    hide Attempted, Bills;
    WritingIsLocal(b, b', last, ids, ids');
  }

  /**
    Why a chain ends: its last attempt was not retryable, or there is no fallback left, or the next
    one met a spent deadline, failed in its setup, or was refused; and with what reply.
  */
  ghost predicate StoppedFor(run: Run, caller: Caller, deadline: Option<nat>, last: Attempt, left: seq<Attempt>) {
    if !Retried(last.outcome) || left == [] then run.made == run.dispatched && run.reply == ReplyTo(last.outcome)
    else
      && run.made == run.dispatched + 1
      && if Spent(deadline, left[0].startsAt) then run.reply == ReplyTo(last.outcome)
         else if left[0].setup.SetupFails? then run.reply == Raise(left[0].setup.error)
         else run.reply.Raise? && GatesAdmission(run.books, caller, left[0].gates, left[0].amount).1 == Refused(run.reply.error)
  }

  lemma {:induction false} ChainStops(b: Books, caller: Caller, deadline: Option<nat>, a: Attempt, rest: seq<Attempt>, ids: seq<nat>, made: nat)
    requires made > 0 && Wf(b)
    ensures made <= RunChain(b, caller, deadline, a, rest, ids, made).dispatched <= made + |rest|
    ensures var run := RunChain(b, caller, deadline, a, rest, ids, made);
            var done := Dispatched(a, rest, run, made);
            StoppedFor(run, caller, deadline, done[|done| - 1], rest[|done| - 1..])
    decreases |rest|
  {
    hide Attempted, GatesAdmission, Ends, NextBooks, RunChain, Retried, StoppedFor, ReplyTo, Spent;
    ChainUnfolds(b, caller, deadline, a, rest, ids, made);
    ChainShape(b, caller, deadline, a, rest, ids, made);
    var run := RunChain(b, caller, deadline, a, rest, ids, made);
    if Ends(b, caller, deadline, a, rest, ids) {
      ChainEndsFor(b, caller, deadline, a, rest, ids, made);
      assert rest[..0] == [] && rest[0..] == rest;
    } else {
      ChainGoesOn(b, caller, deadline, a, rest, ids);
      NextStep(b, caller, deadline, a, rest, ids);
      var (b', ids') := NextBooks(b, caller, deadline, a, rest, ids);
      ChainStops(b', caller, deadline, rest[0], rest[1..], ids', made + 1);
      DispatchedUnfolds(a, rest, run, made);
      var done, later := Dispatched(a, rest, run, made), Dispatched(rest[0], rest[1..], run, made + 1);
      assert done[|done| - 1] == later[|later| - 1];
      assert rest[1..][|later| - 1..] == rest[|done| - 1..];
    }
  }

  lemma ChainEndsFor(b: Books, caller: Caller, deadline: Option<nat>, a: Attempt, rest: seq<Attempt>, ids: seq<nat>, made: nat)
    requires made > 0 && Wf(b) && Ends(b, caller, deadline, a, rest, ids)
    ensures StoppedFor(RunChain(b, caller, deadline, a, rest, ids, made), caller, deadline, a, rest)
  {
    AttemptKeepsWf(b, a, ids);
    hide GatesAdmission, Attempted, HasRoom;
    if rest != [] { StillRefused(Attempted(b, a, ids), caller, rest[0].gates, rest[0].amount); }
  }

  /** What a refusal leaves behind refuses again. */
  lemma StillRefused(b: Books, caller: Caller, gates: Gates, amount: nat)
    requires Wf(b)
    ensures var (b', r) := GatesAdmission(b, caller, gates, amount);
            r.Refused? ==> GatesAdmission(b', caller, gates, amount).1 == r
  {
    AdmissionKeepsTheRest(b, caller, gates, amount);
    AdmittedIff(b, caller, gates, amount);
    hide GatesAdmission;
    AdmittedIff(GatesAdmission(b, caller, gates, amount).0, caller, gates, amount);
  }

  lemma ChainGoesOn(b: Books, caller: Caller, deadline: Option<nat>, a: Attempt, rest: seq<Attempt>, ids: seq<nat>)
    requires !Ends(b, caller, deadline, a, rest, ids)
    ensures rest != [] && Retried(a.outcome) && !Spent(deadline, rest[0].startsAt)
  {
  }

  lemma DispatchedUnfolds(a: Attempt, rest: seq<Attempt>, run: Run, made: nat)
    requires rest != [] && made + 1 <= run.dispatched <= made + |rest|
    ensures Dispatched(a, rest, run, made) == [a] + Dispatched(rest[0], rest[1..], run, made + 1)
    ensures Dispatched(a, rest, run, made)[1..] == Dispatched(rest[0], rest[1..], run, made + 1)
  {
    var n := run.dispatched - made;
    assert rest[..n] == [rest[0]] + rest[1..][..n - 1];
  }

  lemma AttemptClaims(b: Books, a: Attempt, ids: seq<nat>)
    requires Holds(b, a, ids)
    ensures var after := Attempted(b, a, ids);
            if KeepsClaim(a.outcome) then after.claims == b.claims else after.claims == b.claims - Ids(ids)
    ensures (Attempted(b, a, ids).claims == b.claims - Ids(ids)) <==> !Leaks(a)
  {
    if ids != [] { assert ids[0] in b.claims && ids[0] in Ids(ids); }
    if ids == [] { assert Ids(ids) == {} && b.claims - Ids(ids) == b.claims; }
  }

  ghost predicate Within(small: map<nat, Claim>, large: map<nat, Claim>) {
    forall id :: id in small ==> id in large && large[id] == small[id]
  }

  lemma Between(base: map<nat, Claim>, middle: map<nat, Claim>, end: map<nat, Claim>)
    requires Within(base, middle) && Within(middle, end)
    ensures Within(base, end)
    ensures end == base <==> (middle == base && end == middle)
  {
    if end == base { assert middle == base; }
  }

  /**
    Conservation: a chain gives back exactly the claims it took, unless an attempt keeps one, and
    it never touches anybody else's. What a live stream keeps is all it holds.
  */
  lemma {:induction false} ChainClaims(b: Books, caller: Caller, deadline: Option<nat>, a: Attempt, rest: seq<Attempt>, ids: seq<nat>, made: nat)
    requires made > 0 && Wf(b) && Holds(b, a, ids)
    ensures made <= RunChain(b, caller, deadline, a, rest, ids, made).dispatched <= made + |rest|
    ensures var run := RunChain(b, caller, deadline, a, rest, ids, made);
            var base := b.claims - Ids(ids);
            var done := Dispatched(a, rest, run, made);
            && Within(base, run.books.claims)
            && (run.books.claims == base <==> forall i :: 0 <= i < |done| ==> !Leaks(done[i]))
            && ((forall i :: 0 <= i < |done| - 1 ==> !Leaks(done[i])) ==> run.books.claims - Ids(run.held) == base)
    decreases |rest|
  {
    hide Attempted, GatesAdmission, Ends, NextBooks, RunChain, Retried, Holds, Leaks;
    ChainUnfolds(b, caller, deadline, a, rest, ids, made);
    ChainShape(b, caller, deadline, a, rest, ids, made);
    AttemptClaims(b, a, ids);
    var run, base, after := RunChain(b, caller, deadline, a, rest, ids, made), b.claims - Ids(ids), Attempted(b, a, ids);
    var done := Dispatched(a, rest, run, made);
    if Ends(b, caller, deadline, a, rest, ids) {
      assert done == [a];
      assert b.claims - Ids(ids) - Ids(ids) == base;
    } else {
      ChainGoesOn(b, caller, deadline, a, rest, ids);
      NextStep(b, caller, deadline, a, rest, ids);
      var (b', ids') := NextBooks(b, caller, deadline, a, rest, ids);
      ChainClaims(b', caller, deadline, rest[0], rest[1..], ids', made + 1);
      DispatchedUnfolds(a, rest, run, made);
      var later := Dispatched(rest[0], rest[1..], run, made + 1);
      Between(base, after.claims, run.books.claims);
      LeaksSplit(a, later, done);
    }
  }

  lemma LeaksSplit(a: Attempt, later: seq<Attempt>, done: seq<Attempt>)
    requires done == [a] + later && later != []
    ensures (forall i :: 0 <= i < |done| ==> !Leaks(done[i]))
            <==> (!Leaks(a) && forall i :: 0 <= i < |later| ==> !Leaks(later[i]))
    ensures (forall i :: 0 <= i < |done| - 1 ==> !Leaks(done[i]))
            <==> (!Leaks(a) && forall i :: 0 <= i < |later| - 1 ==> !Leaks(later[i]))
  {
    hide Leaks;
    assert done[0] == a;
    forall i | 0 <= i < |later| ensures done[i + 1] == later[i] {}
  }
}
