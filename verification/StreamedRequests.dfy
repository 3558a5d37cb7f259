/**
  A streamed request from admission to its last chunk: the request opens a stream and holds its
  claim, and the session that follows gives it back and bills.
*/
module StreamedRequests {
  import opened Metering
  import opened Dispatch
  import opened Requests
  import opened Pricing
  import SM = StreamMetering

  /** The context an attempt meters its stream with. */
  function ContextOf(a: Attempt, ids: seq<nat>, card: RateCard, promptChars: nat): SM.Context {
    SM.Context(a.model, card, promptChars, ids, a.ledgerUp, a.outboxUp)
  }

  /** Every outcome of priming that yields no chunk leaves what the generator, stopped before one, would leave. */
  lemma PrimingBillsAsMetered(b: Books, a: Attempt, ids: seq<nat>, card: RateCard, promptChars: nat)
    requires NoNegativeRate(card) && NoNegativeImagePrice(card)
    requires a.outcome.EmptyStream? || a.outcome.PrimeFailed? || a.outcome.PrimeCancelled? || a.outcome.PrimeAbandoned?
    requires Bills(a.outcome) ==>
               SM.BilledUsage([], false, promptChars).Some?
               && a.cost == SM.CostOf(SM.BilledUsage([], false, promptChars).value, card)
    ensures var c := ContextOf(a, ids, card, promptChars);
            && Attempted(b, a, ids) == SM.Settled(b, c, [], a.outcome.PrimeFailed?)
            && Effects(a, ids) == SM.FinalEffects(c, [], a.outcome.PrimeFailed?)
  {
    hide SM.CostOf, NoNegativeRate, NoNegativeImagePrice;
    SM.FailedStreamBillsIff([], promptChars);
    ReleaseThenBill(b, ids, ChargeOf(a), WriteOf(a));
  }

  ghost predicate Live(b: Books, caller: Caller, p: Preparation, first: Attempt, route: Route)
    requires Wf(b) && (route.Routed? ==> route.maxAttempts >= 1)
  {
    RequestShape(b, caller, p, first, route);
    var done := DoneAttempts(first, route, RequestRun(b, caller, p, first, route));
    done != [] && done[|done| - 1].outcome.FirstChunk?
  }

  /**
    However many attempts it took to open and wherever it stops, a streamed request ends with the
    store as it began, and with exactly one charge unless the provider failed without billable usage.
  */
  lemma StreamedRequestConserves(b: Books, caller: Caller, p: Preparation, first: Attempt, route: Route,
                                 c: SM.Context, chunks: seq<SM.Chunk>, failed: bool)
    requires Wf(b) && (route.Routed? ==> route.maxAttempts >= 1) && Clocked(first, route)
    requires Live(b, caller, p, first, route)
    requires c.ids == RequestRun(b, caller, p, first, route).held
    requires NoNegativeRate(c.card) && NoNegativeImagePrice(c.card)
    ensures var after := SM.Settled(RequestRun(b, caller, p, first, route).books, c, chunks, failed);
            && after.claims == b.claims
            && Charges(after) == Charges(b) + (if SM.BilledUsage(chunks, failed, c.promptChars).Some? then 1 else 0)
            && (!failed ==> Charges(after) == Charges(b) + 1)
  {
    ChargedAtMostOnce(b, caller, p, first, route);
    OnlyTheLastMayKeepAClaim(b, caller, p, first, route);
    hide RequestRun, Clocked, Charges, NoNegativeRate, NoNegativeImagePrice;
    SM.StoppedStreamBillsOnce(RequestRun(b, caller, p, first, route).books, c, chunks, failed);
  }

  /** The end of a replayed cache entry: release, then the record at no cost. */
  method FinishReplay(meter: Meter, ids: seq<nat>, model: nat, ledgerUp: bool, outboxUp: bool)
    modifies meter
    ensures meter.State() == Bill(Release(old(meter.State()), ids), Charge(model, 0),
                                  if ledgerUp then Recorded else if outboxUp then DeadLettered else Dropped)
    ensures meter.log == old(meter.log) + [GaveBack(ids), Billed(Charge(model, 0))]
  {
    meter.ReleaseAll(ids);
    meter.RecordUsage(Charge(model, 0), ledgerUp, outboxUp);
  }

  /** A replayed request ends with the store as it began and one charge of nothing. */
  lemma ReplayConserves(b: Books, caller: Caller, p: Preparation, first: Attempt, w: Write)
    requires Wf(b) && first.outcome.ReplayStarted?
    ensures var run := RequestRun(b, caller, p, first, Direct);
            run.dispatched == 1 ==>
              var after := Bill(Release(run.books, run.held), Charge(first.model, 0), w);
              && after.claims == b.claims && Charges(after) == Charges(b) + 1
  {
    RequestShape(b, caller, p, first, Direct);
    assert Clocked(first, Direct);
    ChargedAtMostOnce(b, caller, p, first, Direct);
    OnlyTheLastMayKeepAClaim(b, caller, p, first, Direct);
    hide RequestRun;
  }

  lemma LiveAnswers(b: Books, caller: Caller, p: Preparation, first: Attempt, route: Route)
    requires Wf(b) && (route.Routed? ==> route.maxAttempts >= 1) && Live(b, caller, p, first, route)
    ensures RequestRun(b, caller, p, first, route).reply == Answer
  {
    RequestShape(b, caller, p, first, route);
    hide RequestRun;
  }

  /** The whole of it as code. */
  method StreamChat(meter: Meter, caller: Caller, p: Preparation, first: Attempt, route: Route,
                    chunks: seq<SM.Chunk>, ending: SM.Ending, context: SM.Context, take: nat)
    returns (reply: Reply, delivered: seq<SM.Chunk>)
    requires Wf(meter.State()) && (route.Routed? ==> route.maxAttempts >= 1) && Clocked(first, route)
    requires Streamed(first.outcome) && (route.Routed? ==> forall a :: a in route.chain ==> Streamed(a.outcome))
    requires NoNegativeRate(context.card) && NoNegativeImagePrice(context.card)
    requires Live(meter.State(), caller, p, first, route) && chunks != []
    modifies meter
    ensures reply == Answer && delivered == chunks[..SM.Least(take, |chunks|)]
    ensures meter.State().claims == old(meter.State()).claims
    ensures ending.EndsNormally? || take <= |chunks| ==> Charges(meter.State()) == Charges(old(meter.State())) + 1
  {
    ghost var b := meter.State();
    LiveAnswers(b, caller, p, first, route);
    hide RequestRun, Live, Wf, Effects, Clocked, Charges, NoNegativeRate, NoNegativeImagePrice, SM.Settled, SM.FinalEffects;
    var attempts, held;
    reply, attempts, held := OpenChatStream(meter, caller, p, first, route);
    var c := context.(ids := held);
    var stream := new SM.MeteredStream(chunks, ending, c, meter);
    var failed;
    delivered, failed := SM.Session(stream, take);
    StreamedRequestConserves(b, caller, p, first, route, c, chunks[..SM.Processed(|chunks|, take)], failed);
  }
}
