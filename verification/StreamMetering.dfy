/**
  Metering of a streamed response: a generator that relays the provider's chunks while it captures
  usage, and on every way of stopping releases the claim once and then bills once.
*/
module StreamMetering {
  import opened Outcomes
  import opened Metering
  import opened Pricing

  /** One entry of a provider's usage report. */
  datatype Field = Missing | NullField | Flag(b: bool) | Count(n: nat)

  /** Chat reports prompt/completion tokens, the Responses API input/output tokens. */
  datatype Report = Report(
    prompt: Field, completion: Field, input: Field, output: Field, cacheWrite: Field, cacheRead: Field)

  const NO_REPORT := Report(Missing, Missing, Missing, Missing, Missing, Missing)

  /** What the meter sees of a chunk: its report, whether it signals a refusal, and its output text length. */
  datatype Chunk = Chunk(usage: Option<Report>, refusal: bool, chars: nat, body: string)

  function Value(f: Field): nat {
    match f
    case Count(n) => n
    case Flag(b) => if b then 1 else 0
    case _ => 0
  }

  predicate HasTokens(u: Report) {
    Value(u.prompt) != 0 || Value(u.completion) != 0 || Value(u.input) != 0 || Value(u.output) != 0
  }

  /** A complete pair of counts, zero included. */
  predicate HasAuthoritativeUsage(u: Report) {
    (u.prompt.Count? && u.completion.Count?) || (u.input.Count? && u.output.Count?)
  }

  function TokenUsage(u: Report): Usage {
    Tokens(Value(if u.prompt.Missing? then u.input else u.prompt),
           Value(if u.completion.Missing? then u.output else u.completion),
           Value(u.cacheWrite), Value(u.cacheRead))
  }

  // ---- What a prefix of the stream amounts to ----

  function LastReport(chunks: seq<Chunk>): Report {
    if chunks == [] then NO_REPORT
    else
      var last := chunks[|chunks| - 1];
      if last.usage.Some? then last.usage.value else LastReport(chunks[..|chunks| - 1])
  }

  function Chars(chunks: seq<Chunk>): nat {
    if chunks == [] then 0 else Chars(chunks[..|chunks| - 1]) + chunks[|chunks| - 1].chars
  }

  predicate RefusalSeen(chunks: seq<Chunk>) { exists i :: 0 <= i < |chunks| && chunks[i].refusal }

  predicate AuthoritativeZero(chunks: seq<Chunk>) {
    RefusalSeen(chunks) && HasAuthoritativeUsage(LastReport(chunks)) && !HasTokens(LastReport(chunks))
  }

  function Estimate(promptChars: nat, chars: nat): Report {
    Report(Count(EstimateTokens(promptChars)), Count(EstimateTokens(chars)), Missing, Missing, Missing, Missing)
  }

  /** The usage a stopped stream is billed for; None when nothing is written at all. */
  function BilledUsage(chunks: seq<Chunk>, failed: bool, promptChars: nat): Option<Usage> {
    var last, chars := LastReport(chunks), Chars(chunks);
    var producedNothing := failed && chars == 0 && !HasTokens(last);
    var estimate := Estimate(promptChars, chars);
    var final := if !HasTokens(last) && !producedNothing && !AuthoritativeZero(chunks) && HasTokens(estimate)
                 then estimate else last;
    if failed && !HasTokens(final) then None else Some(TokenUsage(final))
  }

  /** What every metered stream is started with. */
  datatype Context = Context(
    model: nat, card: RateCard, promptChars: nat, ids: seq<nat>, ledgerUp: bool, outboxUp: bool)

  /** Costs of a valid card are never negative; the ledger of the model counts them as naturals. */
  function CostOf(u: Usage, card: RateCard): nat
    requires NoNegativeRate(card) && NoNegativeImagePrice(card)
  {
    ExactIsNonNegative(u, card);
    ComputeCost(u, card)
  }

  /** The books after a stream that processed `chunks` stopped: released first, then billed. */
  function Settled(b: Books, c: Context, chunks: seq<Chunk>, failed: bool): Books
    requires NoNegativeRate(c.card) && NoNegativeImagePrice(c.card)
  {
    var released := Release(b, c.ids);
    match BilledUsage(chunks, failed, c.promptChars)
    case None => released
    case Some(u) =>
      Bill(released, Charge(c.model, CostOf(u, c.card)), if c.ledgerUp then Recorded else if c.outboxUp then DeadLettered else Dropped)
  }

  /** In this order: the claim goes first, so a stream that is still settling holds none. */
  function FinalEffects(c: Context, chunks: seq<Chunk>, failed: bool): seq<Effect>
    requires NoNegativeRate(c.card) && NoNegativeImagePrice(c.card)
  {
    [GaveBack(c.ids),
     match BilledUsage(chunks, failed, c.promptChars)
     case None => Spared
     case Some(u) => Billed(Charge(c.model, CostOf(u, c.card)))]
  }

  // ---- The generators ----

  datatype Ending = EndsNormally | Fails
  datatype Item = Item(chunk: Chunk) | Exhausted | Failed
  datatype Stage = NotStarted | Suspended | Closed

  /** The metered generator over one provider stream. */
  class MeteredStream {
    const chunks: seq<Chunk>
    const ending: Ending
    const context: Context
    const meter: Meter
    var pos: nat
    var stage: Stage
    var usage: Report
    var streamedChars: nat
    var refusalSeen: bool
    var authoritativeZero: bool
    var released: bool

    ghost predicate Valid()
      reads this
    {
      && pos <= |chunks|
      && NoNegativeRate(context.card) && NoNegativeImagePrice(context.card)
      && (stage.NotStarted? ==> pos == 0)
      && usage == LastReport(chunks[..pos]) && streamedChars == Chars(chunks[..pos])
      && refusalSeen == RefusalSeen(chunks[..pos]) && authoritativeZero == AuthoritativeZero(chunks[..pos])
      && (released <==> stage.Closed?)
    }

    constructor (chunks: seq<Chunk>, ending: Ending, context: Context, meter: Meter)
      requires NoNegativeRate(context.card) && NoNegativeImagePrice(context.card)
      ensures Valid() && stage.NotStarted?
      ensures this.chunks == chunks && this.ending == ending && this.context == context && this.meter == meter
    {
      this.chunks, this.ending, this.context, this.meter := chunks, ending, context, meter;
      pos, stage, usage, streamedChars := 0, NotStarted, NO_REPORT, 0;
      refusalSeen, authoritativeZero, released := false, false, false;
    }

    /** The `finally`: release, then bill. */
    method Finalize(failed: bool)
      requires Valid() && !stage.Closed?
      modifies this, meter
      ensures Valid() && stage.Closed? && pos == old(pos)
      ensures meter.State() == Settled(old(meter.State()), context, chunks[..pos], failed)
      ensures meter.log == old(meter.log) + FinalEffects(context, chunks[..pos], failed)
    {
      hide LastReport, Chars, RefusalSeen, AuthoritativeZero, NoNegativeRate, NoNegativeImagePrice, CostOf, TokenUsage;
      stage, released := Closed, true;
      meter.ReleaseAll(context.ids);
      var final := usage;
      var producedNothing := failed && streamedChars == 0 && !HasTokens(usage);
      if !HasTokens(usage) && !producedNothing && !authoritativeZero {
        var estimate := Estimate(context.promptChars, streamedChars);
        if HasTokens(estimate) { final := estimate; }
      }
      if !failed || HasTokens(final) {
        meter.RecordUsage(Charge(context.model, CostOf(TokenUsage(final), context.card)), context.ledgerUp, context.outboxUp);
      } else {
        meter.Spare();
      }
    }

    /** The body of the loop: note what the chunk says and hand it on. */
    method Relay() returns (chunk: Chunk)
      requires Valid() && stage.Suspended? && pos < |chunks|
      modifies this
      ensures Valid() && stage.Suspended? && pos == old(pos) + 1 && chunk == chunks[old(pos)]
    {
      chunk := chunks[pos];
      OneMoreChunk(chunks, pos);
      hide LastReport, Chars, RefusalSeen, NoNegativeRate, NoNegativeImagePrice;
      if chunk.usage.Some? { usage := chunk.usage.value; }
      refusalSeen := refusalSeen || chunk.refusal;
      authoritativeZero := refusalSeen && HasAuthoritativeUsage(usage) && !HasTokens(usage);
      streamedChars := streamedChars + chunk.chars;
      pos := pos + 1;
    }

    method Next() returns (item: Item)
      requires Valid() && !stage.Closed?
      modifies this, meter
      ensures Valid()
      ensures old(pos) < |chunks| ==>
                && item == Item(chunks[old(pos)]) && pos == old(pos) + 1 && stage.Suspended?
                && meter.State() == old(meter.State()) && meter.log == old(meter.log)
      ensures old(pos) == |chunks| ==>
                && item == (if ending.Fails? then Failed else Exhausted) && pos == old(pos) && stage.Closed?
                && meter.State() == Settled(old(meter.State()), context, chunks[..pos], ending.Fails?)
                && meter.log == old(meter.log) + FinalEffects(context, chunks[..pos], ending.Fails?)
    {
      hide Settled, FinalEffects, TokenUsage, BilledUsage, LastReport, Chars, RefusalSeen, AuthoritativeZero, NoNegativeRate,
        NoNegativeImagePrice;
      stage := Suspended;
      if pos == |chunks| {
        Finalize(ending.Fails?);
        return if ending.Fails? then Failed else Exhausted;
      }
      var chunk := Relay();
      item := Item(chunk);
    }

    /** Closing a generator that never started runs none of its body. */
    method Close()
      requires Valid()
      modifies this, meter
      ensures old(stage).Suspended? ==>
                Valid() && stage.Closed? && pos == old(pos)
                && meter.State() == Settled(old(meter.State()), context, chunks[..pos], false)
                && meter.log == old(meter.log) + FinalEffects(context, chunks[..pos], false)
      ensures !old(stage).Suspended? ==>
                meter.State() == old(meter.State()) && meter.log == old(meter.log) && stage == old(stage) && pos == old(pos) && released == old(released)
      ensures !old(stage).Suspended? ==> Valid()
    {
      if stage.Suspended? { Finalize(false); }
    }

    /** The collector's finalizer gives the claim back if nobody has; it never bills. */
    method Collect()
      requires Valid() && !stage.Suspended?
      modifies this, meter
      ensures Valid() && stage.Closed?
      ensures meter.State() == if old(stage).NotStarted? then Release(old(meter.State()), context.ids) else old(meter.State())
      ensures meter.log == old(meter.log) + if old(stage).NotStarted? then [GaveBack(context.ids)] else []
    {
      if !released {
        released, stage := true, Closed;
        meter.ReleaseAll(context.ids);
      }
    }
  }

  lemma OneMoreChunk(chunks: seq<Chunk>, n: nat)
    requires n < |chunks|
    ensures var before, after := chunks[..n], chunks[..n + 1];
            && LastReport(after) == (if chunks[n].usage.Some? then chunks[n].usage.value else LastReport(before))
            && Chars(after) == Chars(before) + chunks[n].chars
            && (RefusalSeen(after) <==> RefusalSeen(before) || chunks[n].refusal)
  {
    var before, after := chunks[..n], chunks[..n + 1];
    assert after[..n] == before && after[n] == chunks[n];
    if RefusalSeen(after) && !chunks[n].refusal {
      var i :| 0 <= i < |after| && after[i].refusal;
      assert before[i] == after[i];
    }
    if RefusalSeen(before) {
      var i :| 0 <= i < |before| && before[i].refusal;
      assert after[i] == before[i];
    }
  }

  // ---- Priming, relaying and stopping: one client's whole session ----

  function Least(m: nat, n: nat): nat { if m < n then m else n }

  /** Priming pulls one chunk before the client asks for any. */
  function Processed(total: nat, take: nat): nat {
    if total == 0 then 0 else if take == 0 then 1 else Least(take, total)
  }

  /**
    The stream is primed, re-chained behind its first chunk, and read until the client has `take`
    chunks or the provider stops; then everything is closed and collected.
  */
  method Session(stream: MeteredStream, take: nat) returns (delivered: seq<Chunk>, failed: bool)
    requires stream.Valid() && stream.stage.NotStarted?
    modifies stream, stream.meter
    ensures stream.Valid() && stream.stage.Closed?
    ensures var chunks := stream.chunks;
            && delivered == chunks[..Least(take, |chunks|)]
            && |delivered| == (if take <= |chunks| then take else |chunks|)
            && Processed(|chunks|, take) == (if take == 0 && chunks != [] then 1 else |delivered|)
            && (failed <==> stream.ending.Fails? && (take > |chunks| || chunks == []))
            && stream.meter.State() == Settled(old(stream.meter.State()), stream.context,
                                               chunks[..Processed(|chunks|, take)], failed)
            && stream.meter.log == old(stream.meter.log) + FinalEffects(stream.context, chunks[..Processed(|chunks|, take)], failed)
  {
    hide Settled, FinalEffects, LastReport, Chars, RefusalSeen, AuthoritativeZero, NoNegativeRate, NoNegativeImagePrice;
    delivered, failed := [], false;
    var first := stream.Next();
    if !first.Item? {
      stream.Collect();
      return [], first.Failed?;
    }
    var item := first;
    while item.Item? && |delivered| < take
      invariant stream.Valid() && 1 <= stream.pos
      invariant item.Item? ==> stream.stage.Suspended? && stream.meter.State() == old(stream.meter.State())
                                && stream.meter.log == old(stream.meter.log)
      invariant item.Item? && |delivered| < take ==>
                  |delivered| + 1 == stream.pos && item.chunk == stream.chunks[|delivered|]
      invariant item.Item? && |delivered| >= take ==>
                  |delivered| == take && stream.pos == (if take == 0 then 1 else take)
      invariant !item.Item? ==>
                  && stream.stage.Closed? && |delivered| == stream.pos == |stream.chunks| < take
                  && failed == stream.ending.Fails?
                  && stream.meter.State() == Settled(old(stream.meter.State()), stream.context, stream.chunks, failed)
                  && stream.meter.log == old(stream.meter.log) + FinalEffects(stream.context, stream.chunks, failed)
      invariant item.Item? ==> !failed
      invariant delivered == stream.chunks[..|delivered|]
      decreases |stream.chunks| - |delivered|, if item.Item? then 1 else 0
    {
      delivered := delivered + [item.chunk];
      if |delivered| < take {
        item := stream.Next();
        failed := item.Failed?;
        assert stream.chunks[..|stream.chunks|] == stream.chunks;
      }
    }
    assert stream.chunks[..|stream.chunks|] == stream.chunks;
    stream.Close();
    stream.Collect();
  }

  // ---- Main results ----

  /** The report billed is the last one any chunk carried. */
  lemma {:induction false} LastReportIs(chunks: seq<Chunk>, i: nat)
    requires i < |chunks| && chunks[i].usage.Some? && forall j :: i < j < |chunks| ==> chunks[j].usage.None?
    ensures LastReport(chunks) == chunks[i].usage.value
  {
    if i < |chunks| - 1 {
      assert chunks[..|chunks| - 1][i] == chunks[i];
      LastReportIs(chunks[..|chunks| - 1], i);
    }
  }

  lemma {:induction false} NoReportIs(chunks: seq<Chunk>)
    requires forall i :: 0 <= i < |chunks| ==> chunks[i].usage.None?
    ensures LastReport(chunks) == NO_REPORT
  {
    if chunks != [] { NoReportIs(chunks[..|chunks| - 1]); }
  }

  lemma {:induction false} CharsOfSilent(chunks: seq<Chunk>)
    ensures Chars(chunks) == 0 <==> forall i :: 0 <= i < |chunks| ==> chunks[i].chars == 0
  {
    if chunks != [] {
      var rest := chunks[..|chunks| - 1];
      CharsOfSilent(rest);
      assert forall i :: 0 <= i < |rest| ==> rest[i] == chunks[i];
    }
  }

  /** The claim is gone, and without an error exactly one charge is written, wherever the client stopped. */
  lemma StoppedStreamBillsOnce(b: Books, c: Context, chunks: seq<Chunk>, failed: bool)
    requires NoNegativeRate(c.card) && NoNegativeImagePrice(c.card)
    ensures var after := Settled(b, c, chunks, failed);
            && after.claims == b.claims - Ids(c.ids)
            && after.keyHits == b.keyHits && after.teamHits == b.teamHits
            && Charges(after) == Charges(b) + (if BilledUsage(chunks, failed, c.promptChars).Some? then 1 else 0)
            && (!failed ==> Charges(after) == Charges(b) + 1)
  {
    hide ComputeCost;
  }

  /** With an error, the stream is billed exactly when the provider reported tokens or produced output it did not refuse. */
  lemma FailedStreamBillsIff(chunks: seq<Chunk>, promptChars: nat)
    ensures BilledUsage(chunks, true, promptChars).Some? <==>
              SomeCount(LastReport(chunks)) || (Chars(chunks) > 0 && !FreeRefusal(chunks))
  {
    WhatReportsSay(LastReport(chunks));
    hide LastReport, Chars;
  }

  /** An error before any output and any reported token bills nothing. */
  lemma ErrorBeforeOutputIsFree(chunks: seq<Chunk>, promptChars: nat)
    requires forall i :: 0 <= i < |chunks| ==>
               chunks[i].chars == 0 && (chunks[i].usage.Some? ==> !HasTokens(chunks[i].usage.value))
    ensures BilledUsage(chunks, true, promptChars).None?
  {
    CharsOfSilent(chunks);
    SilentReport(chunks);
  }

  lemma {:induction false} SilentReport(chunks: seq<Chunk>)
    requires forall i :: 0 <= i < |chunks| ==> (chunks[i].usage.Some? ==> !HasTokens(chunks[i].usage.value))
    ensures !HasTokens(LastReport(chunks))
  {
    if chunks != [] { SilentReport(chunks[..|chunks| - 1]); }
  }

  // ---- What a report says ----

  /** `true` counts as one, as it does in the program. */
  predicate Positive(f: Field) { f == Flag(true) || (f.Count? && f.n > 0) }

  predicate SomeCount(u: Report) { Positive(u.prompt) || Positive(u.completion) || Positive(u.input) || Positive(u.output) }

  /** Some chunk signalled a refusal, and the last report has a complete pair of counts, all of them zero. */
  predicate FreeRefusal(chunks: seq<Chunk>) {
    var u := LastReport(chunks);
    && (exists i :: 0 <= i < |chunks| && chunks[i].refusal)
    && ((u.prompt.Count? && u.completion.Count?) || (u.input.Count? && u.output.Count?))
    && !SomeCount(u)
  }

  /** A count as reported, zero included; `true` is one, and anything else is nothing. */
  predicate Reads(n: nat, f: Field) {
    if f.Count? then n == f.n else n == (if f == Flag(true) then 1 else 0)
  }

  /** Either shape is read: a chat count whenever its entry is there, else the Responses one; cache counts keep their own. */
  predicate ReadsReport(t: Usage, u: Report) {
    && Reads(t.prompt, if u.prompt.Missing? then u.input else u.prompt)
    && Reads(t.completion, if u.completion.Missing? then u.output else u.completion)
    && Reads(t.cacheWrite, u.cacheWrite) && Reads(t.cacheRead, u.cacheRead)
    && t.images == 0 && t.size.None? && t.quality.None?
  }

  lemma WhatReportsSay(u: Report)
    ensures ReadsReport(TokenUsage(u), u)
    ensures HasTokens(u) <==> SomeCount(u)
    ensures HasAuthoritativeUsage(u) <==> (u.prompt.Count? && u.completion.Count?) || (u.input.Count? && u.output.Count?)
  {
  }

  /** A chat report and a Responses report of the same counts are billed alike. */
  lemma EitherShapeIsRead(m: nat, n: nat)
    ensures TokenUsage(Report(Count(m), Count(n), Missing, Missing, Missing, Missing)) == Tokens(m, n, 0, 0)
    ensures TokenUsage(Report(Missing, Missing, Count(m), Count(n), Missing, Missing)) == Tokens(m, n, 0, 0)
  {
  }

  /**
    What is billed, in the report's own terms: its counts when there are any, or when it is a refusal
    reported as free; otherwise, if there was any text at all, a quarter of the characters rounded up.
  */
  lemma BilledUsageIs(chunks: seq<Chunk>, failed: bool, promptChars: nat)
    requires BilledUsage(chunks, failed, promptChars).Some?
    ensures var t, last := BilledUsage(chunks, failed, promptChars).value, LastReport(chunks);
            if SomeCount(last) || FreeRefusal(chunks) || promptChars + Chars(chunks) == 0 then ReadsReport(t, last)
            else
              && promptChars <= 4 * t.prompt < promptChars + 4
              && Chars(chunks) <= 4 * t.completion < Chars(chunks) + 4
              && t == Tokens(t.prompt, t.completion, 0, 0)
  {
    WhatReportsSay(LastReport(chunks));
    hide LastReport, Chars;
  }

  /** The one charge of a stopped stream is for its model, at the price of the usage billed. */
  lemma StoppedStreamCharges(b: Books, c: Context, chunks: seq<Chunk>, failed: bool)
    requires NoNegativeRate(c.card) && NoNegativeImagePrice(c.card)
    ensures var after := Settled(b, c, chunks, failed);
            match BilledUsage(chunks, failed, c.promptChars)
            case None => WroteNothing(b, after)
            case Some(t) =>
              ComputeCost(t, c.card) >= 0 && Wrote(b, after, Charge(c.model, ComputeCost(t, c.card)), c.ledgerUp, c.outboxUp)
  {
    var used := BilledUsage(chunks, failed, c.promptChars);
    if used.Some? { ExactIsNonNegative(used.value, c.card); }
    hide ComputeCost, BilledUsage, NoNegativeRate, NoNegativeImagePrice, Exact;
  }
}
