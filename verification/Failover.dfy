/**
  Cross-provider failover: which errors may be retried, and the ordered chain of fallback
  candidates a request is given.
*/
module Failover {
  import opened Outcomes

  /** The errors an attempt may raise; `Foreign` is anything that is not a domain error. */
  datatype Error =
    | UpstreamTimeout | UpstreamRateLimited | UpstreamUnavailable | UpstreamAuthFailed
    | UpstreamResponseInvalid   // a subclass of UpstreamUnavailable that carries a billable response
    | UpstreamRequestRejected | OtherDomain | Foreign

  predicate IsFailoverEligible(e: Error) {
    e.UpstreamTimeout? || e.UpstreamRateLimited? || e.UpstreamUnavailable? || e.UpstreamAuthFailed?
    || e.UpstreamResponseInvalid?
  }

  // ---- The fallback chain ----

  datatype Candidate = Candidate(
    name: string, modelId: Option<nat>, vision: bool, tools: bool, jsonSchema: bool, window: Option<nat>)

  datatype Context = Context(hasImages: bool, hasTools: bool, wantsJsonSchema: bool, inputTokens: nat)

  datatype Model = Model(id: nat, enabled: bool, chat: bool)

  predicate Capable(ctx: Context, c: Candidate) {
    && (ctx.hasImages ==> c.vision)
    && (ctx.hasTools ==> c.tools)
    && (ctx.wantsJsonSchema ==> c.jsonSchema)
    && (c.window.Some? ==> ctx.inputTokens <= c.window.value)
  }

  function FilterCandidates(ctx: Context, candidates: seq<Candidate>): seq<Candidate> {
    if candidates == [] then []
    else
      var n := |candidates| - 1;
      var kept := FilterCandidates(ctx, candidates[..n]);
      if Capable(ctx, candidates[n]) then kept + [candidates[n]] else kept
  }

  /** A declared candidate that may serve as a fallback. */
  predicate Fallback(ctx: Context, c: Candidate, chosen: string, models: map<Candidate, Model>) {
    Capable(ctx, c) && c.name != chosen && c in models && models[c].enabled && models[c].chat
  }

  predicate Increasing(ix: seq<nat>, bound: nat) {
    && (forall k :: 0 <= k < |ix| ==> ix[k] < bound)
    && forall j, k :: 0 <= j < k < |ix| ==> ix[j] < ix[k]
  }

  /** `chain` picks from `source`, in order, the positions `ix`. */
  predicate Picks<T(==)>(chain: seq<T>, source: seq<T>, ix: seq<nat>) {
    |chain| == |ix| && Increasing(ix, |source|) && forall k :: 0 <= k < |ix| ==> chain[k] == source[ix[k]]
  }

  /** `chain` keeps, in order, exactly the given positions of `source`. */
  ghost predicate KeepsExactly<T>(chain: seq<T>, source: seq<T>, positions: set<nat>) {
    exists ix :: Picks(chain, source, ix) && Elements(ix) == positions
  }

  function Elements(ix: seq<nat>): set<nat> { set i | i in ix }

  function FallbackPositions(ctx: Context, candidates: seq<Candidate>, chosen: string, models: map<Candidate, Model>): set<nat> {
    set i: nat | i < |candidates| && Fallback(ctx, candidates[i], chosen, models)
  }

  /** Every entry is a declared candidate that may serve as a fallback, in declared order. */
  ghost predicate Servable(ctx: Context, candidates: seq<Candidate>, chosen: string, models: map<Candidate, Model>,
                           chain: seq<Candidate>) {
    exists ix :: Picks(chain, candidates, ix) && Elements(ix) <= FallbackPositions(ctx, candidates, chosen, models)
  }

  lemma NothingPicked<T>(source: seq<T>)
    ensures Picks([], source, [])
  {
  }

  lemma PickOneMore<T>(chain: seq<T>, source: seq<T>, ix: seq<nat>, n: nat)
    requires Picks(chain, source, ix) && n < |source| && forall i :: i in ix ==> i < n
    ensures Picks(chain + [source[n]], source, ix + [n])
  {
    assert forall k :: 0 <= k < |ix| ==> ix[k] in ix;
  }

  lemma PicksOfPrefix<T>(chain: seq<T>, source: seq<T>, n: nat, ix: seq<nat>)
    requires n <= |source| && Picks(chain, source[..n], ix)
    ensures Picks(chain, source, ix)
  {
  }

  /** The capability filter keeps exactly the capable candidates, in declared order. */
  lemma {:induction false} FilterPicks(ctx: Context, candidates: seq<Candidate>) returns (ix: seq<nat>)
    ensures Picks(FilterCandidates(ctx, candidates), candidates, ix)
    ensures forall i: nat :: i in ix <==> i < |candidates| && Capable(ctx, candidates[i])
  {
    hide Picks, Capable;
    ix := [];
    if candidates == [] {
      NothingPicked(candidates);
    } else {
      var n := |candidates| - 1;
      ix := FilterPicks(ctx, candidates[..n]);
      PicksOfPrefix(FilterCandidates(ctx, candidates[..n]), candidates, n, ix);
      if Capable(ctx, candidates[n]) {
        PickOneMore(FilterCandidates(ctx, candidates[..n]), candidates, ix, n);
        ix := ix + [n];
      }
    }
  }

  lemma PicksCompose<T>(inner: seq<T>, middle: seq<T>, source: seq<T>, ix: seq<nat>, jx: seq<nat>) returns (kx: seq<nat>)
    requires Picks(middle, source, ix) && Picks(inner, middle, jx)
    ensures Picks(inner, source, kx)
    ensures |kx| == |jx| && forall k :: 0 <= k < |jx| ==> kx[k] == ix[jx[k]]
  {
    kx := seq(|jx|, k requires 0 <= k < |jx| => ix[jx[k]]);
  }

  /**
    The fallback chain before the breaker: every capable, enabled chat candidate other than the
    one the strategy chose, in declared order, and no other.
  */
  method RemainingCandidates(ctx: Context, candidates: seq<Candidate>, chosen: string, models: map<Candidate, Model>)
    returns (chain: seq<Candidate>)
    ensures KeepsExactly(chain, candidates, FallbackPositions(ctx, candidates, chosen, models))
    ensures forall c :: c in chain <==>
              && c in candidates && c.name != chosen && c in models && models[c].enabled && models[c].chat
              && (ctx.hasImages ==> c.vision) && (ctx.hasTools ==> c.tools) && (ctx.wantsJsonSchema ==> c.jsonSchema)
              && (c.window.Some? ==> ctx.inputTokens <= c.window.value)
  {
    hide Capable, Picks;
    var survivors := FilterCandidates(ctx, candidates);
    ghost var sx := FilterPicks(ctx, candidates);
    chain := [];
    ghost var jx: seq<nat> := [];
    NothingPicked(survivors);
    for n := 0 to |survivors|
      invariant Picks(chain, survivors, jx)
      invariant forall j: nat :: j in jx <==> j < n && Eligible(survivors[j], chosen, models)
    {
      if Eligible(survivors[n], chosen, models) {
        PickOneMore(chain, survivors, jx, n);
        chain := chain + [survivors[n]];
        jx := jx + [n];
      }
    }
    ghost var ix := PicksCompose(chain, survivors, candidates, sx, jx);
    PicksFit(survivors, candidates, sx);
    PicksFit(chain, survivors, jx);
    EligibleSurvivors(ctx, candidates, chosen, models, survivors, sx, jx, ix);
    assert Elements(ix) == FallbackPositions(ctx, candidates, chosen, models);
    WhoIsKept(ctx, candidates, chosen, models, chain, ix);
    KeptQualify(ctx, candidates, chosen, models, chain);
  }

  lemma KeptQualify(ctx: Context, candidates: seq<Candidate>, chosen: string, models: map<Candidate, Model>, chain: seq<Candidate>)
    requires forall c :: c in chain <==> c in candidates && Fallback(ctx, c, chosen, models)
    ensures forall c :: c in chain <==>
              && c in candidates && c.name != chosen && c in models && models[c].enabled && models[c].chat
              && (ctx.hasImages ==> c.vision) && (ctx.hasTools ==> c.tools) && (ctx.wantsJsonSchema ==> c.jsonSchema)
              && (c.window.Some? ==> ctx.inputTokens <= c.window.value)
  {
  }

  lemma WhoIsKept(ctx: Context, candidates: seq<Candidate>, chosen: string, models: map<Candidate, Model>,
                  chain: seq<Candidate>, ix: seq<nat>)
    requires Picks(chain, candidates, ix) && Elements(ix) == FallbackPositions(ctx, candidates, chosen, models)
    ensures forall c :: c in chain <==> c in candidates && Fallback(ctx, c, chosen, models)
  {
    hide Fallback;
    forall c | c in chain ensures c in candidates && Fallback(ctx, c, chosen, models) {
      var k :| 0 <= k < |chain| && chain[k] == c;
      assert ix[k] in Elements(ix);
    }
    forall c | c in candidates && Fallback(ctx, c, chosen, models) ensures c in chain {
      var i :| 0 <= i < |candidates| && candidates[i] == c;
      assert i in Elements(ix);
      var k :| 0 <= k < |ix| && ix[k] == i;
      assert chain[k] == c;
    }
  }

  lemma PicksFit<T>(chain: seq<T>, source: seq<T>, ix: seq<nat>)
    requires Picks(chain, source, ix)
    ensures |chain| == |ix| && forall k :: 0 <= k < |ix| ==> ix[k] < |source|
  {
  }

  predicate Eligible(c: Candidate, chosen: string, models: map<Candidate, Model>) {
    c.name != chosen && c in models && models[c].enabled && models[c].chat
  }

  lemma EligibleSurvivors(ctx: Context, candidates: seq<Candidate>, chosen: string, models: map<Candidate, Model>,
                          survivors: seq<Candidate>, sx: seq<nat>, jx: seq<nat>, ix: seq<nat>)
    requires Picks(survivors, candidates, sx)
    requires forall i: nat :: i in sx <==> i < |candidates| && Capable(ctx, candidates[i])
    requires forall j: nat :: j in jx <==> j < |survivors| && Eligible(survivors[j], chosen, models)
    requires |ix| == |jx| && forall k :: 0 <= k < |jx| ==> jx[k] < |sx| && ix[k] == sx[jx[k]]
    ensures forall i: nat :: i in ix <==> i < |candidates| && Fallback(ctx, candidates[i], chosen, models)
  {
    hide Capable;
    forall i: nat ensures i in ix <==> i < |candidates| && Fallback(ctx, candidates[i], chosen, models) {
      if i in ix {
        var k :| 0 <= k < |ix| && ix[k] == i;
        assert jx[k] in jx && sx[jx[k]] in sx;
      }
      if i < |candidates| && Fallback(ctx, candidates[i], chosen, models) {
        var s :| 0 <= s < |sx| && sx[s] == i;
        assert survivors[s] == candidates[i];
        var k :| 0 <= k < |jx| && jx[k] == s;
        assert ix[k] == i;
      }
    }
  }

  /** The circuit breaker only drops candidates; `leases[i]` is its answer to the i-th question. */
  method BreakerFiltered(candidates: seq<Candidate>, leases: seq<bool>) returns (allowed: seq<Candidate>)
    requires |leases| >= |candidates|
    ensures KeepsExactly(allowed, candidates, set i: nat | i < |candidates| && leases[i])
  {
    hide Picks;
    allowed := [];
    ghost var ix: seq<nat> := [];
    NothingPicked(candidates);
    for n := 0 to |candidates|
      invariant Picks(allowed, candidates, ix)
      invariant forall i: nat :: i in ix <==> i < n && leases[i]
    {
      if leases[n] {
        PickOneMore(allowed, candidates, ix, n);
        allowed := allowed + [candidates[n]];
        ix := ix + [n];
      }
    }
    assert Elements(ix) == set i: nat | i < |candidates| && leases[i];
  }

  /** Both filters in turn: what the retry loop walks. */
  method FallbackChain(ctx: Context, candidates: seq<Candidate>, chosen: string, models: map<Candidate, Model>, leases: seq<bool>)
    returns (chain: seq<Candidate>)
    requires |leases| >= |candidates|
    ensures Servable(ctx, candidates, chosen, models, chain)
  {
    hide FallbackPositions, Picks;
    var remaining := RemainingCandidates(ctx, candidates, chosen, models);
    ghost var ix :| Picks(remaining, candidates, ix) && Elements(ix) == FallbackPositions(ctx, candidates, chosen, models);
    PicksNoMore(remaining, candidates, ix);
    chain := BreakerFiltered(remaining, leases);
    ghost var jx :| Picks(chain, remaining, jx) && Elements(jx) == set i: nat | i < |remaining| && leases[i];
    ghost var kx := PicksCompose(chain, remaining, candidates, ix, jx);
    PicksFit(chain, remaining, jx);
    PicksFit(remaining, candidates, ix);
    assert forall k :: 0 <= k < |kx| ==> kx[k] == ix[jx[k]] && ix[jx[k]] in ix;
    assert Elements(kx) <= Elements(ix);
  }

  lemma {:induction false} PicksNoMore<T>(chain: seq<T>, source: seq<T>, ix: seq<nat>)
    requires Picks(chain, source, ix)
    ensures |chain| <= |source|
  {
    if ix != [] {
      IncreasingFits(ix, |ix| - 1);
    }
  }

  lemma {:induction false} IncreasingFits(ix: seq<nat>, k: nat)
    requires k < |ix| && forall i, j :: 0 <= i < j < |ix| ==> ix[i] < ix[j]
    ensures k <= ix[k]
  {
    if k > 0 { IncreasingFits(ix, k - 1); }
  }

  lemma ServablePrefix(ctx: Context, candidates: seq<Candidate>, chosen: string, models: map<Candidate, Model>,
                       chain: seq<Candidate>, n: nat)
    returns (ix: seq<nat>)
    requires Servable(ctx, candidates, chosen, models, chain) && n <= |chain|
    ensures |ix| == n && Increasing(ix, |candidates|)
    ensures forall k :: 0 <= k < n ==>
              ix[k] < |candidates| && chain[k] == candidates[ix[k]] && Fallback(ctx, candidates[ix[k]], chosen, models)
  {
    hide Fallback;
    var all :| Picks(chain, candidates, all) && Elements(all) <= FallbackPositions(ctx, candidates, chosen, models);
    ix := all[..n];
    forall k | 0 <= k < n ensures Fallback(ctx, candidates[ix[k]], chosen, models) {
      assert all[k] in Elements(all);
    }
  }
}
