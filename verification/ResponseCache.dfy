/**
  The exact response cache: what identifies a request, how the exact key and the semantic scope
  relate, and why a dispatch with the cache answers what a dispatch without it would.
*/
module ResponseCache {
  import opened Outcomes
  import opened Json

  datatype Model = Model(
    id: nat, name: string, provider: string, providerModelId: string, apiVersion: Option<string>,
    maxOutputTokens: Option<nat>, cacheEnabled: bool, allowNondeterministic: bool)

  /** The merged request; values are JSON up to the order of object keys. */
  type Fields = map<string, Json>

  datatype View = View(
    operation: string, modelId: nat, modelName: string, provider: string, providerModelId: string,
    apiVersion: Option<string>, maxOutputTokens: Option<nat>, request: Fields)

  const NON_DETERMINING := {"model", "stream", "stream_options", "user", "metadata"}
  const EMBEDDED := {"messages", "input"}

  function CanonicalView(model: Model, operation: string, request: Fields): View {
    View(operation, model.id, model.name, model.provider, model.providerModelId, model.apiVersion, model.maxOutputTokens,
         map f | f in request && f !in NON_DETERMINING :: request[f])
  }

  datatype CacheKey = CacheKey(team: nat, apiKey: Option<nat>, digest: nat)

  datatype SemanticScope = SemanticScope(team: nat, apiKey: Option<nat>, modelId: nat, operation: string, digest: nat)

  datatype Request = Request(team: nat, apiKey: Option<nat>, model: Model, operation: string, fields: Fields)

  function ViewOf(r: Request): View { CanonicalView(r.model, r.operation, r.fields) }

  function WithoutText(v: View): View {
    v.(request := map f | f in v.request && f !in EMBEDDED :: v.request[f])
  }

  type Digest = View -> nat

  ghost predicate Injective(digest: Digest) { forall v, w :: digest(v) == digest(w) ==> v == w }

  function DeriveCacheKey(digest: Digest, r: Request): CacheKey { CacheKey(r.team, r.apiKey, digest(ViewOf(r))) }

  function DeriveSemanticScope(digest: Digest, r: Request): SemanticScope {
    SemanticScope(r.team, r.apiKey, r.model.id, r.operation, digest(WithoutText(ViewOf(r))))
  }

  function At(m: Fields, f: string): Option<Json> { if f in m then Some(m[f]) else None }

  /** Two requests agree on a field: same value, or absent from both. */
  predicate Agree(r: Request, s: Request, f: string) { At(r.fields, f) == At(s.fields, f) }

  predicate SameTarget(r: Request, s: Request) {
    && r.team == s.team && r.apiKey == s.apiKey && r.operation == s.operation
    && r.model.id == s.model.id && r.model.name == s.model.name && r.model.provider == s.model.provider
    && r.model.providerModelId == s.model.providerModelId && r.model.apiVersion == s.model.apiVersion
    && r.model.maxOutputTokens == s.model.maxOutputTokens
  }

  lemma SameFields(m: Fields, n: Fields)
    requires forall f :: At(m, f) == At(n, f)
    ensures m == n
  {
    forall f ensures (f in m <==> f in n) && (f in m ==> m[f] == n[f]) { assert At(m, f) == At(n, f); }
    assert m.Keys == n.Keys;
  }

  /** Two requests share an exact entry iff nothing that can determine the answer tells them apart. */
  lemma KeysEqualIff(digest: Digest, r: Request, s: Request)
    requires Injective(digest)
    ensures DeriveCacheKey(digest, r) == DeriveCacheKey(digest, s) <==>
              SameTarget(r, s) && forall f :: f !in {"model", "stream", "stream_options", "user", "metadata"} ==> Agree(r, s, f)
  {
    var m, n := ViewOf(r).request, ViewOf(s).request;
    assert forall f :: At(m, f) == if f in NON_DETERMINING then None else At(r.fields, f);
    assert forall f :: At(n, f) == if f in NON_DETERMINING then None else At(s.fields, f);
    if forall f :: f !in NON_DETERMINING ==> Agree(r, s, f) { SameFields(m, n); }
    if DeriveCacheKey(digest, r) == DeriveCacheKey(digest, s) {
      assert ViewOf(r) == ViewOf(s);
      forall f | f !in NON_DETERMINING ensures Agree(r, s, f) { assert At(m, f) == At(n, f); }
    }
  }

  /** They share a semantic scope iff only the embedded text may tell them apart. */
  lemma ScopesEqualIff(digest: Digest, r: Request, s: Request)
    requires Injective(digest)
    ensures DeriveSemanticScope(digest, r) == DeriveSemanticScope(digest, s) <==>
              SameTarget(r, s) && forall f ::
                f !in {"model", "stream", "stream_options", "user", "metadata", "messages", "input"} ==> Agree(r, s, f)
  {
    var m, n := WithoutText(ViewOf(r)).request, WithoutText(ViewOf(s)).request;
    assert forall f :: At(m, f) == if f in NON_DETERMINING || f in EMBEDDED then None else At(r.fields, f);
    assert forall f :: At(n, f) == if f in NON_DETERMINING || f in EMBEDDED then None else At(s.fields, f);
    if forall f :: f !in NON_DETERMINING && f !in EMBEDDED ==> Agree(r, s, f) { SameFields(m, n); }
    if DeriveSemanticScope(digest, r) == DeriveSemanticScope(digest, s) {
      assert WithoutText(ViewOf(r)) == WithoutText(ViewOf(s));
      forall f | f !in NON_DETERMINING && f !in EMBEDDED ensures Agree(r, s, f) { assert At(m, f) == At(n, f); }
    }
  }

  /** The exact key is the semantic scope plus the text. */
  lemma KeyIsScopePlusText(digest: Digest, r: Request, s: Request)
    requires Injective(digest)
    ensures DeriveCacheKey(digest, r) == DeriveCacheKey(digest, s) <==>
              DeriveSemanticScope(digest, r) == DeriveSemanticScope(digest, s)
              && Agree(r, s, "messages") && Agree(r, s, "input")
  {
    KeysEqualIff(digest, r, s);
    ScopesEqualIff(digest, r, s);
    hide DeriveCacheKey, DeriveSemanticScope;
  }

  /** A field other than five that is different, or only there in one of them, gives two requests different keys. */
  lemma DeterminingFieldsCount(digest: Digest, r: Request, s: Request, f: string)
    requires Injective(digest) && f !in {"model", "stream", "stream_options", "user", "metadata"}
    requires (f in r.fields) != (f in s.fields) || (f in r.fields && r.fields[f] != s.fields[f])
    ensures DeriveCacheKey(digest, r) != DeriveCacheKey(digest, s)
  {
    KeysEqualIff(digest, r, s);
    assert !Agree(r, s, f);
    hide DeriveCacheKey;
  }

  /** And these five are all that is ignored: whatever they say, the key is the same, for any digest. */
  lemma FiveFieldsAreIgnored(digest: Digest, r: Request, fields: Fields)
    requires forall f :: f !in {"model", "stream", "stream_options", "user", "metadata"} ==>
               (f in fields <==> f in r.fields) && (f in fields ==> fields[f] == r.fields[f])
    ensures DeriveCacheKey(digest, r.(fields := fields)) == DeriveCacheKey(digest, r)
  {
    assert ViewOf(r.(fields := fields)).request == ViewOf(r).request;
  }

  // ---- Participation ----

  predicate IsCacheable(r: Request) {
    && r.operation in {"chat.completions", "responses"}
    && r.model.cacheEnabled
    && (match At(r.fields, "temperature")
        case Some(Num(t)) => t > 0.0 ==> r.model.allowNondeterministic
        case _ => true)
  }

  // ---- Dispatch with the cache, as a function ----

  type Body = string

  datatype Cached = Cached(body: Body, prompt: nat, completion: nat)

  datatype Reply = Answer(body: Body) | ProviderError(message: string) | Blocked

  /**
    The world a run happens in: a provider that answers by the canonical view, the response guard of
    each scope (model and router rules), and the token counts readable from a body.
  */
  datatype World = World(
    digest: Digest, provider: View -> Result<Body, string>, guard: (nat, Body) -> Option<Body>,
    tokens: Body -> Option<(nat, nat)>)

  type Entries = map<CacheKey, Cached>

  function Guarded(w: World, scope: nat, body: Body): Reply {
    match w.guard(scope, body) case Some(b) => Answer(b) case None => Blocked
  }

  /** The dispatch without a cache. */
  function Uncached(w: World, r: Request, scope: nat): Reply {
    match w.provider(ViewOf(r))
    case Err(e) => ProviderError(e)
    case Ok(body) => Guarded(w, scope, body)
  }

  /** One dispatch; `readable` and `writable` say whether the cache answers and accepts. */
  function Dispatched(w: World, entries: Entries, r: Request, scope: nat, on: bool, readable: bool, writable: bool): (Entries, Reply) {
    var key, use := DeriveCacheKey(w.digest, r), on && IsCacheable(r);
    if use && readable && key in entries then (entries, Guarded(w, scope, entries[key].body))
    else
      var reply := Uncached(w, r, scope);
      if use && writable && reply.Answer? && w.tokens(w.provider(ViewOf(r)).value).Some? then
        var (p, c) := w.tokens(w.provider(ViewOf(r)).value).value;
        (entries[key := Cached(reply.body, p, c)], reply)
      else (entries, reply)
  }

  datatype Step = Ask(r: Request, scope: nat, on: bool, readable: bool, writable: bool) | Expire(keys: set<CacheKey>)

  class CacheDispatcher {
    var entries: Entries

    constructor ()
      ensures entries == map[]
    {
      entries := map[];
    }

    method Dispatch(w: World, r: Request, scope: nat, on: bool, readable: bool, writable: bool) returns (reply: Reply)
      modifies this
      ensures (entries, reply) == Dispatched(w, old(entries), r, scope, on, readable, writable)
    {
      var use := on && IsCacheable(r);
      var key := DeriveCacheKey(w.digest, r);
      if use {
        var cached := if readable && key in entries then Some(entries[key]) else None;
        if cached.Some? { return Guarded(w, scope, cached.value.body); }
      }
      var response := w.provider(ViewOf(r));
      if response.Err? { return ProviderError(response.error); }
      var guarded := w.guard(scope, response.value);
      if guarded.None? { return Blocked; }
      if use {
        var tokens := w.tokens(response.value);
        if tokens.Some? && writable {
          entries := entries[key := Cached(guarded.value, tokens.value.0, tokens.value.1)];
        }
      }
      return Answer(guarded.value);
    }
  }

  /**
    When the cache answers, and what it keeps. A chat or Responses request to a caching model, sampled
    at a positive temperature only if the model allows it, is answered from the entry under its key,
    screened again. Any other is answered by the provider, screened, and the screened body is kept
    under that key with the tokens read off the provider's, if the request takes part and they can be.
  */
  lemma WhenTheCacheAnswers(w: World, entries: Entries, r: Request, scope: nat, on: bool, readable: bool, writable: bool)
    ensures var (after, reply) := Dispatched(w, entries, r, scope, on, readable, writable);
            var key, said := CacheKey(r.team, r.apiKey, w.digest(ViewOf(r))), w.provider(ViewOf(r));
            var takesPart :=
              && on && (r.operation == "chat.completions" || r.operation == "responses") && r.model.cacheEnabled
              && (r.model.allowNondeterministic
                  || !("temperature" in r.fields && r.fields["temperature"].Num? && r.fields["temperature"].n > 0.0));
            if takesPart && readable && key in entries then
              && after == entries
              && reply == (match w.guard(scope, entries[key].body) case Some(b) => Answer(b) case None => Blocked)
            else
              && (said.Err? ==> reply == ProviderError(said.error))
              && (said.Ok? ==> reply == match w.guard(scope, said.value) case Some(b) => Answer(b) case None => Blocked)
              && after == if takesPart && writable && reply.Answer? && w.tokens(said.value).Some?
                          then entries[key := Cached(reply.body, w.tokens(said.value).value.0, w.tokens(said.value).value.1)]
                          else entries
  {
  }

  // ---- Transparency ----

  /** The body was produced by some scope's guard from what the provider says to the key's view. */
  ghost predicate Screened(w: World, key: CacheKey, entry: Cached) {
    exists v: View, g: nat :: w.digest(v) == key.digest && w.provider(v).Ok? && w.guard(g, w.provider(v).value) == Some(entry.body)
  }

  ghost predicate AllScreened(w: World, entries: Entries) { forall k :: k in entries ==> Screened(w, k, entries[k]) }

  /** Guarding what any scope's guard produced gives what guarding the original gives; for a single scope, idempotence. */
  ghost predicate Absorbs(w: World) {
    forall g, h: nat, b: Body :: w.guard(g, b).Some? ==> w.guard(h, w.guard(g, b).value) == w.guard(h, b)
  }

  lemma DispatchIsTransparent(w: World, entries: Entries, r: Request, scope: nat, on: bool, readable: bool, writable: bool)
    requires Injective(w.digest) && Absorbs(w) && AllScreened(w, entries)
    ensures var (after, reply) := Dispatched(w, entries, r, scope, on, readable, writable);
            AllScreened(w, after) && reply == Uncached(w, r, scope)
  {
    var key := DeriveCacheKey(w.digest, r);
    var (after, reply) := Dispatched(w, entries, r, scope, on, readable, writable);
    if on && IsCacheable(r) && readable && key in entries {
      var v: View, g: nat :| w.digest(v) == key.digest && w.provider(v).Ok?
                             && w.guard(g, w.provider(v).value) == Some(entries[key].body);
      assert v == ViewOf(r);
      assert w.guard(scope, w.guard(g, w.provider(v).value).value) == w.guard(scope, w.provider(v).value);
    } else if after != entries {
      assert w.guard(scope, w.provider(ViewOf(r)).value) == Some(after[key].body);
      assert Screened(w, key, after[key]);
      assert forall k :: k in after && k != key ==> after[k] == entries[k];
    }
  }

  function RunSteps(w: World, entries: Entries, steps: seq<Step>): (Entries, seq<Reply>)
    decreases |steps|
  {
    if steps == [] then (entries, [])
    else match steps[0]
      case Expire(keys) => RunSteps(w, entries - keys, steps[1..])
      case Ask(r, scope, on, readable, writable) =>
        var (after, reply) := Dispatched(w, entries, r, scope, on, readable, writable);
        var (end, replies) := RunSteps(w, after, steps[1..]);
        (end, [reply] + replies)
  }

  function UncachedReplies(w: World, steps: seq<Step>): seq<Reply> {
    if steps == [] then []
    else (if steps[0].Ask? then [Uncached(w, steps[0].r, steps[0].scope)] else []) + UncachedReplies(w, steps[1..])
  }

  /** Any run, with entries expiring and the cache failing at any moment, answers what the uncached run answers. */
  lemma {:induction false} RunIsTransparent(w: World, entries: Entries, steps: seq<Step>)
    requires Injective(w.digest) && Absorbs(w) && AllScreened(w, entries)
    ensures RunSteps(w, entries, steps).1 == UncachedReplies(w, steps)
    ensures AllScreened(w, RunSteps(w, entries, steps).0)
    decreases |steps|
  {
    hide Dispatched, Screened, Absorbs, Injective, Uncached;
    if steps != [] {
      match steps[0] {
        case Expire(keys) => RunIsTransparent(w, entries - keys, steps[1..]);
        case Ask(r, scope, on, readable, writable) =>
          DispatchIsTransparent(w, entries, r, scope, on, readable, writable);
          RunIsTransparent(w, Dispatched(w, entries, r, scope, on, readable, writable).0, steps[1..]);
      }
    }
  }

  /**
    The condition is what transparency needs: after one scope's answer is stored, another scope
    asking the same gets its uncached answer exactly when its guard treats the stored body as the original.
  */
  lemma TransparencyNeedsAbsorption(w: World, r: Request, first: nat, second: nat)
    requires IsCacheable(r) && w.provider(ViewOf(r)).Ok?
    requires w.tokens(w.provider(ViewOf(r)).value).Some? && w.guard(first, w.provider(ViewOf(r)).value).Some?
    ensures var body := w.provider(ViewOf(r)).value;
            var stored := Dispatched(w, map[], r, first, true, true, true).0;
            Dispatched(w, stored, r, second, true, true, true).1 == Uncached(w, r, second) <==>
              w.guard(second, w.guard(first, body).value) == w.guard(second, body)
  {
  }

  /** A world that fails it: the guard of scope 0 redacts, that of every other scope passes. */
  function RedactingWorld(digest: Digest): World {
    World(digest, (_) => Ok("secret"), (g, b) => if g == 0 then Some("[redacted]") else Some(b), (_) => Some((1, 1)))
  }

  /** There, whatever the digest, scope 1 is answered with what scope 0 redacted; each guard alone is idempotent. */
  lemma ScopedGuardsShowThrough(digest: Digest, r: Request)
    requires IsCacheable(r)
    ensures var w := RedactingWorld(digest);
            var stored := Dispatched(w, map[], r, 0, true, true, true).0;
            && Uncached(w, r, 1) == Answer("secret")
            && Dispatched(w, stored, r, 1, true, true, true).1 == Answer("[redacted]")
            && (forall g: nat, b: Body :: w.guard(g, b).Some? && w.guard(g, w.guard(g, b).value) == w.guard(g, b))
            && !Absorbs(w)
  {
    var w := RedactingWorld(digest);
    TransparencyNeedsAbsorption(w, r, 0, 1);
    assert w.guard(1, w.guard(0, "secret").value) != w.guard(1, "secret");
  }
}
