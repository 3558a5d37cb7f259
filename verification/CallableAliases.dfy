/**
  The resolver of callable aliases: one namespace per team, built from a registry snapshot.
  A snapshot holds bindings of the team and of the platform (`teamId` None) plus the reserved
  slots; the registry's unique constraints keep aliases unique within each scope.
*/
module CallableAliases {
  import opened Outcomes
  import opened AliasNames

  datatype Kind = ModelKind | RouterKind

  datatype Binding = Binding(
    id: nat, teamId: Option<nat>, alias: string, kind: Kind, resourceId: nat,
    routerGrantId: Option<nat>, routerRevisionId: Option<nat>)

  datatype Resource = Model(modelId: nat, body: string) | Router(routerId: nat, config: string)

  /** The target tables as `_load` reads them. */
  datatype Registry = Registry(
    models: map<nat, Resource>, routers: map<nat, Resource>,
    revisions: map<(nat, nat), Resource>, grants: map<(nat, Option<nat>), Resource>)

  datatype Resolved = Resolved(effectiveAlias: string, binding: Binding, resource: Resource)

  function At<K, V>(m: map<K, V>, k: K): Option<V> {
    if k in m then Some(m[k]) else None
  }

  function Load(registry: Registry, b: Binding): Option<Resource> {
    if b.kind.ModelKind? then At(registry.models, b.resourceId)
    else if b.routerGrantId.Some? then At(registry.grants, (b.routerGrantId.value, b.teamId))
    else if b.routerRevisionId.Some? then At(registry.revisions, (b.resourceId, b.routerRevisionId.value))
    else At(registry.routers, b.resourceId)
  }

  predicate InScope(bindings: set<Binding>, scope: Option<nat>) {
    forall b :: b in bindings ==> b.teamId == scope || b.teamId.None?
  }

  predicate UniqueAliases(bindings: set<Binding>) {
    forall b, c :: b in bindings && c in bindings && b.teamId == c.teamId && b.alias == c.alias ==> b == c
  }

  function Locals(bindings: set<Binding>, scope: Option<nat>): set<Binding> {
    set b | b in bindings && scope.Some? && b.teamId == scope
  }

  function Globals(bindings: set<Binding>): set<Binding> {
    set b | b in bindings && b.teamId.None?
  }

  function Aliases(bindings: set<Binding>): set<string> {
    set b | b in bindings :: b.alias
  }

  ghost function Named(bindings: set<Binding>, alias: string): (b: Binding)
    requires alias in Aliases(bindings)
    ensures b in bindings && b.alias == alias
  {
    var b :| b in bindings && b.alias == alias; b
  }

  ghost function ByAlias(bindings: set<Binding>): (m: map<string, Binding>)
    ensures m.Keys == Aliases(bindings)
    ensures forall a :: a in m ==> m[a] in bindings && m[a].alias == a
  {
    map a | a in Aliases(bindings) :: Named(bindings, a)
  }

  /** The namespace a snapshot stands for. */
  ghost function Namespace(bindings: set<Binding>, reserved: set<string>, scope: Option<nat>): map<string, Binding> {
    Allocation(ByAlias(Locals(bindings, scope)), ByAlias(Globals(bindings)), reserved)
  }

  function Elements(bindings: seq<Binding>): set<Binding> { set b | b in bindings }

  predicate Snapshot(explicit: seq<Binding>, scope: Option<nat>) {
    InScope(Elements(explicit), scope) && UniqueAliases(Elements(explicit))
  }

  lemma ByAliasOfUnique(bindings: set<Binding>, b: Binding)
    requires UniqueAliases(bindings) && b in bindings
    requires forall c :: c in bindings ==> c.teamId == b.teamId
    ensures b.alias in ByAlias(bindings) && ByAlias(bindings)[b.alias] == b
  {
  }

  method PlaceLocals(local: set<Binding>) returns (byAlias: map<string, Binding>)
    requires forall b, c :: b in local && c in local && b.alias == c.alias ==> b == c
    ensures byAlias == ByAlias(local)
  {
    byAlias := map[];
    var todo := local;
    while todo != {}
      invariant todo <= local
      invariant forall b :: b in local - todo ==> b.alias in byAlias && byAlias[b.alias] == b
      invariant forall a :: a in byAlias ==> byAlias[a] in local && byAlias[a].alias == a
      decreases |todo|
    {
      var b :| b in todo;
      byAlias := byAlias[b.alias := b];
      todo := todo - {b};
    }
    forall a | a in Aliases(local) ensures a in byAlias && byAlias[a] == ByAlias(local)[a] {
      assert ByAlias(local)[a] in local - todo;
    }
  }

  lemma NotYetPlaced(globals: set<Binding>, todo: set<Binding>, b: Binding)
    requires UniqueAliases(globals) && (forall c :: c in globals ==> c.teamId.None?)
    requires b in todo && todo <= globals
    ensures b.alias in ByAlias(globals) && ByAlias(globals)[b.alias] == b
    ensures b.alias !in Aliases(globals) - Aliases(todo)
    ensures Aliases(globals) - Aliases(todo - {b}) == Aliases(globals) - Aliases(todo) + {b.alias}
  {
    ByAliasOfUnique(globals, b);
    assert b.alias in Aliases(todo);
    assert b.alias !in Aliases(todo - {b});
    assert Aliases(todo) == Aliases(todo - {b}) + {b.alias};
  }

  method PlaceGlobals(local: set<Binding>, globals: set<Binding>, reserved: set<string>, placed: map<string, Binding>)
    returns (byAlias: map<string, Binding>)
    requires UniqueAliases(globals) && forall b :: b in globals ==> b.teamId.None?
    requires placed == ByAlias(local)
    ensures byAlias == Allocation(ByAlias(local), ByAlias(globals), reserved)
  {
    hide Stage, UniqueAliases, Synthetic, ByAlias, FirstFree, Allocation;
    byAlias := placed;
    var occupied := byAlias.Keys + reserved;
    var declaredGlobals := Aliases(globals);
    ghost var L, G := ByAlias(local), ByAlias(globals);
    var todo := globals;
    FirstStage(L, G, reserved);
    assert Aliases(globals) - Aliases(todo) == {};
    while todo != {}
      invariant todo <= globals
      invariant Stage(byAlias, occupied, L, G, reserved, Aliases(globals) - Aliases(todo))
      decreases |todo|
    {
      hide Aliases;
      var b :| b in todo;
      var effective := b.alias;
      if effective in occupied {
        effective := SearchFree(b.alias, occupied, declaredGlobals);
      }
      NotYetPlaced(globals, todo, b);
      NextStage(byAlias, occupied, L, G, reserved, Aliases(globals) - Aliases(todo), b.alias);
      byAlias := byAlias[effective := b];
      occupied := occupied + {effective};
      todo := todo - {b};
    }
    assert Aliases(globals) - Aliases({}) == G.Keys;
    AllPlaced(byAlias, occupied, L, G, reserved);
  }

  /**
    The allocator. It may take the locals and the globals in any order; sorting them by alias
    and id, as the source does, is one such order, and the result is the same for all of them.
  */
  method EffectiveBindings(explicit: seq<Binding>, reserved: set<string>, scope: Option<nat>)
    returns (byAlias: map<string, Binding>)
    requires UniqueAliases(Elements(explicit))
    ensures byAlias == Namespace(Elements(explicit), reserved, scope)
  {
    var local, globals := Locals(Elements(explicit), scope), Globals(Elements(explicit));
    byAlias := PlaceLocals(local);
    byAlias := PlaceGlobals(local, globals, reserved, byAlias);
  }

  /** The one effective alias of a binding of the snapshot. */
  ghost function EffectiveOf(b: Binding, bindings: set<Binding>, reserved: set<string>, scope: Option<nat>): string {
    if b.teamId.None?
    then Effective(b.alias, Aliases(Locals(bindings, scope)) + reserved, Aliases(Globals(bindings)))
    else b.alias
  }

  /** Total and non-interfering: every binding is listed, under exactly one effective alias. */
  lemma EveryBindingOnce(bindings: set<Binding>, reserved: set<string>, scope: Option<nat>, b: Binding)
    requires UniqueAliases(bindings) && InScope(bindings, scope) && b in bindings
    ensures var m := Namespace(bindings, reserved, scope);
            forall e :: e in m && m[e] == b <==> e == EffectiveOf(b, bindings, reserved, scope)
  {
    hide Effective, EffectiveNames, Allocation, ByAlias, Aliases;
    var local, globals := Locals(bindings, scope), Globals(bindings);
    var L, G := ByAlias(local), ByAlias(globals);
    AllocationBinds(L, G, reserved);
    var m := Namespace(bindings, reserved, scope);
    if b.teamId.None? { ByAliasOfUnique(globals, b); } else { ByAliasOfUnique(local, b); }
    forall e | e in m && m[e] == b ensures e == EffectiveOf(b, bindings, reserved, scope) {
      var a := AllocationEntry(L, G, reserved, e);
      if e in L {
        assert L[e] in local;
      } else {
        assert G[a] in globals;
      }
    }
  }

  /** Nothing else is listed, and how each listed name was chosen. */
  lemma HowAliasesAreChosen(bindings: set<Binding>, reserved: set<string>, scope: Option<nat>, e: string)
    requires UniqueAliases(bindings) && e in Namespace(bindings, reserved, scope)
    ensures var b := Namespace(bindings, reserved, scope)[e];
            var taken, declared := Aliases(Locals(bindings, scope)) + reserved, Aliases(Globals(bindings));
            && b in bindings
            && (b in Locals(bindings, scope) ==> e == b.alias)
            && (b !in Locals(bindings, scope) ==> b in Globals(bindings))
            && (b in Globals(bindings) && b.alias !in taken ==> e == b.alias)
            && (b in Globals(bindings) && b.alias in taken ==>
                  exists k: nat :: e == Synthetic(b.alias, k) && k <= |taken + declared|
                    && IsFirstFree(b.alias, taken + declared, k))
  {
    hide Allocation, ByAlias, Aliases, EffectiveNames, Synthetic, IsFirstFree, FirstFree;
    var L, G := ByAlias(Locals(bindings, scope)), ByAlias(Globals(bindings));
    var a := AllocationEntry(L, G, reserved, e);
    if e in L {
      assert L[e] in Locals(bindings, scope);
    } else {
      assert G[a] in Globals(bindings);
      var avoid := L.Keys + reserved + G.Keys;
      assert IsFirstFree(a, avoid, FirstFree(a, avoid));
    }
  }

  /** The row order of the snapshot does not matter. */
  lemma OrderIndependent(explicit: seq<Binding>, shuffled: seq<Binding>, reserved: set<string>, scope: Option<nat>)
    requires multiset(explicit) == multiset(shuffled)
    ensures Namespace(Elements(explicit), reserved, scope) == Namespace(Elements(shuffled), reserved, scope)
  {
    forall b ensures b in explicit <==> b in shuffled {
      assert b in explicit <==> b in multiset(explicit);
      assert b in shuffled <==> b in multiset(shuffled);
    }
    assert Elements(explicit) == Elements(shuffled);
  }

  /** A listed entry: an effective alias whose bound resource still loads. */
  ghost predicate IsCallable(r: Resolved, explicit: seq<Binding>, reserved: set<string>, scope: Option<nat>, registry: Registry) {
    var m := Namespace(Elements(explicit), reserved, scope);
    r.effectiveAlias in m && m[r.effectiveAlias] == r.binding && Load(registry, r.binding) == Some(r.resource)
  }

  /**
    Which table a listed alias is answered from: a model from the models; a router shared by grant from
    the grants, under the binding's own team; one pinned to a revision from its revisions; and any other
    from the routers. An alias whose entry is gone is not listed.
  */
  lemma AnsweredFrom(e: string, b: Binding, x: Resource, explicit: seq<Binding>, reserved: set<string>, scope: Option<nat>,
                     registry: Registry)
    ensures IsCallable(Resolved(e, b, x), explicit, reserved, scope, registry) <==>
              && e in Namespace(Elements(explicit), reserved, scope) && Namespace(Elements(explicit), reserved, scope)[e] == b
              && match (b.kind, b.routerGrantId, b.routerRevisionId)
                 case (ModelKind, _, _) => b.resourceId in registry.models && registry.models[b.resourceId] == x
                 case (RouterKind, Some(grant), _) =>
                   (grant, b.teamId) in registry.grants && registry.grants[(grant, b.teamId)] == x
                 case (RouterKind, None, Some(revision)) =>
                   (b.resourceId, revision) in registry.revisions && registry.revisions[(b.resourceId, revision)] == x
                 case (RouterKind, None, None) => b.resourceId in registry.routers && registry.routers[b.resourceId] == x
  {
    hide Namespace;
  }

  method ListCallable(explicit: seq<Binding>, reserved: set<string>, scope: Option<nat>, registry: Registry)
    returns (resolved: seq<Resolved>)
    requires Snapshot(explicit, scope)
    ensures forall r :: r in resolved <==> IsCallable(r, explicit, reserved, scope, registry)
    ensures forall i, j :: 0 <= i < j < |resolved| ==> resolved[i].effectiveAlias != resolved[j].effectiveAlias
  {
    hide Namespace, Load;
    var byAlias := EffectiveBindings(explicit, reserved, scope);
    resolved := [];
    var todo := byAlias.Keys;
    while todo != {}
      invariant todo <= byAlias.Keys
      invariant forall r :: r in resolved <==> Listed(r, byAlias, byAlias.Keys - todo, registry)
      invariant forall i, j :: 0 <= i < j < |resolved| ==> resolved[i].effectiveAlias != resolved[j].effectiveAlias
      decreases |todo|
    {
      var effective :| effective in todo;
      forall i | 0 <= i < |resolved| ensures resolved[i].effectiveAlias != effective {
        assert resolved[i] in resolved;
      }
      var resource := Load(registry, byAlias[effective]);
      if resource.Some? {
        resolved := resolved + [Resolved(effective, byAlias[effective], resource.value)];
      }
      todo := todo - {effective};
    }
  }

  predicate Listed(r: Resolved, byAlias: map<string, Binding>, keys: set<string>, registry: Registry) {
    r.effectiveAlias in keys && r.effectiveAlias in byAlias && byAlias[r.effectiveAlias] == r.binding
    && Load(registry, r.binding) == Some(r.resource)
  }

  /** Resolving one alias agrees with the listing. */
  method Resolve(explicit: seq<Binding>, reserved: set<string>, scope: Option<nat>, registry: Registry, alias: string)
    returns (r: Option<Resolved>)
    requires Snapshot(explicit, scope)
    ensures forall x: Resolved :: x.effectiveAlias == alias ==>
              (r == Some(x) <==> IsCallable(x, explicit, reserved, scope, registry))
    ensures r.Some? ==> r.value.effectiveAlias == alias
  {
    var byAlias := EffectiveBindings(explicit, reserved, scope);
    if alias !in byAlias {
      return None;
    }
    var resource := Load(registry, byAlias[alias]);
    if resource.None? {
      return None;
    }
    return Some(Resolved(alias, byAlias[alias], resource.value));
  }

  /** A model identity is callable exactly when some effective alias of the scope names it. */
  method ResolveModelId(explicit: seq<Binding>, reserved: set<string>, scope: Option<nat>, registry: Registry, modelId: nat)
    returns (r: Option<Resource>)
    requires Snapshot(explicit, scope)
    ensures r.Some? <==> exists x: Resolved :: IsCallable(x, explicit, reserved, scope, registry)
                           && x.binding.kind.ModelKind? && x.binding.resourceId == modelId
    ensures r.Some? ==> At(registry.models, modelId) == r
  {
    r := None;
    if exists b :: b in explicit && b.kind.ModelKind? && b.resourceId == modelId {
      r := At(registry.models, modelId);
    }
    var bindings := Elements(explicit);
    if r.Some? {
      var b :| b in explicit && b.kind.ModelKind? && b.resourceId == modelId;
      EveryBindingOnce(bindings, reserved, scope, b);
      ghost var e := EffectiveOf(b, bindings, reserved, scope);
      assert e in Namespace(bindings, reserved, scope);
      assert IsCallable(Resolved(e, b, r.value), explicit, reserved, scope, registry);
    }
    forall x: Resolved | IsCallable(x, explicit, reserved, scope, registry)
                           && x.binding.kind.ModelKind? && x.binding.resourceId == modelId
      ensures r.Some?
    {
      HowAliasesAreChosen(bindings, reserved, scope, x.effectiveAlias);
      assert x.binding in explicit;
    }
  }
}
