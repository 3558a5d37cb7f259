/**
  The preflight of the router revision migration: binds every router's candidates, default and
  strategy configs, and refuses the migration unless all of them bind and every grant's team can
  reach every identity the router refers to.
*/
module RouterPreflight {
  import opened Outcomes
  import opened Json
  import opened RouterMigration
  import opened RouterBinding
  import AliasNames

  datatype Router = Router(
    id: nat, teamId: Option<nat>, candidates: seq<Json>, defaultModel: string,
    strategy: string, config: Fields, shadow: Option<string>)

  datatype Grant = Grant(id: nat, routerId: nat, teamId: nat)

  datatype Revision = Revision(routerId: nat, candidates: seq<Json>, defaultId: nat, config: Fields)

  type Space = map<string, Row>

  ghost predicate ModelsOnly(space: Space) {
    forall e :: e in space ==> space[e].target.ToModel?
  }

  lemma NamespaceHoldsModels(rows: seq<Row>, scope: Option<nat>)
    ensures ModelsOnly(ModelNamespace(rows, scope))
  {
    hide AliasNames.Allocation, LocalRows, GlobalRows;
    forall e | e in ModelNamespace(rows, scope) ensures ModelNamespace(rows, scope)[e].target.ToModel? {
      var _ := AliasNames.AllocationEntry(LocalRows(rows, scope), GlobalRows(rows), Reserved(rows, scope), e);
    }
  }

  ghost function ModelId(space: Space, name: string): nat
    requires ModelsOnly(space) && name in space
  {
    space[name].target.modelId
  }

  ghost function Identities(space: Space): Ids
    requires ModelsOnly(space)
  {
    map e | e in space :: ModelId(space, e)
  }

  ghost function Reachable(space: Space): set<string>
    requires ModelsOnly(space)
  {
    set e | e in space :: IdText(ModelId(space, e))
  }

  /** The join takes a model's team from the model row, so all rows of one model agree on it. */
  ghost function NonGlobal(space: Space): set<string>
    requires ModelsOnly(space)
  {
    set e | e in space && space[e].target.modelTeam.Some? :: IdText(ModelId(space, e))
  }

  // ---- Candidates ----

  predicate CandidateKnown(candidate: Json, team: Option<nat>, space: Space) {
    var name := NameOf(candidate, "model_name");
    && name.Some? && name.value in space && space[name.value].target.ToModel?
    && (team.None? ==> space[name.value].target.modelTeam.None?)
  }

  /** Where a candidate's model comes from, seen from the router's team. */
  function Origin(team: Option<nat>, modelTeam: Option<nat>): string {
    if modelTeam.None? then "global" else if modelTeam == team then "own" else "extended"
  }

  function SourceTeam(target: Target): Json
    requires target.ToModel?
  {
    if target.originTeam.Some? then Str(IdText(target.originTeam.value))
    else if target.modelTeam.Some? then Str(IdText(target.modelTeam.value))
    else Null
  }

  function BindCandidate(candidate: Json, team: Option<nat>, space: Space): Json
    requires CandidateKnown(candidate, team, space)
  {
    var target := space[NameOf(candidate, "model_name").value].target;
    var withId := Put(candidate.fields, "model_id", Str(IdText(target.modelId)));
    var withOrigin := Put(withId, "model_origin", Str(Origin(team, target.modelTeam)));
    Obj(Put(withOrigin, "source_team_id", SourceTeam(target)))
  }

  ghost predicate CandidateBinds(candidate: Json, bound: Json, aliases: Ids) {
    var name := NameOf(candidate, "model_name");
    && Known(name, aliases) && bound.Obj?
    && Get(bound.fields, "model_id") == Some(Str(IdText(aliases[name.value])))
    && Get(bound.fields, "model_name") == Get(candidate.fields, "model_name")
    && forall k :: k !in {"model_id", "model_origin", "source_team_id"} ==> Get(bound.fields, k) == Get(candidate.fields, k)
  }

  lemma CandidateMeaning(candidate: Json, team: Option<nat>, space: Space)
    requires ModelsOnly(space) && CandidateKnown(candidate, team, space)
    ensures CandidateBinds(candidate, BindCandidate(candidate, team, space), Identities(space))
  {
    hide Get, Put, IdText;
  }

  function Named(candidates: seq<Json>): set<string> {
    set c | c in candidates && NameOf(c, "model_name").Some? :: NameOf(c, "model_name").value
  }

  function CandidateIds(candidates: seq<Json>, aliases: Ids): Ids {
    map n | n in aliases && n in Named(candidates) :: aliases[n]
  }

  ghost predicate CandidatesKnown(router: Router, space: Space) {
    forall i :: 0 <= i < |router.candidates| ==> CandidateKnown(router.candidates[i], router.teamId, space)
  }

  ghost predicate CandidatesBind(candidates: seq<Json>, bound: seq<Json>, aliases: Ids) {
    |bound| == |candidates| && forall i :: 0 <= i < |candidates| ==> CandidateBinds(candidates[i], bound[i], aliases)
  }

  /**
    Where the candidate's model comes from, as written into the bound candidate: the platform's, the
    router's own team's, or another team's; and the team it was first made in, if that is on record.
  */
  ghost predicate Traced(bound: Json, team: Option<nat>, target: Target) {
    && bound.Obj? && target.ToModel?
    && (match target.modelTeam
        case None => Get(bound.fields, "model_origin") == Some(Str("global"))
        case Some(owner) => Get(bound.fields, "model_origin") == Some(Str(if Some(owner) == team then "own" else "extended")))
    && (match (target.originTeam, target.modelTeam)
        case (Some(first), _) => Get(bound.fields, "source_team_id") == Some(Str(IdText(first)))
        case (None, Some(owner)) => Get(bound.fields, "source_team_id") == Some(Str(IdText(owner)))
        case (None, None) => Get(bound.fields, "source_team_id") == Some(Null))
  }

  ghost predicate CandidatesTraced(candidates: seq<Json>, bound: seq<Json>, team: Option<nat>, space: Space) {
    |bound| == |candidates| && forall i :: 0 <= i < |candidates| ==>
      var name := NameOf(candidates[i], "model_name");
      name.Some? && name.value in space && Traced(bound[i], team, space[name.value].target)
  }

  lemma BoundCandidateIsTraced(candidate: Json, team: Option<nat>, space: Space)
    requires CandidateKnown(candidate, team, space)
    ensures Traced(BindCandidate(candidate, team, space), team, space[NameOf(candidate, "model_name").value].target)
  {
    hide Get, Put, IdText;
  }

  lemma NamedGrows(candidates: seq<Json>, n: nat)
    requires n < |candidates|
    ensures var name := NameOf(candidates[n], "model_name");
            Named(candidates[..n + 1]) == Named(candidates[..n]) + if name.Some? then {name.value} else {}
  {
    hide NameOf;
    assert candidates[..n + 1] == candidates[..n] + [candidates[n]];
  }

  lemma NobodyNamed(candidates: seq<Json>)
    requires candidates == []
    ensures Named(candidates) == {}
  {
  }

  method BindCandidates(router: Router, space: Space) returns (bound: seq<Json>, ids: Ids, problems: seq<Problem>)
    requires ModelsOnly(space)
    ensures problems == [] <==> CandidatesKnown(router, space)
    ensures problems == [] <==>
              forall i :: 0 <= i < |router.candidates| ==>
                router.candidates[i].Obj? &&
                match Get(router.candidates[i].fields, "model_name")
                case Some(Str(name)) => name in space && (router.teamId.None? ==> space[name].target.modelTeam.None?)
                case _ => false
    ensures problems == [] ==> CandidatesBind(router.candidates, bound, Identities(space))
    ensures problems == [] ==> CandidatesTraced(router.candidates, bound, router.teamId, space)
    ensures problems == [] ==> ids == CandidateIds(router.candidates, Identities(space))
  {
    hide NameOf, Named, CandidateBinds, BindCandidate, Traced;
    bound, ids, problems := [], map[], [];
    NobodyNamed(router.candidates[..0]);
    for n := 0 to |router.candidates|
      invariant problems == [] <==>
                  forall i :: 0 <= i < n ==> CandidateKnown(router.candidates[i], router.teamId, space)
      invariant problems == [] ==> CandidatesBind(router.candidates[..n], bound, Identities(space))
      invariant problems == [] ==> CandidatesTraced(router.candidates[..n], bound, router.teamId, space)
      invariant problems == [] ==> ids == CandidateIds(router.candidates[..n], Identities(space))
    {
      var candidate := router.candidates[n];
      NamedGrows(router.candidates, n);
      if CandidateKnown(candidate, router.teamId, space) {
        CandidateMeaning(candidate, router.teamId, space);
        BoundCandidateIsTraced(candidate, router.teamId, space);
        var name := NameOf(candidate, "model_name").value;
        ids := ids[name := space[name].target.modelId];
        bound := bound + [BindCandidate(candidate, router.teamId, space)];
      } else {
        problems := problems + [Unresolvable("candidates")];
      }
    }
    assert router.candidates[..|router.candidates|] == router.candidates;
    forall i | 0 <= i < |router.candidates| { KnownCandidateIs(router.candidates[i], router.teamId, space); }
  }

  lemma KnownCandidateIs(candidate: Json, team: Option<nat>, space: Space)
    requires ModelsOnly(space)
    ensures CandidateKnown(candidate, team, space) <==>
              candidate.Obj? &&
              match Get(candidate.fields, "model_name")
              case Some(Str(name)) => name in space && (team.None? ==> space[name].target.modelTeam.None?)
              case _ => false
  {
    hide Get;
  }

  // ---- Active and shadow configs ----

  predicate HasShadow(router: Router) { router.shadow.Some? && router.shadow.value != "" }

  /** `config.get("shadow", {})`. */
  function ShadowConfig(config: Fields): Option<Fields> {
    match Get(config, "shadow")
    case None => Some([])
    case Some(Obj(fields)) => Some(fields)
    case Some(_) => None
  }

  function BindConfig(router: Router, aliases: Ids, ids: Ids): (Fields, seq<Problem>) {
    var (active, problems) := BindStrategy(router.strategy, router.config, aliases, ids, "active");
    if !HasShadow(router) then (active, problems)
    else if ShadowConfig(router.config).None? then (active, problems + [NotAnObject("shadow")])
    else
      var (shadow, more) := BindStrategy(router.shadow.value, ShadowConfig(router.config).value, aliases, ids, "shadow");
      (Put(active, "shadow", Obj(shadow)), problems + more)
  }

  /** A shadow strategy, if one is named, is bound like the active one, on its own config; otherwise that is left alone. */
  lemma ShadowIsBound(router: Router, inner: Fields, aliases: Ids, ids: Ids)
    requires Get(router.config, "shadow") == Some(Obj(inner)) || (Get(router.config, "shadow").None? && inner == [])
    ensures var (bound, problems) := BindConfig(router, aliases, ids);
            var (active, before) := BindStrategy(router.strategy, router.config, aliases, ids, "active");
            match router.shadow
            case None => bound == active && problems == before && Get(bound, "shadow") == Get(router.config, "shadow")
            case Some(shadow) =>
              if shadow == "" then bound == active && problems == before
              else
                var (nested, more) := BindStrategy(shadow, inner, aliases, ids, "shadow");
                && problems == before + more && Get(bound, "shadow") == Some(Obj(nested))
                && forall k :: k != "shadow" ==> Get(bound, k) == Get(active, k)
  {
    BindStrategyMeaning(router.strategy, router.config, aliases, ids, "active");
    hide Get, Put, BindStrategy, Binds, Bindable, Untouched;
  }

  predicate ConfigBindable(router: Router, aliases: Ids, ids: Ids) {
    && Bindable(router.strategy, router.config, aliases, ids)
    && (HasShadow(router) ==>
          && ShadowConfig(router.config).Some?
          && Bindable(router.shadow.value, ShadowConfig(router.config).value, aliases, ids))
  }

  ghost predicate ConfigBinds(router: Router, bound: Fields, aliases: Ids, ids: Ids) {
    && Binds(router.strategy, router.config, bound, aliases, ids)
    && (HasShadow(router) ==>
          && ShadowConfig(router.config).Some? && Get(bound, "shadow").Some? && Get(bound, "shadow").value.Obj?
          && Binds(router.shadow.value, ShadowConfig(router.config).value, Get(bound, "shadow").value.fields, aliases, ids))
  }

  lemma BindsIgnoresShadow(strategy: string, config: Fields, bound: Fields, bound': Fields, aliases: Ids, ids: Ids)
    requires Binds(strategy, config, bound, aliases, ids)
    requires forall k :: k != "shadow" ==> Get(bound', k) == Get(bound, k)
    ensures Binds(strategy, config, bound', aliases, ids)
  {
    hide Get, Escalation, RouteItems, RoutesBind, Nodes, IdText;
  }

  lemma ConfigMeaning(router: Router, aliases: Ids, ids: Ids)
    ensures var (bound, problems) := BindConfig(router, aliases, ids);
            && (problems == [] <==> ConfigBindable(router, aliases, ids))
            && (problems == [] ==> ConfigBinds(router, bound, aliases, ids))
  {
    hide Get, Put, BindStrategy, Binds, Bindable;
    BindStrategyMeaning(router.strategy, router.config, aliases, ids, "active");
    var (active, problems) := BindStrategy(router.strategy, router.config, aliases, ids, "active");
    if HasShadow(router) && ShadowConfig(router.config).Some? {
      BindStrategyMeaning(router.shadow.value, ShadowConfig(router.config).value, aliases, ids, "shadow");
      if problems == [] {
        BindsIgnoresShadow(router.strategy, router.config, active, BindConfig(router, aliases, ids).0, aliases, ids);
      }
    }
  }

  /** Every identity the binding wrote, active or shadow, at any depth. */
  function WrittenIds(router: Router, bound: Fields): set<string> {
    BoundIds(router.strategy, bound)
    + (if !HasShadow(router) then {}
       else match Get(bound, "shadow")
         case Some(Obj(fields)) => BoundIds(router.shadow.value, fields)
         case _ => {})
  }

  lemma WrittenIdsAreFound(router: Router, bound: Fields, aliases: Ids, ids: Ids)
    requires ConfigBinds(router, bound, aliases, ids)
    ensures WrittenIds(router, bound) <= ConfigModelIds(Obj(bound))
  {
    hide Binds, BoundIds, ConfigModelIds, Get;
    BoundIdsAreFound(router.strategy, router.config, bound, aliases, ids);
    if HasShadow(router) {
      BoundIdsAreFound(router.shadow.value, ShadowConfig(router.config).value, Get(bound, "shadow").value.fields, aliases, ids);
      FieldIds(bound, "shadow");
      assert !EndsWith("shadow", "_model_id");
    }
  }

  // ---- The preflight ----

  function Texts(ids: Ids): set<string> { set n | n in ids :: IdText(ids[n]) }

  function Referenced(ids: Ids, bound: Fields): set<string> { Texts(ids) + ConfigModelIds(Obj(bound)) }

  /** Every team granted the router can reach every referenced identity under its own namespace. */
  ghost predicate GrantsReach(rows: seq<Row>, routerId: nat, referenced: set<string>, grants: seq<Grant>) {
    forall i :: 0 <= i < |grants| && grants[i].routerId == routerId ==> TeamReaches(rows, grants[i].teamId, referenced)
  }

  ghost predicate TeamReaches(rows: seq<Row>, team: nat, referenced: set<string>) {
    var space := ModelNamespace(rows, Some(team));
    ModelsOnly(space) && referenced <= Reachable(space)
  }

  /** What the preflight demands of one router. */
  ghost predicate Migratable(rows: seq<Row>, router: Router, grants: seq<Grant>) {
    var space := ModelNamespace(rows, router.teamId);
    && ModelsOnly(space)
    && CandidatesKnown(router, space)
    && var aliases := Identities(space);
       var ids := CandidateIds(router.candidates, aliases);
       var referenced := Referenced(ids, BindConfig(router, aliases, ids).0);
       && router.defaultModel in ids
       && ConfigBindable(router, aliases, ids)
       && (router.teamId.None? ==> referenced !! NonGlobal(space))
       && GrantsReach(rows, router.id, referenced, grants)
  }

  /** Every name of the router carries the identity `aliases` gives it, in candidates, default and configs. */
  ghost predicate Means(aliases: Ids, router: Router, revision: Revision) {
    var ids := CandidateIds(router.candidates, aliases);
    && CandidatesBind(router.candidates, revision.candidates, aliases)
    && router.defaultModel in ids && revision.defaultId == ids[router.defaultModel]
    && ConfigBinds(router, revision.config, aliases, ids)
  }

  function Written(aliases: Ids, router: Router, revision: Revision): set<string> {
    Texts(CandidateIds(router.candidates, aliases)) + WrittenIds(router, revision.config)
  }

  /** What the revision written for a router means, by the migration's own namespace. */
  ghost predicate Preserves(rows: seq<Row>, router: Router, grants: seq<Grant>, revision: Revision) {
    var space := ModelNamespace(rows, router.teamId);
    && ModelsOnly(space)
    && Means(Identities(space), router, revision)
    && CandidatesTraced(router.candidates, revision.candidates, router.teamId, space)
    && (router.teamId.None? ==>
          forall e :: e in space && space[e].target.modelTeam.Some? ==>
            IdText(ModelId(space, e)) !in Written(Identities(space), router, revision))
    && GrantsReach(rows, router.id, Written(Identities(space), router, revision), grants)
  }

  // ---- What it means to the resolver ----

  /** The models the resolver answers with, by alias. */
  ghost function ResolverIds(registry: seq<Row>, scope: Option<nat>): Ids {
    var names := ResolverNamespace(registry, scope);
    map e | e in names && names[e].kind.ModelKind? :: names[e].resourceId
  }

  /** The identities the resolver loads in a scope, under whatever alias. */
  function CallableIds(registry: seq<Row>, scope: Option<nat>): set<string> {
    set b | b in Bindings(registry, scope) && b.kind.ModelKind? :: IdText(b.resourceId)
  }

  /** To the resolver the revision means what the names meant, and every granted team may call what it refers to. */
  ghost predicate PreservesForResolver(registry: seq<Row>, router: Router, grants: seq<Grant>, revision: Revision) {
    var aliases := ResolverIds(registry, router.teamId);
    && Means(aliases, router, revision)
    && forall i :: 0 <= i < |grants| && grants[i].routerId == router.id ==>
         Written(aliases, router, revision) <= CallableIds(registry, Some(grants[i].teamId))
  }

  /** The two namespaces give every name the same identity exactly when no router bears a platform model's name. */
  lemma IdentitiesAgreeIff(registry: seq<Row>, scope: Option<nat>)
    requires UniqueSlots(registry)
    ensures ModelsOnly(ModelNamespace(AliasRows(registry), scope))
    ensures Identities(ModelNamespace(AliasRows(registry), scope)) == ResolverIds(registry, scope)
            <==> RoutersApart(registry, scope)
  {
    hide AliasRows, ModelNamespace, ResolverNamespace, UniqueSlots, RouterTakes;
    NamespaceHoldsModels(AliasRows(registry), scope);
    var mine, theirs := ModelNamespace(AliasRows(registry), scope), ResolverNamespace(registry, scope);
    if RoutersApart(registry, scope) {
      forall e ensures e in Identities(mine) <==> e in ResolverIds(registry, scope) {
        if e in mine { assert !RouterTakes(registry, scope, e); EntryAgrees(registry, scope, e); }
        if e in theirs && theirs[e].kind.ModelKind? { ModelEntryIsMine(registry, scope, e); }
      }
      forall e | e in Identities(mine) ensures Identities(mine)[e] == ResolverIds(registry, scope)[e] {
        EntryAgrees(registry, scope, e);
      }
    } else {
      var e :| RouterTakes(registry, scope, e);
      TakenNameIsThere(registry, scope, e);
      NameAgreesIff(registry, scope, e);
      assert e in Identities(mine) && e !in ResolverIds(registry, scope);
    }
  }

  /** What a team can reach by identity does not depend on aliases, so here the two never differ. */
  lemma ReachableIsCallable(registry: seq<Row>, scope: Option<nat>)
    requires UniqueSlots(registry)
    ensures ModelsOnly(ModelNamespace(AliasRows(registry), scope))
    ensures Reachable(ModelNamespace(AliasRows(registry), scope)) == CallableIds(registry, scope)
  {
    NamespaceHoldsModels(AliasRows(registry), scope);
    hide AliasNames.Allocation, LocalRows, GlobalRows, AliasRows, Reserved, UniqueSlots, IdText;
    var kept := AliasRows(registry);
    var l, g, reserved := LocalRows(kept, scope), GlobalRows(kept), Reserved(kept, scope);
    var space := ModelNamespace(kept, scope);
    SameSidesKept(registry, scope);
    AliasNames.AllocationBinds(l, g, reserved);
    forall id | id in Reachable(space) ensures id in CallableIds(registry, scope) {
      var e :| e in space && IdText(ModelId(space, e)) == id;
      var a := AliasNames.AllocationEntry(l, g, reserved, e);
      assert BindingOf(space[e]) in Bindings(registry, scope);
    }
    forall id | id in CallableIds(registry, scope) ensures id in Reachable(space) {
      var b :| b in Bindings(registry, scope) && b.kind.ModelKind? && IdText(b.resourceId) == id;
      var i := RowBehind(registry, scope, b);
      VisibleModelIsNamed(registry, scope, i);
      var e :| e in space && space[e] == registry[i];
      assert IdText(ModelId(space, e)) == id;
    }
  }

  lemma VisibleModelIsNamed(registry: seq<Row>, scope: Option<nat>, i: nat)
    requires UniqueSlots(registry) && i < |registry| && registry[i].target.ToModel?
    requires registry[i].teamId == scope || registry[i].teamId.None?
    ensures exists e :: e in ModelNamespace(AliasRows(registry), scope)
                        && ModelNamespace(AliasRows(registry), scope)[e] == registry[i]
  {
    hide AliasNames.Allocation, LocalRows, GlobalRows, AliasRows, Reserved, UniqueSlots, AliasNames.Effective;
    var kept, row := AliasRows(registry), registry[i];
    var l, g, reserved := LocalRows(kept, scope), GlobalRows(kept), Reserved(kept, scope);
    SameSidesKept(registry, scope);
    AliasNames.AllocationBinds(l, g, reserved);
    if row.teamId.None? {
      GlobalRowsAre(registry, row.alias);
      OneRowPerSlot(registry, i, g[row.alias]);
      var e := AliasNames.Effective(row.alias, l.Keys + reserved, g.Keys);
      assert ModelNamespace(kept, scope)[e] == row;
    } else {
      LocalRowsAre(registry, scope, row.alias);
      OneRowPerSlot(registry, i, l[row.alias]);
      assert ModelNamespace(kept, scope)[row.alias] == row;
    }
  }

  /** A passing preflight, read by the resolver. */
  lemma PreservedForResolver(registry: seq<Row>, router: Router, grants: seq<Grant>, revision: Revision)
    requires UniqueSlots(registry) && RoutersApart(registry, router.teamId)
    requires Preserves(AliasRows(registry), router, grants, revision)
    ensures PreservesForResolver(registry, router, grants, revision)
  {
    hide AliasRows, ModelNamespace, UniqueSlots, RoutersApart, ResolverIds, Means, CallableIds, Written, IdText;
    IdentitiesAgreeIff(registry, router.teamId);
    forall i | 0 <= i < |grants| && grants[i].routerId == router.id
      ensures Written(ResolverIds(registry, router.teamId), router, revision) <= CallableIds(registry, Some(grants[i].teamId))
    {
      ReachableIsCallable(registry, Some(grants[i].teamId));
      assert TeamReaches(AliasRows(registry), grants[i].teamId,
                         Written(Identities(ModelNamespace(AliasRows(registry), router.teamId)), router, revision));
    }
  }

  // ---- The preflight itself ----

  method CheckGrants(rows: seq<Row>, router: Router, referenced: set<string>, grants: seq<Grant>)
    returns (problems: seq<Problem>)
    requires UniqueSlots(rows)
    ensures problems == [] <==> GrantsReach(rows, router.id, referenced, grants)
  {
    hide UniqueSlots, ModelNamespace, IdText;
    problems := [];
    for n := 0 to |grants|
      invariant problems == [] <==> forall i :: 0 <= i < n && grants[i].routerId == router.id
                                                ==> TeamReaches(rows, grants[i].teamId, referenced)
    {
      if grants[n].routerId == router.id {
        var target := EffectiveModels(rows, Some(grants[n].teamId));
        NamespaceHoldsModels(rows, Some(grants[n].teamId));
        var accessible := set e | e in target :: IdText(target[e].target.modelId);
        assert accessible == Reachable(target);
        if !(referenced <= accessible) { problems := problems + [Unreachable(grants[n].id)]; }
      }
    }
  }

  lemma SmallerReach(rows: seq<Row>, routerId: nat, written: set<string>, referenced: set<string>, grants: seq<Grant>)
    requires written <= referenced && GrantsReach(rows, routerId, referenced, grants)
    ensures GrantsReach(rows, routerId, written, grants)
  {
  }

  method MigrateRouter(rows: seq<Row>, router: Router, grants: seq<Grant>) returns (revision: Revision, problems: seq<Problem>)
    requires UniqueSlots(rows)
    ensures problems == [] <==> Migratable(rows, router, grants)
    ensures problems == [] ==> Preserves(rows, router, grants, revision)
  {
    hide UniqueSlots, ModelNamespace, CandidatesKnown, CandidatesBind, CandidatesTraced, ConfigBindable, ConfigBinds, BindConfig, GrantsReach,
      ConfigModelIds, WrittenIds, NonGlobal, Named;
    var space := EffectiveModels(rows, router.teamId);
    NamespaceHoldsModels(rows, router.teamId);
    var candidates, ids, unknown := BindCandidates(router, space);
    problems := unknown;
    if router.defaultModel !in ids { problems := problems + [NotACandidate("default_model")]; }
    var aliases := map e | e in space :: space[e].target.modelId;
    assert aliases == Identities(space);
    var (config, unbound) := BindConfig(router, aliases, ids);
    problems := problems + unbound;
    ConfigMeaning(router, aliases, ids);
    var referenced := Referenced(ids, config);
    var nonGlobal := set e | e in space && space[e].target.modelTeam.Some? :: IdText(space[e].target.modelId);
    NonGlobalIs(space, nonGlobal);
    if router.teamId.None? && !(referenced !! nonGlobal) { problems := problems + [NotGlobal("dependencies")]; }
    var missing := CheckGrants(rows, router, referenced, grants);
    problems := problems + missing;
    revision := Revision(router.id, candidates, if router.defaultModel in ids then ids[router.defaultModel] else 0, config);
    if problems == [] {
      WrittenIdsAreFound(router, config, aliases, ids);
      SmallerReach(rows, router.id, Written(aliases, router, revision), referenced, grants);
    }
  }

  lemma NonGlobalIs(space: Space, ids: set<string>)
    requires ModelsOnly(space)
    requires ids == set e | e in space && space[e].target.modelTeam.Some? :: IdText(space[e].target.modelId)
    ensures ids == NonGlobal(space)
  {
    hide IdText;
  }

  /**
    The preflight refuses exactly when some router is not migratable; when it passes, every revision
    means what the names of its router meant: to the migration always, and to the resolver wherever
    no router in sight of the owner bears a name the migration gives to a platform model.
  */
  method Preflight(registry: seq<Row>, routers: seq<Router>, grants: seq<Grant>)
    returns (payload: seq<Revision>, problems: seq<Problem>)
    requires UniqueSlots(registry)
    ensures problems == [] <==> forall i :: 0 <= i < |routers| ==> Migratable(AliasRows(registry), routers[i], grants)
    ensures problems == [] ==> |payload| == |routers|
    ensures problems == [] ==>
              forall i :: 0 <= i < |routers| ==> Preserves(AliasRows(registry), routers[i], grants, payload[i])
    ensures problems == [] ==>
              forall i :: 0 <= i < |routers| && RoutersApart(registry, routers[i].teamId) ==>
                PreservesForResolver(registry, routers[i], grants, payload[i])
  {
    hide UniqueSlots, AliasRows, Migratable, Preserves, RoutersApart, PreservesForResolver;
    var rows := AliasRows(registry);
    AliasRowsAre(registry);
    payload, problems := [], [];
    for n := 0 to |routers|
      invariant |payload| == n
      invariant problems == [] <==> forall i :: 0 <= i < n ==> Migratable(rows, routers[i], grants)
      invariant problems == [] ==> forall i :: 0 <= i < n ==> Preserves(rows, routers[i], grants, payload[i])
    {
      var revision, more := MigrateRouter(rows, routers[n], grants);
      payload, problems := payload + [revision], problems + more;
    }
    if problems == [] {
      forall i | 0 <= i < |routers| && RoutersApart(registry, routers[i].teamId)
        ensures PreservesForResolver(registry, routers[i], grants, payload[i])
      {
        PreservedForResolver(registry, routers[i], grants, payload[i]);
      }
    }
  }
}
