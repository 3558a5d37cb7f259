/**
  Binding of router strategy configs and candidates to model identities, and the preflight
  that refuses the migration unless every reference binds and every grant can reach it.
  Identities are numbers; `IdText` is their text inside a JSON config.
*/
module RouterBinding {
  import opened Outcomes
  import opened Json
  import AliasNames

  type Fields = seq<(string, Json)>
  type Ids = map<string, nat>

  datatype Problem =
    | Unresolvable(path: string)
    | NotACandidate(path: string)
    | NotAnObject(path: string)
    | NotIterable(path: string)
    | NotGlobal(path: string)
    | Unreachable(grantId: nat)

  function IdText(id: nat): (s: string)
    ensures s != ""
  {
    AliasNames.Decimal(id)
  }

  // ---- JSON objects as dictionaries ----

  function Get(fields: Fields, key: string): (r: Option<Json>)
    ensures r.Some? ==> (key, r.value) in fields
  {
    if fields == [] then None
    else if fields[0].0 == key then assert fields[0] == (key, fields[0].1); Some(fields[0].1)
    else Get(fields[1..], key)
  }

  function Put(fields: Fields, key: string, value: Json): (r: Fields)
    ensures forall k :: Get(r, k) == if k == key then Some(value) else Get(fields, k)
  {
    if fields == [] then [(key, value)]
    else if fields[0].0 == key then
      var r := [(key, value)] + fields[1..];
      assert r[1..] == fields[1..];
      r
    else
      var rest := Put(fields[1..], key, value);
      var r := [fields[0]] + rest;
      assert r[1..] == rest;
      r
  }

  function TextAt(fields: Fields, key: string): Option<string> {
    match Get(fields, key)
    case Some(Str(s)) => Some(s)
    case _ => None
  }

  function NameOf(j: Json, key: string): Option<string> {
    if j.Obj? then TextAt(j.fields, key) else None
  }

  // ---- Binding one strategy config ----

  /** `config.get("routes", [])` as an iteration; the members of text or of an object are never routes. */
  function RouteItems(config: Fields): Option<seq<Json>> {
    match Get(config, "routes")
    case None => Some([])
    case Some(Arr(items)) => Some(items)
    case Some(Str(s)) => Some(seq(|s|, _ => Null))
    case Some(Obj(fields)) => Some(seq(|fields|, _ => Null))
    case Some(_) => None
  }

  function BindRoutes(routes: seq<Json>, candidates: Ids, path: string): (seq<Json>, seq<Problem>) {
    if routes == [] then ([], [])
    else
      var (rest, problems) := BindRoutes(routes[1..], candidates, path);
      var target := NameOf(routes[0], "target_model");
      if target.None? || target.value !in candidates then ([routes[0]] + rest, [NotACandidate(path)] + problems)
      else
        var bound := Put(routes[0].fields, "target_model_id", Str(IdText(candidates[target.value])));
        ([Obj(bound)] + rest, problems)
  }

  function BindName(config: Fields, nameKey: string, idKey: string, aliases: Ids, path: string): (Fields, seq<Problem>) {
    var name := TextAt(config, nameKey);
    if name.None? || name.value !in aliases then (config, [Unresolvable(path)])
    else (Put(config, idKey, Str(IdText(aliases[name.value]))), [])
  }

  /** The nested config of a hybrid strategy: absent means empty, and only an object is descended into. */
  function Escalation(config: Fields): (r: Option<(string, Fields)>)
    ensures r.Some? ==> Nodes(Obj(r.value.1)) < Nodes(Obj(config))
  {
    var strategy := TextAt(config, "escalation_strategy");
    if strategy.None? then None
    else
      FieldIsSmaller(config, "escalation_strategy");
      match Get(config, "escalation")
      case None => Some((strategy.value, []))
      case Some(Obj(fields)) => FieldIsSmaller(config, "escalation"); Some((strategy.value, fields))
      case Some(_) => None
  }

  lemma FieldIsSmaller(fields: Fields, key: string)
    requires Get(fields, key).Some?
    ensures Nodes(Get(fields, key).value) < Nodes(Obj(fields))
    ensures Nodes(Obj([])) < Nodes(Obj(fields))
  {
    var i :| 0 <= i < |fields| && fields[i] == (key, Get(fields, key).value);
    NodesBelowBound(Obj(fields), |fields|, i);
  }

  lemma {:induction false} NodesBelowBound(j: Json, n: nat, i: nat)
    requires i < n <= |Children(j)|
    ensures Nodes(Children(j)[i]) <= NodesBelow(j, n)
  {
    if i < n - 1 { NodesBelowBound(j, n - 1, i); }
  }

  function BindEmbeddings(config: Fields, aliases: Ids, candidates: Ids, path: string): (Fields, seq<Problem>) {
    var (named, problems) := BindName(config, "embedding_model", "embedding_model_id", aliases, path);
    var items := RouteItems(config);
    if items.None? then (named, problems + [NotIterable(path)])
    else
      var (routes, more) := BindRoutes(items.value, candidates, path);
      (Put(named, "routes", Arr(routes)), problems + more)
  }

  function BindStrategy(strategy: string, config: Fields, aliases: Ids, candidates: Ids, path: string)
    : (Fields, seq<Problem>)
    decreases Nodes(Obj(config))
  {
    if strategy == "judge" then BindName(config, "judge_model", "judge_model_id", aliases, path)
    else if strategy == "embeddings" then BindEmbeddings(config, aliases, candidates, path)
    else if strategy == "hybrid" then
      var nested := Escalation(config);
      if nested.None? then (config, [])
      else
        var (bound, problems) := BindStrategy(nested.value.0, nested.value.1, aliases, candidates, path + ".escalation");
        (Put(config, "escalation", Obj(bound)), problems)
    else (config, [])
  }

  // ---- What a binding means ----

  predicate Known(name: Option<string>, ids: Ids) { name.Some? && name.value in ids }

  predicate NameBinds(config: Fields, bound: Fields, nameKey: string, idKey: string, aliases: Ids) {
    var name := TextAt(config, nameKey);
    name.Some? && name.value in aliases && Get(bound, idKey) == Some(Str(IdText(aliases[name.value])))
  }

  ghost predicate RouteBinds(route: Json, bound: Json, candidates: Ids) {
    var target := NameOf(route, "target_model");
    && target.Some? && target.value in candidates && bound.Obj?
    && Get(bound.fields, "target_model_id") == Some(Str(IdText(candidates[target.value])))
    && forall k :: k != "target_model_id" ==> Get(bound.fields, k) == Get(route.fields, k)
  }

  ghost predicate RoutesBind(routes: seq<Json>, bound: seq<Json>, candidates: Ids) {
    |bound| == |routes| && forall i :: 0 <= i < |routes| ==> RouteBinds(routes[i], bound[i], candidates)
  }

  predicate RoutesBindable(routes: seq<Json>, candidates: Ids) {
    forall i :: 0 <= i < |routes| ==> Known(NameOf(routes[i], "target_model"), candidates)
  }

  ghost predicate EmbeddingsBind(config: Fields, bound: Fields, aliases: Ids, candidates: Ids) {
    && NameBinds(config, bound, "embedding_model", "embedding_model_id", aliases)
    && RouteItems(config).Some? && Get(bound, "routes").Some? && Get(bound, "routes").value.Arr?
    && RoutesBind(RouteItems(config).value, Get(bound, "routes").value.items, candidates)
  }

  predicate EmbeddingsBindable(config: Fields, aliases: Ids, candidates: Ids) {
    && Known(TextAt(config, "embedding_model"), aliases)
    && RouteItems(config).Some? && RoutesBindable(RouteItems(config).value, candidates)
  }

  /** Only the keys a binding writes may differ; `shadow` is bound on its own, by the preflight. */
  ghost predicate Untouched(config: Fields, bound: Fields) {
    forall k :: k !in {"judge_model_id", "embedding_model_id", "routes", "escalation", "shadow"} ==>
      Get(bound, k) == Get(config, k)
  }

  /** Every name the strategy refers to carries the identity its namespace resolves it to. */
  ghost predicate Binds(strategy: string, config: Fields, bound: Fields, aliases: Ids, candidates: Ids)
    decreases Nodes(Obj(config))
  {
    && Untouched(config, bound)
    && (strategy == "judge" ==> NameBinds(config, bound, "judge_model", "judge_model_id", aliases))
    && (strategy == "embeddings" ==> EmbeddingsBind(config, bound, aliases, candidates))
    && (strategy == "hybrid" ==>
          if Escalation(config).None? then Get(bound, "escalation") == Get(config, "escalation")
          else
            && Get(bound, "escalation").Some? && Get(bound, "escalation").value.Obj?
            && Binds(Escalation(config).value.0, Escalation(config).value.1,
                     Get(bound, "escalation").value.fields, aliases, candidates))
  }

  /** Every name the strategy refers to exists; checkable before binding. */
  predicate Bindable(strategy: string, config: Fields, aliases: Ids, candidates: Ids)
    decreases Nodes(Obj(config))
  {
    && (strategy == "judge" ==> Known(TextAt(config, "judge_model"), aliases))
    && (strategy == "embeddings" ==> EmbeddingsBindable(config, aliases, candidates))
    && (strategy == "hybrid" && Escalation(config).Some? ==>
          Bindable(Escalation(config).value.0, Escalation(config).value.1, aliases, candidates))
  }

  lemma RouteMeaning(route: Json, candidates: Ids)
    requires Known(NameOf(route, "target_model"), candidates)
    ensures route.Obj?
    ensures var id := candidates[NameOf(route, "target_model").value];
            RouteBinds(route, Obj(Put(route.fields, "target_model_id", Str(IdText(id)))), candidates)
  {
    hide Get, Put;
  }

  lemma {:induction false} RoutesMeaning(routes: seq<Json>, candidates: Ids, path: string)
    ensures var (bound, problems) := BindRoutes(routes, candidates, path);
            && |bound| == |routes|
            && (problems == [] <==> RoutesBindable(routes, candidates))
            && (problems == [] ==> RoutesBind(routes, bound, candidates))
  {
    hide Get, Put, NameOf, RouteBinds, IdText;
    if routes != [] {
      var rest := routes[1..];
      RoutesMeaning(rest, candidates, path);
      var (bound, problems) := BindRoutes(routes, candidates, path);
      var (bound', problems') := BindRoutes(rest, candidates, path);
      assert forall i :: 0 <= i < |rest| ==> routes[i + 1] == rest[i];
      assert bound[1..] == bound';
      assert RoutesBindable(routes, candidates)
        <==> Known(NameOf(routes[0], "target_model"), candidates) && RoutesBindable(rest, candidates) by {
        if RoutesBindable(routes, candidates) {
          forall i | 0 <= i < |rest| ensures Known(NameOf(rest[i], "target_model"), candidates) {
            assert rest[i] == routes[i + 1];
          }
        }
        forall i | 0 < i < |routes| ensures routes[i] == rest[i - 1] {}
      }
      if problems == [] {
        RouteMeaning(routes[0], candidates);
        forall i | 0 <= i < |routes| ensures RouteBinds(routes[i], bound[i], candidates) {
          if i > 0 { assert bound[i] == bound'[i - 1] && routes[i] == rest[i - 1]; }
        }
      }
    }
  }

  lemma EmbeddingsMeaning(config: Fields, aliases: Ids, candidates: Ids, path: string)
    ensures var (bound, problems) := BindEmbeddings(config, aliases, candidates, path);
            && (problems == [] <==> EmbeddingsBindable(config, aliases, candidates))
            && (problems == [] ==> EmbeddingsBind(config, bound, aliases, candidates))
            && forall k :: k !in {"embedding_model_id", "routes"} ==> Get(bound, k) == Get(config, k)
  {
    hide Get, Put, RouteItems, RoutesBind, RoutesBindable, BindRoutes, IdText;
    if RouteItems(config).Some? { RoutesMeaning(RouteItems(config).value, candidates, path); }
  }

  /** Binding succeeds exactly when every name exists, and then it means what the names meant. */
  lemma {:induction false} BindStrategyMeaning(strategy: string, config: Fields, aliases: Ids, candidates: Ids, path: string)
    ensures var (bound, problems) := BindStrategy(strategy, config, aliases, candidates, path);
            && (problems == [] <==> Bindable(strategy, config, aliases, candidates))
            && (problems == [] ==> Binds(strategy, config, bound, aliases, candidates))
            && Untouched(config, bound) && Get(bound, "shadow") == Get(config, "shadow")
    decreases Nodes(Obj(config))
  {
    hide Get, Put, RouteItems, Nodes, BindEmbeddings, EmbeddingsBind, EmbeddingsBindable, Escalation, IdText;
    if strategy == "embeddings" {
      EmbeddingsMeaning(config, aliases, candidates, path);
    } else if strategy == "hybrid" && Escalation(config).Some? {
      var (inner, nested) := Escalation(config).value;
      BindStrategyMeaning(inner, nested, aliases, candidates, path + ".escalation");
    }
  }

  // ---- What a binding reads and writes, entry by entry ----

  /** An entry is the first pair of its key. */
  lemma {:induction false} GetIsTheFirst(fields: Fields, i: nat)
    requires i < |fields| && forall j :: 0 <= j < i ==> fields[j].0 != fields[i].0
    ensures Get(fields, fields[i].0) == Some(fields[i].1)
  {
    if i > 0 { GetIsTheFirst(fields[1..], i - 1); }
  }

  lemma {:induction false} NothingIsThere(fields: Fields, key: string)
    requires forall i :: 0 <= i < |fields| ==> fields[i].0 != key
    ensures Get(fields, key).None?
  {
    if fields != [] { NothingIsThere(fields[1..], key); }
  }

  /** A judge strategy gets the identity of its model, and a problem when the name is missing, no text or unknown. */
  lemma JudgeIsBound(config: Fields, aliases: Ids, candidates: Ids, path: string)
    ensures var (bound, problems) := BindStrategy("judge", config, aliases, candidates, path);
            match Get(config, "judge_model")
            case Some(Str(name)) =>
              if name in aliases then problems == [] && Get(bound, "judge_model_id") == Some(Str(IdText(aliases[name])))
              else problems != []
            case _ => problems != []
  {
    hide Get, Put;
  }

  /** A hybrid strategy is bound where it escalates: one level down, by the strategy named there. */
  lemma HybridIsBound(config: Fields, strategy: string, inner: Fields, aliases: Ids, candidates: Ids, path: string)
    requires Get(config, "escalation_strategy") == Some(Str(strategy))
    requires Get(config, "escalation") == Some(Obj(inner)) || (Get(config, "escalation").None? && inner == [])
    ensures var (bound, problems) := BindStrategy("hybrid", config, aliases, candidates, path);
            var (nested, more) := BindStrategy(strategy, inner, aliases, candidates, path + ".escalation");
            problems == more && Get(bound, "escalation") == Some(Obj(nested))
  {
    hide Get, Put, BindEmbeddings, BindName, Nodes;
  }

  /** Route by route, an embeddings strategy gets the identities of its targets, if all of them are candidates. */
  lemma EmbeddingsAreBound(config: Fields, name: string, routes: seq<Json>, aliases: Ids, candidates: Ids, path: string)
    requires Get(config, "embedding_model") == Some(Str(name)) && name in aliases
    requires Get(config, "routes") == Some(Arr(routes)) || (Get(config, "routes").None? && routes == [])
    ensures var (bound, problems) := BindStrategy("embeddings", config, aliases, candidates, path);
            && (problems == [] <==>
                  forall i :: 0 <= i < |routes| ==>
                    routes[i].Obj? && match Get(routes[i].fields, "target_model")
                                      case Some(Str(target)) => target in candidates
                                      case _ => false)
            && (problems == [] ==>
                  && Get(bound, "embedding_model_id") == Some(Str(IdText(aliases[name])))
                  && Get(bound, "routes").Some? && Get(bound, "routes").value.Arr?
                  && var items := Get(bound, "routes").value.items;
                     && |items| == |routes|
                     && forall i :: 0 <= i < |routes| ==>
                          && items[i].Obj?
                          && Get(items[i].fields, "target_model_id")
                             == Some(Str(IdText(candidates[Get(routes[i].fields, "target_model").value.s]))))
  {
    EmbeddingsMeaning(config, aliases, candidates, path);
    hide Get, Put, BindEmbeddings, IdText;
    assert RouteItems(config) == Some(routes);
  }

  // ---- Finding every bound identity ----

  predicate EndsWith(s: string, suffix: string) {
    |suffix| <= |s| && s[|s| - |suffix|..] == suffix
  }

  predicate Truthy(j: Json) {
    match j
    case Null => false
    case Bool(b) => b
    case Num(n) => n != 0.0
    case Str(s) => s != ""
    case Arr(items) => items != []
    case Obj(fields) => fields != []
  }

  /** The id an `_model_id` entry holds; an entry that is not text stops the source with an error. */
  function IdIn(j: Json): string {
    if j.Str? then j.s else "<not an id>"
  }

  function ConfigModelIds(j: Json): set<string>
    decreases j, |Children(j)| + 1
  {
    IdsBelow(j, |Children(j)|)
  }

  function IdsBelow(j: Json, n: nat): set<string>
    requires n <= |Children(j)|
    decreases j, n
  {
    if n == 0 then {}
    else
      var item := Children(j)[n - 1];
      IdsBelow(j, n - 1)
      + if j.Obj? && EndsWith(j.fields[n - 1].0, "_model_id") && Truthy(item) then {IdIn(item)} else ConfigModelIds(item)
  }

  /**
    The collector takes, at any depth, what stands under a key that ends in `_model_id`, and nothing
    else; an entry there is not looked into, unless it is empty.
  */
  lemma CollectedIff(j: Json, id: string)
    ensures id in ConfigModelIds(j) <==>
              match j
              case Arr(items) => exists i :: 0 <= i < |items| && id in ConfigModelIds(items[i])
              case Obj(fields) =>
                exists i :: 0 <= i < |fields| &&
                  if |fields[i].0| >= 9 && fields[i].0[|fields[i].0| - 9..] == "_model_id" && Truthy(fields[i].1)
                  then id == IdIn(fields[i].1) else id in ConfigModelIds(fields[i].1)
              case _ => false
  {
    CollectsBelow(j);
    CollectedBelow(j, |Children(j)|, id);
    hide ConfigModelIds, IdsBelow, Truthy, IdIn;
    match j
    case Arr(items) => assert Children(j) == items;
    case Obj(fields) => assert forall i :: 0 <= i < |fields| ==> Children(j)[i] == fields[i].1;
    case _ => assert Children(j) == [];
  }

  lemma CollectsBelow(j: Json)
    ensures ConfigModelIds(j) == IdsBelow(j, |Children(j)|)
  {
  }

  lemma {:induction false} CollectedBelow(j: Json, n: nat, id: string)
    requires n <= |Children(j)|
    ensures id in IdsBelow(j, n) <==>
              exists i :: 0 <= i < n &&
                if j.Obj? && EndsWith(j.fields[i].0, "_model_id") && Truthy(Children(j)[i]) then id == IdIn(Children(j)[i])
                else id in ConfigModelIds(Children(j)[i])
  {
    hide ConfigModelIds, EndsWith, Truthy, IdIn;
    if n > 0 { CollectedBelow(j, n - 1, id); }
  }

  /** Every identity the strategy's binding put into a config, at any nesting depth. */
  function BoundIds(strategy: string, bound: Fields): set<string>
    decreases Nodes(Obj(bound))
  {
    if strategy == "judge" then Present(TextAt(bound, "judge_model_id"))
    else if strategy == "embeddings" then
      Present(TextAt(bound, "embedding_model_id"))
      + (match Get(bound, "routes")
         case Some(Arr(items)) => set j | j in items :: IdOr(NameOf(j, "target_model_id"))
         case _ => {})
    else if strategy == "hybrid" && Escalation(bound).Some? then BoundIds(Escalation(bound).value.0, Escalation(bound).value.1)
    else {}
  }

  function Present(name: Option<string>): set<string> { if name.Some? then {name.value} else {} }
  function IdOr(name: Option<string>): string { if name.Some? then name.value else "" }

  lemma {:induction false} IdsBelowContains(j: Json, n: nat, i: nat)
    requires i < n <= |Children(j)|
    ensures (if j.Obj? && EndsWith(j.fields[i].0, "_model_id") && Truthy(Children(j)[i]) then {IdIn(Children(j)[i])}
             else ConfigModelIds(Children(j)[i])) <= IdsBelow(j, n)
  {
    if i < n - 1 { IdsBelowContains(j, n - 1, i); }
  }

  lemma FieldIds(fields: Fields, key: string)
    requires Get(fields, key).Some?
    ensures var item := Get(fields, key).value;
            if EndsWith(key, "_model_id") && Truthy(item) then IdIn(item) in ConfigModelIds(Obj(fields))
            else ConfigModelIds(item) <= ConfigModelIds(Obj(fields))
  {
    var i :| 0 <= i < |fields| && fields[i] == (key, Get(fields, key).value);
    IdsBelowContains(Obj(fields), |fields|, i);
  }

  lemma EscalationOfBound(config: Fields, bound: Fields)
    requires Untouched(config, bound) && Escalation(config).Some?
    requires Get(bound, "escalation").Some? && Get(bound, "escalation").value.Obj?
    ensures Escalation(bound) == Some((Escalation(config).value.0, Get(bound, "escalation").value.fields))
  {
    assert Get(bound, "escalation_strategy") == Get(config, "escalation_strategy");
  }

  lemma RouteIdIsFound(route: Json, bound: Json, candidates: Ids)
    requires RouteBinds(route, bound, candidates)
    ensures IdOr(NameOf(bound, "target_model_id")) in ConfigModelIds(bound)
  {
    hide ConfigModelIds, Get, IdText;
    FieldIds(bound.fields, "target_model_id");
    assert EndsWith("target_model_id", "_model_id");
  }

  lemma ItemIds(list: Json, i: nat)
    requires list.Arr? && i < |list.items|
    ensures ConfigModelIds(list.items[i]) <= ConfigModelIds(list)
  {
    IdsBelowContains(list, |list.items|, i);
  }

  lemma RouteIdsAreFound(bound: Fields, routes: seq<Json>, candidates: Ids)
    requires Get(bound, "routes").Some? && Get(bound, "routes").value.Arr?
    requires RoutesBind(routes, Get(bound, "routes").value.items, candidates)
    ensures forall j :: j in Get(bound, "routes").value.items ==>
              IdOr(NameOf(j, "target_model_id")) in ConfigModelIds(Obj(bound))
  {
    var list := Get(bound, "routes").value;
    FieldIds(bound, "routes");
    hide ConfigModelIds, Get, NameOf, RouteBinds, IdText;
    forall j | j in list.items ensures IdOr(NameOf(j, "target_model_id")) in ConfigModelIds(Obj(bound)) {
      var i :| 0 <= i < |list.items| && list.items[i] == j;
      RouteIdIsFound(routes[i], j, candidates);
      ItemIds(list, i);
    }
  }

  lemma NoEscalationOfBound(config: Fields, bound: Fields)
    requires Untouched(config, bound) && Escalation(config).None?
    requires Get(bound, "escalation") == Get(config, "escalation")
    ensures Escalation(bound).None?
  {
    assert Get(bound, "escalation_strategy") == Get(config, "escalation_strategy");
  }

  /** However deeply a binding put an identity, the collector finds it. */
  lemma {:induction false} BoundIdsAreFound(strategy: string, config: Fields, bound: Fields, aliases: Ids, candidates: Ids)
    requires Binds(strategy, config, bound, aliases, candidates)
    ensures BoundIds(strategy, bound) <= ConfigModelIds(Obj(bound))
    decreases Nodes(Obj(config))
  {
    hide Get, ConfigModelIds, Escalation, Untouched, RouteItems, RoutesBind, Nodes, IdText;
    assert EndsWith("judge_model_id", "_model_id") && EndsWith("embedding_model_id", "_model_id");
    if strategy == "judge" {
      FieldIds(bound, "judge_model_id");
    } else if strategy == "embeddings" {
      FieldIds(bound, "embedding_model_id");
      RouteIdsAreFound(bound, RouteItems(config).value, candidates);
    } else if strategy == "hybrid" {
      if Escalation(config).Some? {
        var (inner, nested) := Escalation(config).value;
        BoundIdsAreFound(inner, nested, Get(bound, "escalation").value.fields, aliases, candidates);
        EscalationOfBound(config, bound);
        FieldIds(bound, "escalation");
        assert !EndsWith("escalation", "_model_id");
      } else {
        NoEscalationOfBound(config, bound);
      }
    }
  }
}
