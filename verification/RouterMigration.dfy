/**
  The data migration that binds router candidates and strategy configs to model identities.
  It carries its own copy of the alias allocator, restricted to model rows, and a preflight
  that refuses the whole migration unless every name binds.
*/
module RouterMigration {
  import opened Outcomes
  import opened AliasNames
  import CallableAliases

  /** A row of the alias registry: unavailable, or bound to a model or to a router. */
  datatype Target = Unavailable | ToModel(modelId: nat, modelTeam: Option<nat>, originTeam: Option<nat>) | ToRouter(routerId: nat)

  datatype Row = Row(id: nat, teamId: Option<nat>, alias: string, target: Target)

  predicate UniqueSlots(rows: seq<Row>) {
    forall i, j :: 0 <= i < j < |rows| ==> rows[i].teamId != rows[j].teamId || rows[i].alias != rows[j].alias
  }

  /** The migration reads every row that names no router. */
  function AliasRows(rows: seq<Row>): seq<Row> {
    if rows == [] then []
    else (if rows[0].target.ToRouter? then [] else [rows[0]]) + AliasRows(rows[1..])
  }

  function Reserved(rows: seq<Row>, scope: Option<nat>): set<string> {
    set r | r in rows && (r.teamId == scope || r.teamId.None?) && r.target.Unavailable? :: r.alias
  }

  function LocalRows(rows: seq<Row>, scope: Option<nat>): (m: map<string, Row>)
    ensures forall a :: a in m ==> m[a] in rows && m[a].alias == a && m[a].target.ToModel? && m[a].teamId == scope
  {
    if rows == [] then map[]
    else
      var rest := LocalRows(rows[..|rows| - 1], scope);
      var row := rows[|rows| - 1];
      if scope.Some? && row.teamId == scope && row.target.ToModel? then rest[row.alias := row] else rest
  }

  function GlobalRows(rows: seq<Row>): (m: map<string, Row>)
    ensures forall a :: a in m ==> m[a] in rows && m[a].alias == a && m[a].target.ToModel? && m[a].teamId.None?
  {
    if rows == [] then map[]
    else
      var rest := GlobalRows(rows[..|rows| - 1]);
      var row := rows[|rows| - 1];
      if row.teamId.None? && row.target.ToModel? then rest[row.alias := row] else rest
  }

  ghost function ModelNamespace(rows: seq<Row>, scope: Option<nat>): map<string, Row> {
    Allocation(LocalRows(rows, scope), GlobalRows(rows), Reserved(rows, scope))
  }

  lemma {:induction false} GlobalRowsAre(rows: seq<Row>, a: string)
    requires UniqueSlots(rows)
    ensures a in GlobalRows(rows) <==>
              exists i :: 0 <= i < |rows| && rows[i].teamId.None? && rows[i].target.ToModel? && rows[i].alias == a
  {
    if rows != [] {
      var before, row := rows[..|rows| - 1], rows[|rows| - 1];
      GlobalRowsAre(before, a);
      if a in GlobalRows(before) {
        var i :| 0 <= i < |before| && before[i].teamId.None? && before[i].target.ToModel? && before[i].alias == a;
        assert rows[i] == before[i];
      }
      if i :| 0 <= i < |rows| && rows[i].teamId.None? && rows[i].target.ToModel? && rows[i].alias == a {
        if i < |before| { assert before[i] == rows[i]; }
      }
    }
  }

  lemma {:induction false} LocalRowsAre(rows: seq<Row>, scope: Option<nat>, a: string)
    requires UniqueSlots(rows)
    ensures a in LocalRows(rows, scope) <==>
              (scope.Some? && exists i :: 0 <= i < |rows| && rows[i].teamId == scope
                                          && rows[i].target.ToModel? && rows[i].alias == a)
  {
    if rows != [] {
      var before, row := rows[..|rows| - 1], rows[|rows| - 1];
      LocalRowsAre(before, scope, a);
      if a in LocalRows(before, scope) {
        var i :| 0 <= i < |before| && before[i].teamId == scope && before[i].target.ToModel? && before[i].alias == a;
        assert rows[i] == before[i];
      }
      if i :| 0 <= i < |rows| && rows[i].teamId == scope && rows[i].target.ToModel? && rows[i].alias == a {
        if i < |before| { assert before[i] == rows[i]; }
      }
    }
  }

  lemma {:induction false} GlobalNotYetPlaced(rows: seq<Row>, n: nat)
    requires UniqueSlots(rows) && n < |rows| && rows[n].teamId.None? && rows[n].target.ToModel?
    ensures rows[n].alias !in GlobalRows(rows[..n])
    ensures rows[n].alias in GlobalRows(rows) && GlobalRows(rows)[rows[n].alias] == rows[n]
  {
    GlobalRowsAre(rows, rows[n].alias);
    GlobalRowsAre(rows[..n], rows[n].alias);
  }

  /** The migration's own allocator. */
  method EffectiveModels(rows: seq<Row>, scope: Option<nat>) returns (result: map<string, Row>)
    requires UniqueSlots(rows)
    ensures result == ModelNamespace(rows, scope)
  {
    hide Stage, Allocation, UniqueSlots, Synthetic, FirstFree;
    var reserved := Reserved(rows, scope);
    result := LocalRows(rows, scope);
    var occupied := result.Keys + reserved;
    ghost var L, G := result, GlobalRows(rows);
    var declaredGlobals := GlobalRows(rows).Keys;
    FirstStage(L, G, reserved);
    assert rows[..0] == [] && GlobalRows([]).Keys == {};
    for n := 0 to |rows|
      invariant Stage(result, occupied, L, G, reserved, GlobalRows(rows[..n]).Keys)
    {
      var row := rows[n];
      assert rows[..n + 1][..n] == rows[..n] && rows[..n + 1][n] == row;
      assert GlobalRows(rows[..n + 1]).Keys
        == GlobalRows(rows[..n]).Keys + (if row.teamId.None? && row.target.ToModel? then {row.alias} else {});
      if row.teamId.None? && row.target.ToModel? {
        GlobalNotYetPlaced(rows, n);
        var alias := row.alias;
        if alias in occupied {
          alias := SearchFree(row.alias, occupied, declaredGlobals);
        }
        NextStage(result, occupied, L, G, reserved, GlobalRows(rows[..n]).Keys, row.alias);
        result := result[alias := row];
        occupied := occupied + {alias};
      }
    }
    assert rows[..|rows|] == rows;
    AllPlaced(result, occupied, L, G, reserved);
  }

  // ---- Agreement with the resolver ----

  function BindingOf(row: Row): CallableAliases.Binding
    requires !row.target.Unavailable?
  {
    match row.target
    case ToModel(modelId, _, _) =>
      CallableAliases.Binding(row.id, row.teamId, row.alias, CallableAliases.ModelKind, modelId, None, None)
    case ToRouter(routerId) =>
      CallableAliases.Binding(row.id, row.teamId, row.alias, CallableAliases.RouterKind, routerId, None, None)
  }

  /** The resolver's snapshot of the same registry. */
  function Bindings(rows: seq<Row>, scope: Option<nat>): set<CallableAliases.Binding> {
    set r | r in rows && (r.teamId == scope || r.teamId.None?) && !r.target.Unavailable? :: BindingOf(r)
  }

  ghost function ResolverNamespace(rows: seq<Row>, scope: Option<nat>): map<string, CallableAliases.Binding> {
    CallableAliases.Namespace(Bindings(rows, scope), Reserved(rows, scope), scope)
  }

  function RoutersOf(rows: seq<Row>, team: Option<nat>): set<string> {
    set r | r in rows && r.teamId == team && r.target.ToRouter? :: r.alias
  }

  function LocalRouters(rows: seq<Row>, scope: Option<nat>): set<string> {
    if scope.Some? then RoutersOf(rows, scope) else {}
  }

  lemma RouterAt(rows: seq<Row>, i: nat)
    requires i < |rows| && rows[i].target.ToRouter?
    ensures rows[i].alias in RoutersOf(rows, rows[i].teamId)
  {
  }

  /** The models and the routers of one team occupy different slots. */
  lemma SlotsApart(rows: seq<Row>, scope: Option<nat>)
    requires UniqueSlots(rows)
    ensures GlobalRows(rows).Keys !! RoutersOf(rows, None)
    ensures LocalRows(rows, scope).Keys !! LocalRouters(rows, scope)
  {
    hide GlobalRows, LocalRows;
    forall a | a in RoutersOf(rows, None) ensures a !in GlobalRows(rows) {
      GlobalRowsAre(rows, a);
      var i :| 0 <= i < |rows| && rows[i].teamId.None? && rows[i].target.ToRouter? && rows[i].alias == a;
    }
    forall a | a in LocalRouters(rows, scope) ensures a !in LocalRows(rows, scope) {
      LocalRowsAre(rows, scope, a);
      var i :| 0 <= i < |rows| && rows[i].teamId == scope && rows[i].target.ToRouter? && rows[i].alias == a;
    }
  }

  /** The resolver's side of the platform: its models as the migration has them, and the routers. */
  lemma ResolverGlobals(rows: seq<Row>, scope: Option<nat>, a: string)
    requires UniqueSlots(rows)
    ensures var G := CallableAliases.ByAlias(CallableAliases.Globals(Bindings(rows, scope)));
            && (a in G <==> a in GlobalRows(rows) || a in RoutersOf(rows, None))
            && (a in GlobalRows(rows) ==> a in G && G[a] == BindingOf(GlobalRows(rows)[a]))
            && (a in G && a !in GlobalRows(rows) ==> G[a].kind.RouterKind?)
  {
    hide GlobalRows, UniqueSlots, Reserved;
    var bs := Bindings(rows, scope);
    var gs := CallableAliases.Globals(bs);
    var G := CallableAliases.ByAlias(gs);
    GlobalRowsAre(rows, a);
    if a in GlobalRows(rows) {
      assert BindingOf(GlobalRows(rows)[a]) in gs;
      assert a in CallableAliases.Aliases(gs);
    }
    if a in RoutersOf(rows, None) {
      var r :| r in rows && r.teamId.None? && r.target.ToRouter? && r.alias == a;
      assert BindingOf(r) in gs;
    }
    if a in G {
      var i := RowBehind(rows, scope, G[a]);
      if a in GlobalRows(rows) { OneRowPerSlot(rows, i, GlobalRows(rows)[a]); }
      if rows[i].target.ToRouter? { RouterAt(rows, i); }
    }
  }

  lemma ResolverLocals(rows: seq<Row>, scope: Option<nat>, a: string)
    requires UniqueSlots(rows)
    ensures var L := CallableAliases.ByAlias(CallableAliases.Locals(Bindings(rows, scope), scope));
            && (a in L <==> a in LocalRows(rows, scope) || a in LocalRouters(rows, scope))
            && (a in LocalRows(rows, scope) ==> a in L && L[a] == BindingOf(LocalRows(rows, scope)[a]))
            && (a in L && a !in LocalRows(rows, scope) ==> L[a].kind.RouterKind?)
  {
    hide LocalRows, UniqueSlots, Reserved;
    var bs := Bindings(rows, scope);
    var ls := CallableAliases.Locals(bs, scope);
    var L := CallableAliases.ByAlias(ls);
    LocalRowsAre(rows, scope, a);
    if a in LocalRows(rows, scope) {
      assert BindingOf(LocalRows(rows, scope)[a]) in ls;
      assert a in CallableAliases.Aliases(ls);
    }
    if a in LocalRouters(rows, scope) {
      var r :| r in rows && r.teamId == scope && r.target.ToRouter? && r.alias == a;
      assert BindingOf(r) in ls;
    }
    if a in L {
      var i := RowBehind(rows, scope, L[a]);
      if a in LocalRows(rows, scope) { OneRowPerSlot(rows, i, LocalRows(rows, scope)[a]); }
      if rows[i].target.ToRouter? { RouterAt(rows, i); }
    }
  }

  lemma RowBehind(rows: seq<Row>, scope: Option<nat>, b: CallableAliases.Binding) returns (i: nat)
    requires b in Bindings(rows, scope)
    ensures i < |rows| && !rows[i].target.Unavailable? && BindingOf(rows[i]) == b
  {
    i :| i < |rows| && !rows[i].target.Unavailable? && BindingOf(rows[i]) == b;
  }

  lemma OneRowPerSlot(rows: seq<Row>, i: nat, r: Row)
    requires UniqueSlots(rows) && i < |rows| && r in rows && r.teamId == rows[i].teamId && r.alias == rows[i].alias
    ensures r == rows[i]
  {
    var k :| 0 <= k < |rows| && rows[k] == r;
  }

  // ---- Exactly when the two allocators agree ----

  lemma SyntheticIsLonger(alias: string, k: nat)
    ensures Synthetic(alias, k) != alias
  {
    assert |Synthetic(alias, k)| > |alias|;
  }

  /** Occupying more slots and declaring more names moves a global iff it takes the name the global had. */
  lemma EffectiveMovesIff(a: string, taken: set<string>, declared: set<string>, locals: set<string>, globals: set<string>)
    requires a in declared && declared !! globals
    ensures Effective(a, taken + locals, declared + globals) == Effective(a, taken, declared)
            <==> Effective(a, taken, declared) !in locals + globals
  {
    hide Synthetic;
    var avoid, more := taken + declared, taken + locals + (declared + globals);
    var k, k' := FirstFree(a, avoid), FirstFree(a, more);
    SyntheticIsLonger(a, k');
    if a in taken && Synthetic(a, k) !in locals + globals {
      FirstFreeIsUnique(a, more, k, more, k');
    }
  }

  ghost function MigrationNames(rows: seq<Row>, scope: Option<nat>): set<string> {
    var l, g := LocalRows(rows, scope), GlobalRows(rows);
    EffectiveNames(g.Keys, l.Keys + Reserved(rows, scope), g.Keys)
  }

  /** A router the scope sees bears a name the migration gives to a platform model. */
  ghost predicate RouterTakes(rows: seq<Row>, scope: Option<nat>, e: string) {
    e in MigrationNames(AliasRows(rows), scope) && e in LocalRouters(rows, scope) + RoutersOf(rows, None)
  }

  ghost predicate RoutersApart(rows: seq<Row>, scope: Option<nat>) { forall e :: !RouterTakes(rows, scope, e) }

  /** A name means to the resolver what it means to the migration. */
  ghost predicate NameAgrees(rows: seq<Row>, scope: Option<nat>, e: string) {
    var mine, theirs := ModelNamespace(AliasRows(rows), scope), ResolverNamespace(rows, scope);
    e in mine && e in theirs && !mine[e].target.Unavailable? && theirs[e] == BindingOf(mine[e])
  }

  /** Every entry of the migration's namespace is the same binding in the resolver's. */
  ghost predicate NamespacesAgree(rows: seq<Row>, scope: Option<nat>) {
    forall e :: e in ModelNamespace(AliasRows(rows), scope) ==> NameAgrees(rows, scope, e)
  }

  /** The migration's two sides and the resolver's, with the routers' names between them. */
  lemma SidesMatch(rows: seq<Row>, scope: Option<nat>)
    requires UniqueSlots(rows)
    ensures var kept, bs := AliasRows(rows), Bindings(rows, scope);
            var l, g := LocalRows(kept, scope), GlobalRows(kept);
            var L, G := CallableAliases.ByAlias(CallableAliases.Locals(bs, scope)), CallableAliases.ByAlias(CallableAliases.Globals(bs));
            && L.Keys == l.Keys + LocalRouters(rows, scope) && G.Keys == g.Keys + RoutersOf(rows, None)
            && g.Keys !! RoutersOf(rows, None) && l.Keys !! LocalRouters(rows, scope)
            && (forall a :: a in l ==> L[a] == BindingOf(l[a])) && (forall a :: a in g ==> G[a] == BindingOf(g[a]))
            && (forall a :: a in L && a !in l ==> L[a].kind.RouterKind?)
            && (forall a :: a in G && a !in g ==> G[a].kind.RouterKind?)
            && Reserved(kept, scope) == Reserved(rows, scope)
  {
    hide AliasRows, LocalRows, GlobalRows, Reserved, UniqueSlots, CallableAliases.ByAlias, RoutersOf;
    SameSidesKept(rows, scope);
    ReservedKept(rows, scope);
    SlotsApart(rows, scope);
    forall a ensures
      var L := CallableAliases.ByAlias(CallableAliases.Locals(Bindings(rows, scope), scope));
      && (a in L <==> a in LocalRows(rows, scope) || a in LocalRouters(rows, scope))
      && (a in LocalRows(rows, scope) ==> a in L && L[a] == BindingOf(LocalRows(rows, scope)[a]))
      && (a in L && a !in LocalRows(rows, scope) ==> L[a].kind.RouterKind?)
    {
      ResolverLocals(rows, scope, a);
    }
    forall a ensures
      var G := CallableAliases.ByAlias(CallableAliases.Globals(Bindings(rows, scope)));
      && (a in G <==> a in GlobalRows(rows) || a in RoutersOf(rows, None))
      && (a in GlobalRows(rows) ==> a in G && G[a] == BindingOf(GlobalRows(rows)[a]))
      && (a in G && a !in GlobalRows(rows) ==> G[a].kind.RouterKind?)
    {
      ResolverGlobals(rows, scope, a);
    }
  }

  lemma AppendedLocal(rows: seq<Row>, row: Row, scope: Option<nat>)
    ensures LocalRows(rows + [row], scope)
            == if scope.Some? && row.teamId == scope && row.target.ToModel? then LocalRows(rows, scope)[row.alias := row]
               else LocalRows(rows, scope)
  {
    assert (rows + [row])[..|rows|] == rows;
  }

  lemma AppendedGlobal(rows: seq<Row>, row: Row)
    ensures GlobalRows(rows + [row])
            == if row.teamId.None? && row.target.ToModel? then GlobalRows(rows)[row.alias := row] else GlobalRows(rows)
  {
    assert (rows + [row])[..|rows|] == rows;
  }

  /** Leaving out the routers' rows changes neither side of the migration's namespace. */
  lemma {:induction false} SameSidesKept(rows: seq<Row>, scope: Option<nat>)
    ensures LocalRows(AliasRows(rows), scope) == LocalRows(rows, scope)
    ensures GlobalRows(AliasRows(rows)) == GlobalRows(rows)
  {
    if rows == [] {
      assert AliasRows(rows) == rows;
    } else {
      hide AliasRows, LocalRows, GlobalRows;
      var before, row := rows[..|rows| - 1], rows[|rows| - 1];
      assert rows == before + [row];
      SameSidesKept(before, scope);
      AliasRowsGrow(rows);
      AppendedLocal(before, row, scope);
      AppendedGlobal(before, row);
      AppendedLocal(AliasRows(before), row, scope);
      AppendedGlobal(AliasRows(before), row);
      assert AliasRows(before) + [] == AliasRows(before);
    }
  }

  lemma {:induction false} AliasRowsGrow(rows: seq<Row>)
    requires rows != []
    ensures var before, row := rows[..|rows| - 1], rows[|rows| - 1];
            AliasRows(rows) == AliasRows(before) + if row.target.ToRouter? then [] else [row]
  {
    if |rows| > 1 {
      AliasRowsGrow(rows[1..]);
      assert rows[1..][..|rows| - 2] == rows[..|rows| - 1][1..];
    }
  }

  /** Where a router bears a platform model's name, the migration reads the model and the resolver the router. */
  lemma RouterAliasesDisagree(rows: seq<Row>, scope: Option<nat>, a: string)
    requires UniqueSlots(rows) && a in GlobalRows(AliasRows(rows))
    requires var kept := AliasRows(rows);
             var taken := LocalRows(kept, scope).Keys + Reserved(kept, scope);
             Effective(a, taken, GlobalRows(kept).Keys) in LocalRouters(rows, scope) + RoutersOf(rows, None)
    ensures var kept := AliasRows(rows);
            var e := Effective(a, LocalRows(kept, scope).Keys + Reserved(kept, scope), GlobalRows(kept).Keys);
            && e in ModelNamespace(kept, scope) && ModelNamespace(kept, scope)[e] == GlobalRows(kept)[a]
            && e in ResolverNamespace(rows, scope) && ResolverNamespace(rows, scope)[e].kind.RouterKind?
  {
    SidesMatch(rows, scope);
    var kept, bs := AliasRows(rows), Bindings(rows, scope);
    var l, g, reserved := LocalRows(kept, scope), GlobalRows(kept), Reserved(kept, scope);
    var L, G := CallableAliases.ByAlias(CallableAliases.Locals(bs, scope)), CallableAliases.ByAlias(CallableAliases.Globals(bs));
    AllocationBinds(l, g, reserved);
    AllocationBinds(L, G, reserved);
    NameIsFree(a, l.Keys + reserved, g.Keys);
    hide AliasRows, LocalRows, GlobalRows, Reserved, Allocation, CallableAliases.ByAlias, RoutersOf, LocalRouters, Effective;
    var e := Effective(a, l.Keys + reserved, g.Keys);
    if e !in L { UnmovedName(e, L.Keys + reserved, G.Keys); }
  }

  lemma NameIsFree(a: string, taken: set<string>, declared: set<string>)
    ensures Effective(a, taken, declared) !in taken
  {
  }

  lemma UnmovedName(a: string, taken: set<string>, declared: set<string>)
    ensures a !in taken ==> Effective(a, taken, declared) == a
  {
  }

  /** A row the scope sees as unavailable. */
  predicate SetAside(rows: seq<Row>, scope: Option<nat>, i: nat) {
    i < |rows| && rows[i].target.Unavailable? && (rows[i].teamId == scope || rows[i].teamId.None?)
  }

  /**
    A slot set aside stays empty: no platform model or router is given its name by either namespace.
    Only when the platform set it aside may a team still use the name for something of its own.
  */
  lemma SlotsSetAsideStayEmpty(rows: seq<Row>, scope: Option<nat>, i: nat)
    requires UniqueSlots(rows) && SetAside(rows, scope, i)
    ensures var e, mine := rows[i].alias, ModelNamespace(AliasRows(rows), scope);
            e in mine ==> scope.Some? && rows[i].teamId.None? && mine[e].teamId == scope && mine[e].alias == e
    ensures var e, theirs := rows[i].alias, ResolverNamespace(rows, scope);
            e in theirs ==> scope.Some? && rows[i].teamId.None? && theirs[e].teamId == scope && theirs[e].alias == e
  {
    SidesMatch(rows, scope);
    SameSidesKept(rows, scope);
    var kept, e := AliasRows(rows), rows[i].alias;
    assert e in Reserved(rows, scope);
    SetAsideIsNotLocal(rows, scope, i);
    hide AliasRows, LocalRows, GlobalRows, Reserved, Allocation, CallableAliases.ByAlias, RoutersOf, Effective, UniqueSlots, Bindings;
    if e in ModelNamespace(kept, scope) {
      var a := AllocationEntry(LocalRows(kept, scope), GlobalRows(kept), Reserved(kept, scope), e);
      if e !in LocalRows(kept, scope) { NameIsFree(a, LocalRows(kept, scope).Keys + Reserved(kept, scope), GlobalRows(kept).Keys); }
    }
    if e in ResolverNamespace(rows, scope) {
      var bs := Bindings(rows, scope);
      var L, G := CallableAliases.ByAlias(CallableAliases.Locals(bs, scope)), CallableAliases.ByAlias(CallableAliases.Globals(bs));
      var a := AllocationEntry(L, G, Reserved(rows, scope), e);
      if e !in L { NameIsFree(a, L.Keys + Reserved(rows, scope), G.Keys); } else { LocalIsTheScopes(bs, scope, e); }
    }
  }

  lemma LocalIsTheScopes(bs: set<CallableAliases.Binding>, scope: Option<nat>, e: string)
    requires e in CallableAliases.ByAlias(CallableAliases.Locals(bs, scope))
    ensures var b := CallableAliases.ByAlias(CallableAliases.Locals(bs, scope))[e];
            scope.Some? && b.teamId == scope && b.alias == e
  {
  }

  /** A team has nothing of its own in a slot it has set aside. */
  lemma SetAsideIsNotLocal(rows: seq<Row>, scope: Option<nat>, i: nat)
    requires UniqueSlots(rows) && SetAside(rows, scope, i)
    ensures scope.None? ==> LocalRows(rows, scope).Keys + LocalRouters(rows, scope) == {}
    ensures rows[i].teamId == scope ==> rows[i].alias !in LocalRows(rows, scope).Keys + LocalRouters(rows, scope)
  {
    var e := rows[i].alias;
    hide LocalRows;
    LocalRowsAre(rows, scope, e);
    if scope.None? {
      forall a ensures a !in LocalRows(rows, scope) { LocalRowsAre(rows, scope, a); }
    }
  }

  /** Name by name, and exactly: only a router that takes it parts what a name means to the two. */
  lemma NameAgreesIff(rows: seq<Row>, scope: Option<nat>, e: string)
    requires UniqueSlots(rows) && e in ModelNamespace(AliasRows(rows), scope)
    ensures NameAgrees(rows, scope, e) <==> !RouterTakes(rows, scope, e)
    ensures RouterTakes(rows, scope, e) ==>
              e in ResolverNamespace(rows, scope) && ResolverNamespace(rows, scope)[e].kind.RouterKind?
  {
    hide AliasRows, LocalRows, GlobalRows, Reserved, Effective, Allocation, LocalRouters, RoutersOf;
    if RouterTakes(rows, scope, e) {
      var kept := AliasRows(rows);
      var taken, declared := LocalRows(kept, scope).Keys + Reserved(kept, scope), GlobalRows(kept).Keys;
      RouterAliasesDisagree(rows, scope, Declarer(e, declared, taken, declared));
    } else {
      EntryAgrees(rows, scope, e);
    }
  }

  lemma TakenNameIsThere(rows: seq<Row>, scope: Option<nat>, e: string)
    requires UniqueSlots(rows) && RouterTakes(rows, scope, e)
    ensures e in ModelNamespace(AliasRows(rows), scope)
  {
    hide AliasRows, LocalRows, GlobalRows, Reserved, LocalRouters, RoutersOf;
    var kept := AliasRows(rows);
    AllocationBinds(LocalRows(kept, scope), GlobalRows(kept), Reserved(kept, scope));
  }

  /**
    The migration's allocator agrees with the resolver, on any registry, exactly when no router in
    sight bears a name the migration gives to a platform model.
  */
  lemma AgreesWithResolver(rows: seq<Row>, scope: Option<nat>)
    requires UniqueSlots(rows)
    ensures NamespacesAgree(rows, scope) <==> RoutersApart(rows, scope)
  {
    hide ModelNamespace, NameAgrees, RouterTakes;
    forall e | e in ModelNamespace(AliasRows(rows), scope)
      ensures NameAgrees(rows, scope, e) <==> !RouterTakes(rows, scope, e)
    {
      NameAgreesIff(rows, scope, e);
    }
    forall e | RouterTakes(rows, scope, e) ensures e in ModelNamespace(AliasRows(rows), scope) {
      TakenNameIsThere(rows, scope, e);
    }
  }

  lemma EntryAgrees(rows: seq<Row>, scope: Option<nat>, e: string)
    requires UniqueSlots(rows) && e in ModelNamespace(AliasRows(rows), scope) && !RouterTakes(rows, scope, e)
    ensures var mine, theirs := ModelNamespace(AliasRows(rows), scope), ResolverNamespace(rows, scope);
            e in theirs && mine[e].target.ToModel? && theirs[e] == BindingOf(mine[e])
  {
    SidesMatch(rows, scope);
    var kept, bs := AliasRows(rows), Bindings(rows, scope);
    var l, g, reserved := LocalRows(kept, scope), GlobalRows(kept), Reserved(kept, scope);
    var L, G := CallableAliases.ByAlias(CallableAliases.Locals(bs, scope)), CallableAliases.ByAlias(CallableAliases.Globals(bs));
    var a := AllocationEntry(l, g, reserved, e);
    AllocationBinds(L, G, reserved);
    if e !in l {
      assert e in MigrationNames(kept, scope);
      MovesWithRouters(a, l.Keys, reserved, g.Keys, LocalRouters(rows, scope), RoutersOf(rows, None), L.Keys, G.Keys);
    }
  }

  /** The same, of the resolver's view of its two sides. */
  lemma MovesWithRouters(a: string, l: set<string>, reserved: set<string>, g: set<string>, locals: set<string>, globals: set<string>,
                         L: set<string>, G: set<string>)
    requires a in g && g !! globals && L == l + locals && G == g + globals
    ensures Effective(a, L + reserved, G) == Effective(a, l + reserved, g) <==> Effective(a, l + reserved, g) !in locals + globals
  {
    EffectiveMovesIff(a, l + reserved, g, locals, globals);
    assert L + reserved == l + reserved + locals;
  }

  /** And nothing else is a model to the resolver: its model entries are the migration's. */
  lemma ModelEntryIsMine(rows: seq<Row>, scope: Option<nat>, e: string)
    requires UniqueSlots(rows) && RoutersApart(rows, scope)
    requires e in ResolverNamespace(rows, scope) && ResolverNamespace(rows, scope)[e].kind.ModelKind?
    ensures e in ModelNamespace(AliasRows(rows), scope)
  {
    SidesMatch(rows, scope);
    var kept, bs := AliasRows(rows), Bindings(rows, scope);
    var l, g, reserved := LocalRows(kept, scope), GlobalRows(kept), Reserved(kept, scope);
    var L, G := CallableAliases.ByAlias(CallableAliases.Locals(bs, scope)), CallableAliases.ByAlias(CallableAliases.Globals(bs));
    var a := AllocationEntry(L, G, reserved, e);
    AllocationBinds(l, g, reserved);
    hide AliasRows, LocalRows, GlobalRows, Reserved, Allocation, CallableAliases.ByAlias, Effective, Bindings;
    if e !in L {
      assert !RouterTakes(rows, scope, Effective(a, l.Keys + reserved, g.Keys));
      var mine := Effective(a, l.Keys + reserved, g.Keys);
      assert mine in EffectiveNames(g.Keys, l.Keys + reserved, g.Keys);
      MovesWithRouters(a, l.Keys, reserved, g.Keys, LocalRouters(rows, scope), RoutersOf(rows, None), L.Keys, G.Keys);
    }
  }

  lemma {:induction false} KeptRowsAre(rows: seq<Row>)
    ensures forall r :: r in AliasRows(rows) <==> r in rows && !r.target.ToRouter?
  {
    if rows != [] {
      KeptRowsAre(rows[1..]);
      assert rows == [rows[0]] + rows[1..];
    }
  }

  lemma UniqueAfterHead(row: Row, rest: seq<Row>)
    ensures UniqueSlots([row] + rest) <==>
              UniqueSlots(rest) && forall r :: r in rest ==> row.teamId != r.teamId || row.alias != r.alias
  {
    var rows := [row] + rest;
    assert forall i :: 0 <= i < |rest| ==> rows[i + 1] == rest[i];
    if UniqueSlots(rows) {
      forall i, j | 0 <= i < j < |rest| ensures rest[i].teamId != rest[j].teamId || rest[i].alias != rest[j].alias {
        assert rows[i + 1] == rest[i] && rows[j + 1] == rest[j];
      }
      forall r | r in rest ensures row.teamId != r.teamId || row.alias != r.alias {
        var j :| 0 <= j < |rest| && rest[j] == r;
        assert rows[0] == row && rows[j + 1] == r;
      }
    }
  }

  lemma {:induction false} AliasRowsAre(rows: seq<Row>)
    ensures forall r :: r in AliasRows(rows) <==> r in rows && !r.target.ToRouter?
    ensures UniqueSlots(rows) ==> UniqueSlots(AliasRows(rows))
  {
    KeptRowsAre(rows);
    if rows != [] {
      hide UniqueSlots;
      AliasRowsAre(rows[1..]);
      assert rows == [rows[0]] + rows[1..];
      UniqueAfterHead(rows[0], rows[1..]);
      UniqueAfterHead(rows[0], AliasRows(rows[1..]));
    }
  }

  lemma ReservedKept(rows: seq<Row>, scope: Option<nat>)
    ensures Reserved(AliasRows(rows), scope) == Reserved(rows, scope)
  {
    hide AliasRows;
    AliasRowsAre(rows);
  }

  // ---- A registry on which they differ ----

  /** A platform model `x`, team 5's own model `x`, and a router of team 5 that already bears the fallback name. */
  function SplitRegistry(): seq<Row> {
    [Row(1, None, "x", ToModel(1, None, None)), Row(2, Some(5), "x", ToModel(2, Some(5), None)),
     Row(3, Some(5), "x-global", ToRouter(9))]
  }

  lemma SplitRegistrySides()
    ensures var kept := AliasRows(SplitRegistry());
            && LocalRows(kept, Some(5)).Keys == {"x"} && GlobalRows(kept).Keys == {"x"} && Reserved(kept, Some(5)) == {}
            && GlobalRows(kept)["x"].target == ToModel(1, None, None)
  {
    var rows := SplitRegistry();
    assert rows[1..] == [rows[1], rows[2]] && rows[1..][1..] == [rows[2]] && rows[1..][1..][1..] == [];
    var kept := AliasRows(rows);
    assert kept == [rows[0], rows[1]];
    assert kept[..1] == [rows[0]] && kept[..1][..0] == [];
  }

  lemma SplitRegistryIsSplit()
    ensures UniqueSlots(SplitRegistry()) && "x-global" in LocalRouters(SplitRegistry(), Some(5))
  {
    assert SplitRegistry()[2].alias == "x-global";
  }

  lemma SplitName()
    ensures Effective("x", {"x"}, {"x"}) == "x-global"
  {
    assert |Synthetic("x", 0)| > |"x"|;
    hide FirstFree;
    FirstTryIsFree("x", {"x"}, {"x"});
  }

  /** There `x-global` is the platform's model to the migration and the team's router to the resolver. */
  lemma OneNameTwoMeanings()
    ensures var rows, e := SplitRegistry(), "x-global";
            && UniqueSlots(rows) && RouterTakes(rows, Some(5), e) && !NamespacesAgree(rows, Some(5))
            && e in ModelNamespace(AliasRows(rows), Some(5))
            && ModelNamespace(AliasRows(rows), Some(5))[e].target == ToModel(1, None, None)
            && e in ResolverNamespace(rows, Some(5)) && ResolverNamespace(rows, Some(5))[e].kind.RouterKind?
  {
    SplitRegistrySides();
    SplitRegistryIsSplit();
    SplitName();
    hide AliasRows, LocalRows, GlobalRows, Reserved, Allocation, LocalRouters, RoutersOf, Effective, UniqueSlots, SplitRegistry,
      Bindings;
    var rows := SplitRegistry();
    var kept := AliasRows(rows);
    assert LocalRows(kept, Some(5)).Keys + Reserved(kept, Some(5)) == {"x"};
    RouterAliasesDisagree(rows, Some(5), "x");
    assert "x-global" in MigrationNames(kept, Some(5)) by {
      assert "x" in GlobalRows(kept).Keys;
      assert Effective("x", LocalRows(kept, Some(5)).Keys + Reserved(kept, Some(5)), GlobalRows(kept).Keys) == "x-global";
    }
    AgreesWithResolver(rows, Some(5));
  }

  lemma FirstTryIsFree(a: string, taken: set<string>, declared: set<string>)
    requires a in taken && Synthetic(a, 0) !in taken + declared
    ensures Effective(a, taken, declared) == a + "-global"
  {
    var avoid := taken + declared;
    FirstFreeIsUnique(a, avoid, 0, avoid, FirstFree(a, avoid));
  }
}
