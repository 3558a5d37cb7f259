/**
  The synthetic names a shadowed global callable falls back to: `x-global`, then `x-global-2`,
  `x-global-3` and so on, and the search for the first one that is free.
*/
module AliasNames {
  function Digit(d: nat): (c: char)
    requires d < 10
    ensures '0' <= c <= '9' && c as int - '0' as int == d
  {
    ('0' as int + d) as char
  }

  function Decimal(n: nat): (s: string)
    ensures s != "" && forall i :: 0 <= i < |s| ==> '0' <= s[i] <= '9'
  {
    if n < 10 then [Digit(n)] else Decimal(n / 10) + [Digit(n % 10)]
  }

  lemma {:induction false} DecimalInjective(m: nat, n: nat)
    requires Decimal(m) == Decimal(n)
    ensures m == n
  {
    var s, t := Decimal(m), Decimal(n);
    assert s[|s| - 1] == Digit(m % 10) && t[|t| - 1] == Digit(n % 10);
    assert m >= 10 ==> s[..|s| - 1] == Decimal(m / 10) != "";
    assert n >= 10 ==> t[..|t| - 1] == Decimal(n / 10) != "";
    if m >= 10 && n >= 10 {
      DecimalInjective(m / 10, n / 10);
    }
  }

  /** The k-th name tried for a shadowed global. */
  function Synthetic(alias: string, k: nat): string {
    if k == 0 then alias + "-global" else alias + "-global-" + Decimal(k + 1)
  }

  /** The number a decimal numeral stands for. */
  function Numeral(s: string): nat
    requires forall i :: 0 <= i < |s| ==> '0' <= s[i] <= '9'
  {
    if s == "" then 0 else 10 * Numeral(s[..|s| - 1]) + (s[|s| - 1] as int - '0' as int)
  }

  lemma {:induction false} DecimalIsNumeral(n: nat)
    ensures Numeral(Decimal(n)) == n
    ensures n > 0 ==> Decimal(n)[0] != '0'
  {
    var s := Decimal(n);
    if n >= 10 {
      DecimalIsNumeral(n / 10);
      assert s[..|s| - 1] == Decimal(n / 10);
      assert s[0] == Decimal(n / 10)[0];
    } else {
      assert s[..|s| - 1] == "";
    }
  }

  /** The names tried: the bare suffix first, then numbered from two, in numerals without leading zeros. */
  lemma SyntheticNames(alias: string, k: nat) returns (numeral: string)
    ensures Synthetic(alias, 0) == alias + "-global"
    ensures k > 0 ==> Synthetic(alias, k) == alias + "-global-" + numeral
    ensures numeral != "" && numeral[0] != '0' && forall i :: 0 <= i < |numeral| ==> '0' <= numeral[i] <= '9'
    ensures Numeral(numeral) == k + 1
  {
    numeral := Decimal(k + 1);
    DecimalIsNumeral(k + 1);
  }

  function TrailingDigits(s: string): nat {
    if s != "" && '0' <= s[|s| - 1] <= '9' then 1 + TrailingDigits(s[..|s| - 1]) else 0
  }

  lemma {:induction false} DigitsAfter(prefix: string, digits: string)
    requires TrailingDigits(prefix) == 0
    requires forall i :: 0 <= i < |digits| ==> '0' <= digits[i] <= '9'
    ensures TrailingDigits(prefix + digits) == |digits|
  {
    if digits == "" {
      assert prefix + digits == prefix;
    } else {
      DigitsAfter(prefix, digits[..|digits| - 1]);
      var s := prefix + digits;
      assert s[..|s| - 1] == prefix + digits[..|digits| - 1];
    }
  }

  lemma SameSuffix(a: string, b: string, suffix: string)
    requires a + suffix == b + suffix
    ensures a == b
  {
    assert (a + suffix)[..|a|] == a && (b + suffix)[..|b|] == b;
  }

  lemma SyntheticEnding(alias: string, k: nat)
    ensures var s := Synthetic(alias, k); s != "" && ('0' <= s[|s| - 1] <= '9' <==> k != 0)
  {
    if k != 0 {
      var s, d := Synthetic(alias, k), Decimal(k + 1);
      assert s[|s| - 1] == d[|d| - 1];
    }
  }

  /** No two globals ever compete for the same synthetic name. */
  lemma SyntheticInjective(a: string, i: nat, b: string, j: nat)
    requires Synthetic(a, i) == Synthetic(b, j)
    ensures a == b && i == j
  {
    var x, y := a + "-global-", b + "-global-";
    assert x[|x| - 1] == y[|y| - 1] == '-';
    if i == 0 || j == 0 {
      SyntheticEnding(a, i);
      SyntheticEnding(b, j);
      SameSuffix(a, b, "-global");
    } else {
      var d, e := Decimal(i + 1), Decimal(j + 1);
      DigitsAfter(x, d);
      DigitsAfter(y, e);
      assert (x + d)[|x|..] == d && (y + e)[|y|..] == e;
      assert (x + d)[..|x|] == x && (y + e)[..|y|] == y;
      DecimalInjective(i + 1, j + 1);
      SameSuffix(a, b, "-global-");
    }
  }

  predicate IsFirstFree(alias: string, avoid: set<string>, k: nat) {
    Synthetic(alias, k) !in avoid && forall j :: 0 <= j < k ==> Synthetic(alias, j) in avoid
  }

  /** Pigeonhole: names tried and found taken are distinct members of a finite set. */
  lemma {:induction false} TakenNamesAreBounded(alias: string, avoid: set<string>, k: nat)
    requires forall j :: 0 <= j < k ==> Synthetic(alias, j) in avoid
    ensures k <= |avoid|
  {
    if k > 0 {
      var last := Synthetic(alias, k - 1);
      forall j | 0 <= j < k - 1 ensures Synthetic(alias, j) in avoid - {last} {
        if Synthetic(alias, j) == last { SyntheticInjective(alias, j, alias, k - 1); }
      }
      TakenNamesAreBounded(alias, avoid - {last}, k - 1);
    }
  }

  /** The index the search stops at; it makes at most one more try than there are names to avoid. */
  ghost function FirstFree(alias: string, avoid: set<string>): (k: nat)
    ensures IsFirstFree(alias, avoid, k)
    ensures k <= |avoid|
  {
    FirstFreeFrom(alias, avoid, 0)
  }

  ghost function FirstFreeFrom(alias: string, avoid: set<string>, from: nat): (k: nat)
    requires forall j :: 0 <= j < from ==> Synthetic(alias, j) in avoid
    ensures IsFirstFree(alias, avoid, k)
    ensures k <= |avoid|
    decreases |avoid| + 1 - from
  {
    TakenNamesAreBounded(alias, avoid, from);
    if Synthetic(alias, from) !in avoid then from else FirstFreeFrom(alias, avoid, from + 1)
  }

  lemma FirstFreeIsUnique(alias: string, avoid: set<string>, k: nat, avoid': set<string>, k': nat)
    requires IsFirstFree(alias, avoid, k) && IsFirstFree(alias, avoid', k')
    requires forall j :: Synthetic(alias, j) in avoid <==> Synthetic(alias, j) in avoid'
    ensures k == k'
  {
  }

  /** The search loop itself. */
  method SearchFree(alias: string, occupied: set<string>, declared: set<string>) returns (effective: string)
    ensures effective == Synthetic(alias, FirstFree(alias, occupied + declared))
  {
    effective := alias + "-global";
    var suffix := 2;
    ghost var tried: nat := 0;
    while effective in occupied || effective in declared
      invariant suffix == tried + 2 && effective == Synthetic(alias, tried)
      invariant forall j :: 0 <= j < tried ==> Synthetic(alias, j) in occupied + declared
      invariant tried <= |occupied + declared|
      decreases |occupied + declared| + 1 - tried
    {
      assert forall j :: 0 <= j < tried + 1 ==> Synthetic(alias, j) in occupied + declared;
      TakenNamesAreBounded(alias, occupied + declared, tried + 1);
      effective := alias + "-global-" + Decimal(suffix);
      suffix := suffix + 1;
      tried := tried + 1;
    }
    var avoid := occupied + declared;
    FirstFreeIsUnique(alias, avoid, tried, avoid, FirstFree(alias, avoid));
  }

  // ---- The allocation in closed form ----

  /**
    The effective alias of the global declared as `alias`, given the slots held by locals and
    reservations (`taken`) and every declared global name. It depends on no other global's outcome.
  */
  ghost function Effective(alias: string, taken: set<string>, declared: set<string>): string {
    if alias !in taken then alias else Synthetic(alias, FirstFree(alias, taken + declared))
  }

  lemma EffectiveInjective(a: string, b: string, taken: set<string>, declared: set<string>)
    requires a in declared && b in declared
    requires Effective(a, taken, declared) == Effective(b, taken, declared)
    ensures a == b
  {
    if a in taken && b in taken {
      SyntheticInjective(a, FirstFree(a, taken + declared), b, FirstFree(b, taken + declared));
    }
  }

  ghost function EffectiveNames(globals: set<string>, taken: set<string>, declared: set<string>): set<string> {
    set a | a in globals :: Effective(a, taken, declared)
  }

  ghost function Declarer(e: string, globals: set<string>, taken: set<string>, declared: set<string>): (a: string)
    requires e in EffectiveNames(globals, taken, declared)
    ensures a in globals && Effective(a, taken, declared) == e
  {
    var a :| a in globals && Effective(a, taken, declared) == e; a
  }

  /** The whole namespace: what each effective alias is bound to. */
  ghost function Allocation<T>(locals: map<string, T>, globals: map<string, T>, reserved: set<string>): map<string, T> {
    var taken := locals.Keys + reserved;
    map e | e in locals.Keys + EffectiveNames(globals.Keys, taken, globals.Keys) ::
      if e in locals then locals[e] else globals[Declarer(e, globals.Keys, taken, globals.Keys)]
  }

  /** A namespace is this allocation as soon as it has these keys and these bindings. */
  lemma AllocationIs<T>(locals: map<string, T>, globals: map<string, T>, reserved: set<string>, m: map<string, T>)
    requires var taken := locals.Keys + reserved;
             && m.Keys == locals.Keys + EffectiveNames(globals.Keys, taken, globals.Keys)
             && (forall a :: a in locals ==> m[a] == locals[a])
             && (forall a :: a in globals ==> m[Effective(a, taken, globals.Keys)] == globals[a])
    ensures m == Allocation(locals, globals, reserved)
  {
    var taken := locals.Keys + reserved;
    forall e | e in m ensures m[e] == Allocation(locals, globals, reserved)[e] {
      if e !in locals {
        var a := Declarer(e, globals.Keys, taken, globals.Keys);
      }
    }
  }

  lemma AllocationBinds<T>(locals: map<string, T>, globals: map<string, T>, reserved: set<string>)
    ensures var m, taken := Allocation(locals, globals, reserved), locals.Keys + reserved;
            && (forall a :: a in locals ==> a in m && m[a] == locals[a])
            && (forall a :: a in globals ==>
                  var e := Effective(a, taken, globals.Keys); e in m && e !in locals && m[e] == globals[a])
  {
    var taken := locals.Keys + reserved;
    forall a | a in globals
      ensures var e := Effective(a, taken, globals.Keys);
              e in Allocation(locals, globals, reserved) && e !in locals
              && Allocation(locals, globals, reserved)[e] == globals[a]
    {
      var e := Effective(a, taken, globals.Keys);
      assert e in EffectiveNames(globals.Keys, taken, globals.Keys);
      EffectiveInjective(a, Declarer(e, globals.Keys, taken, globals.Keys), taken, globals.Keys);
    }
  }

  /** Every entry is a local under its own name or some global under its effective alias. */
  lemma AllocationEntry<T>(locals: map<string, T>, globals: map<string, T>, reserved: set<string>, e: string)
    returns (a: string)
    requires e in Allocation(locals, globals, reserved)
    ensures var m, taken := Allocation(locals, globals, reserved), locals.Keys + reserved;
            if e in locals then a == e && m[e] == locals[e]
            else a in globals && Effective(a, taken, globals.Keys) == e && m[e] == globals[a]
  {
    a := e;
    if e !in locals { a := Declarer(e, globals.Keys, locals.Keys + reserved, globals.Keys); }
  }

  /** What placing one more global does to a partly built namespace. */
  lemma PlaceOne(done: set<string>, alias: string, taken: set<string>, declared: set<string>)
    requires done <= declared && alias in declared && alias !in done
    ensures alias in taken + EffectiveNames(done, taken, declared) <==> alias in taken
    ensures forall k :: Synthetic(alias, k) in taken + EffectiveNames(done, taken, declared) + declared
                        <==> Synthetic(alias, k) in taken + declared
    ensures EffectiveNames(done + {alias}, taken, declared)
            == EffectiveNames(done, taken, declared) + {Effective(alias, taken, declared)}
    ensures Effective(alias, taken, declared) !in taken
    ensures forall a :: a in done ==> Effective(a, taken, declared) != Effective(alias, taken, declared)
  {
    assert alias in taken ==> IsFirstFree(alias, taken + declared, FirstFree(alias, taken + declared));
    forall a | a in done ensures Effective(a, taken, declared) != alias {
    }
    forall k, a | a in done && Effective(a, taken, declared) == Synthetic(alias, k)
      ensures Synthetic(alias, k) in taken + declared
    {
      if a in taken { SyntheticInjective(a, FirstFree(a, taken + declared), alias, k); }
    }
    forall a | a in done ensures Effective(a, taken, declared) != Effective(alias, taken, declared) {
      if Effective(a, taken, declared) == Effective(alias, taken, declared) {
        EffectiveInjective(a, alias, taken, declared);
      }
    }
  }

  /** The growing set of occupied names and the fixed one lead to the same effective alias. */
  lemma GrowingSetIsEnough(done: set<string>, alias: string, taken: set<string>, declared: set<string>)
    requires done <= declared && alias in declared && alias !in done
    ensures var occupied := taken + EffectiveNames(done, taken, declared);
            Effective(alias, taken, declared)
            == if alias in occupied then Synthetic(alias, FirstFree(alias, occupied + declared)) else alias
  {
    hide Synthetic, EffectiveNames;
    var occupied := taken + EffectiveNames(done, taken, declared);
    PlaceOne(done, alias, taken, declared);
    FirstFreeIsUnique(alias, occupied + declared, FirstFree(alias, occupied + declared),
                      taken + declared, FirstFree(alias, taken + declared));
  }

  // ---- The allocation loop, one global at a time ----

  ghost predicate Slots<T>(byAlias: map<string, T>, occupied: set<string>, L: map<string, T>, done: set<string>,
                           taken: set<string>, declared: set<string>) {
    && occupied == taken + EffectiveNames(done, taken, declared)
    && byAlias.Keys == L.Keys + EffectiveNames(done, taken, declared)
  }

  ghost predicate Entries<T>(byAlias: map<string, T>, L: map<string, T>, G: map<string, T>, done: set<string>,
                             taken: set<string>, declared: set<string>) {
    && (forall a :: a in L ==> a in byAlias && byAlias[a] == L[a])
    && (forall a :: a in done && a in G ==>
          Effective(a, taken, declared) in byAlias && byAlias[Effective(a, taken, declared)] == G[a])
  }

  /** The loop's state once the locals and the globals named in `done` are placed. */
  ghost predicate Stage<T>(byAlias: map<string, T>, occupied: set<string>, L: map<string, T>, G: map<string, T>,
                           reserved: set<string>, done: set<string>) {
    && done <= G.Keys
    && Slots(byAlias, occupied, L, done, L.Keys + reserved, G.Keys)
    && Entries(byAlias, L, G, done, L.Keys + reserved, G.Keys)
  }

  lemma PlaceSlot<T>(byAlias: map<string, T>, occupied: set<string>, L: map<string, T>, G: map<string, T>,
                     done: set<string>, taken: set<string>, alias: string)
    requires Slots(byAlias, occupied, L, done, taken, G.Keys)
    requires done <= G.Keys && alias in G && alias !in done
    ensures var effective := Effective(alias, taken, G.Keys);
            Slots(byAlias[effective := G[alias]], occupied + {effective}, L, done + {alias}, taken, G.Keys)
  {
    hide Effective, EffectiveNames, FirstFree, Synthetic;
    var before := EffectiveNames(done, taken, G.Keys);
    PlaceOne(done, alias, taken, G.Keys);
    var effective := Effective(alias, taken, G.Keys);
    assert occupied + {effective} == taken + (before + {effective});
    assert byAlias[effective := G[alias]].Keys == L.Keys + (before + {effective});
  }

  lemma PlaceEntry<T>(byAlias: map<string, T>, L: map<string, T>, G: map<string, T>, done: set<string>,
                      taken: set<string>, alias: string)
    requires Entries(byAlias, L, G, done, taken, G.Keys) && L.Keys <= taken && alias in G
    requires Effective(alias, taken, G.Keys) !in taken
    requires forall a :: a in done ==> Effective(a, taken, G.Keys) != Effective(alias, taken, G.Keys)
    ensures Entries(byAlias[Effective(alias, taken, G.Keys) := G[alias]], L, G, done + {alias}, taken, G.Keys)
  {
    hide Effective;
  }

  lemma FirstStage<T>(L: map<string, T>, G: map<string, T>, reserved: set<string>)
    ensures Stage(L, L.Keys + reserved, L, G, reserved, {})
  {
  }

  lemma NextStage<T>(byAlias: map<string, T>, occupied: set<string>, L: map<string, T>, G: map<string, T>,
                     reserved: set<string>, done: set<string>, alias: string)
    requires Stage(byAlias, occupied, L, G, reserved, done) && alias in G && alias !in done
    ensures var effective := if alias in occupied then Synthetic(alias, FirstFree(alias, occupied + G.Keys)) else alias;
            Stage(byAlias[effective := G[alias]], occupied + {effective}, L, G, reserved, done + {alias})
  {
    hide Entries, Synthetic, FirstFree, EffectiveNames, Effective;
    var taken := L.Keys + reserved;
    PlaceOne(done, alias, taken, G.Keys);
    GrowingSetIsEnough(done, alias, taken, G.Keys);
    PlaceSlot(byAlias, occupied, L, G, done, taken, alias);
    PlaceEntry(byAlias, L, G, done, taken, alias);
  }

  lemma AllPlaced<T>(byAlias: map<string, T>, occupied: set<string>, L: map<string, T>, G: map<string, T>,
                     reserved: set<string>)
    requires Stage(byAlias, occupied, L, G, reserved, G.Keys)
    ensures byAlias == Allocation(L, G, reserved)
  {
    hide Effective, EffectiveNames, Allocation;
    AllocationIs(L, G, reserved, byAlias);
  }
}
