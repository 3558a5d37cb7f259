/**
  Issue, rotation, revocation and offboarding of API keys. Each operation reads a snapshot and
  later takes one locked step; an `Action` is that step, carrying whatever stale snapshot and
  clock reading its transaction brought along, so a run is any interleaving of transactions.
*/
module KeyLifecycle {
  import opened Outcomes

  datatype KeyScope = Inference | Management | All

  datatype Key = Key(
    team: nat, owner: nat, sp: Option<nat>, scope: KeyScope, rpm: Option<nat>, expires: Option<int>, revokedAt: Option<int>)

  datatype Principal = Principal(team: nat, enabled: bool)

  /** `parent` records which key each rotation replaced. */
  datatype State = State(
    now: int, users: map<nat, bool>, sps: map<nat, Principal>, keys: map<nat, Key>, caps: map<nat, nat>,
    nextKey: nat, parent: map<nat, nat>)

  datatype Action =
    | Issue(key: Key)
    | Rotate(team: nat, id: nat, snapshot: Key, at: int, grace: nat)
    | Revoke(id: nat, at: int)
    | Deactivate(user: nat, at: int)
    | Reactivate(user: nat)
    | SetPrincipal(sp: nat, principal: Principal)
    | DeletePrincipal(sp: nat, at: int)
    | SetCap(id: nat, cap: Option<nat>)
    | Tick(delta: nat)

  /** A clock reading is never ahead of the step that uses it. */
  predicate Possible(s: State, a: Action) {
    match a
    case Rotate(_, _, _, at, _) => at <= s.now
    case Revoke(_, at) => at <= s.now
    case Deactivate(_, at) => at <= s.now
    case DeletePrincipal(_, at) => at <= s.now
    case Issue(key) => key.revokedAt.None?
    case _ => true
  }

  predicate ActiveUser(s: State, user: nat) { user in s.users && s.users[user] }

  predicate EnabledPrincipal(s: State, team: nat, sp: nat) {
    sp in s.sps && s.sps[sp].team == team && s.sps[sp].enabled
  }

  /** The locked check on whoever answers for a key: its owner, or its service principal. */
  predicate OwnerOk(s: State, team: nat, k: Key) {
    if k.sp.None? then ActiveUser(s, k.owner) else EnabledPrincipal(s, team, k.sp.value)
  }

  predicate MayIssue(s: State, k: Key) {
    (k.scope.Inference? || k.sp.Some?) && OwnerOk(s, k.team, k)
  }

  predicate MayRotate(s: State, team: nat, id: nat, snapshot: Key) {
    && OwnerOk(s, team, snapshot)
    && id in s.keys && s.keys[id].team == team && s.keys[id].revokedAt.None?
    && s.keys[id].owner == snapshot.owner && s.keys[id].sp == snapshot.sp
  }

  function Shortened(revokedAt: Option<int>, at: int): Option<int> {
    if revokedAt.None? || revokedAt.value > at then Some(at) else revokedAt
  }

  function RevokePersonal(keys: map<nat, Key>, user: nat, at: int): map<nat, Key> {
    map id | id in keys ::
      if keys[id].owner == user && keys[id].sp.None? then keys[id].(revokedAt := Shortened(keys[id].revokedAt, at)) else keys[id]
  }

  function RevokePrincipal(keys: map<nat, Key>, sp: nat, at: int): map<nat, Key> {
    map id | id in keys ::
      if keys[id].sp == Some(sp) then keys[id].(revokedAt := Shortened(keys[id].revokedAt, at), sp := None) else keys[id]
  }

  function SetCapOf(caps: map<nat, nat>, id: nat, cap: Option<nat>): map<nat, nat> {
    if cap.Some? then caps[id := cap.value] else caps - {id}
  }

  function CapOf(s: State, id: nat): Option<nat> { if id in s.caps then Some(s.caps[id]) else None }

  /** One committed transaction; a refused one changes nothing. */
  function Apply(s: State, a: Action): State {
    match a
    case Issue(key) =>
      if MayIssue(s, key) then s.(keys := s.keys[s.nextKey := key], nextKey := s.nextKey + 1) else s
    case Rotate(team, id, snapshot, at, grace) =>
      if MayRotate(s, team, id, snapshot) then
        var prior := s.keys[id];
        s.(keys := s.keys[s.nextKey := prior][id := prior.(revokedAt := Some(at + grace))],
           caps := SetCapOf(s.caps, s.nextKey, CapOf(s, id)),
           nextKey := s.nextKey + 1, parent := s.parent[s.nextKey := id])
      else s
    case Revoke(id, at) => if id in s.keys then s.(keys := s.keys[id := s.keys[id].(revokedAt := Some(at))]) else s
    case Deactivate(user, at) =>
      if user in s.users then s.(users := s.users[user := false], keys := RevokePersonal(s.keys, user, at)) else s
    case Reactivate(user) => if user in s.users then s.(users := s.users[user := true]) else s
    case SetPrincipal(sp, principal) => s.(sps := s.sps[sp := principal])
    case DeletePrincipal(sp, at) =>
      if sp in s.sps then s.(sps := s.sps - {sp}, keys := RevokePrincipal(s.keys, sp, at)) else s
    case SetCap(id, cap) => if id in s.keys then s.(caps := SetCapOf(s.caps, id, cap)) else s
    case Tick(delta) => s.(now := s.now + delta)
  }

  predicate ValidRun(s: State, run: seq<Action>)
    decreases |run|
  {
    run == [] || (Possible(s, run[0]) && ValidRun(Apply(s, run[0]), run[1..]))
  }

  function After(s: State, run: seq<Action>): State
    decreases |run|
  {
    if run == [] then s else After(Apply(s, run[0]), run[1..])
  }

  /** The last statement of `authenticate`: the point at which a request's key counts as valid. */
  predicate IsAuthenticatable(s: State, id: nat) {
    && id in s.keys
    && (s.keys[id].revokedAt.None? || s.keys[id].revokedAt.value > s.now)
    && (if s.keys[id].sp.None? then ActiveUser(s, s.keys[id].owner)
        else s.keys[id].sp.value in s.sps && s.sps[s.keys[id].sp.value].enabled)
  }

  // ---- Invariant ----

  /** All a rotation must preserve: everything but the revocation time. */
  function Terms(k: Key): Key { k.(revokedAt := None) }

  predicate FreshIds(s: State) {
    (forall id :: id in s.keys ==> id < s.nextKey) && (forall id :: id in s.caps ==> id < s.nextKey)
  }

  predicate Ordered(s: State) {
    forall c :: c in s.parent ==> c in s.keys && s.parent[c] in s.keys && s.parent[c] < c
  }

  predicate TermsKept(s: State)
    requires Ordered(s)
  {
    forall c :: c in s.parent ==> Terms(s.keys[c]) == Terms(s.keys[s.parent[c]])
  }

  predicate ReplacedAreScheduled(s: State)
    requires Ordered(s)
  {
    forall c :: c in s.parent ==> s.keys[s.parent[c]].revokedAt.Some?
  }

  predicate OneSuccessor(s: State) {
    forall c, d :: c in s.parent && d in s.parent && s.parent[c] == s.parent[d] ==> c == d
  }

  /**
    Ids are handed out once; a replacement's terms are its predecessor's; a replaced key carries a
    revocation time, and no key is replaced twice.
  */
  predicate Inv(s: State) {
    FreshIds(s) && Ordered(s) && TermsKept(s) && ReplacedAreScheduled(s) && OneSuccessor(s)
  }

  lemma RewriteKeepsInv(s: State, t: State)
    requires Inv(s) && t.keys.Keys == s.keys.Keys && t.caps == s.caps && t.parent == s.parent && t.nextKey == s.nextKey
    requires forall id :: id in s.keys && s.keys[id].revokedAt.Some? ==> t.keys[id].revokedAt.Some?
    requires forall i, j :: i in s.keys && j in s.keys && Terms(s.keys[i]) == Terms(s.keys[j])
                            ==> Terms(t.keys[i]) == Terms(t.keys[j])
    ensures Inv(t)
  {
    hide Terms;
  }

  /** What a rotation leaves behind. */
  predicate Rotated(s: State, t: State, id: nat, at: int) {
    && id in s.keys && s.keys[id].revokedAt.None? && s.nextKey !in s.keys
    && t.keys.Keys == s.keys.Keys + {s.nextKey} && id != s.nextKey
    && t.keys[s.nextKey] == s.keys[id] && t.keys[id] == s.keys[id].(revokedAt := Some(at))
    && (forall i :: i in s.keys && i != id ==> t.keys[i] == s.keys[i])
    && t.nextKey == s.nextKey + 1 && t.parent == s.parent[s.nextKey := id]
    && forall i :: i in t.caps ==> i in s.caps || i == s.nextKey
  }

  lemma RotationIs(s: State, a: Action)
    requires FreshIds(s) && a.Rotate? && MayRotate(s, a.team, a.id, a.snapshot)
    ensures Rotated(s, Apply(s, a), a.id, a.at + a.grace)
  {
    hide OwnerOk;
  }

  lemma RotatedIdsAreFresh(s: State, t: State, id: nat, at: int)
    requires FreshIds(s) && Ordered(s) && Rotated(s, t, id, at)
    ensures FreshIds(t) && Ordered(t)
  {
  }

  lemma RotatedTermsAreKept(s: State, t: State, id: nat, at: int)
    requires Ordered(s) && Ordered(t) && TermsKept(s) && Rotated(s, t, id, at)
    ensures TermsKept(t)
  {
    assert forall i :: i in s.keys ==> Terms(t.keys[i]) == Terms(s.keys[i]);
    assert Terms(t.keys[s.nextKey]) == Terms(s.keys[id]);
    hide Terms;
  }

  lemma RotatedAreScheduled(s: State, t: State, id: nat, at: int)
    requires Ordered(s) && Ordered(t) && ReplacedAreScheduled(s) && Rotated(s, t, id, at)
    ensures ReplacedAreScheduled(t)
    ensures forall c :: c in s.parent ==> s.parent[c] != id
  {
    forall c | c in s.parent ensures s.parent[c] != id { assert s.keys[s.parent[c]].revokedAt.Some?; }
  }

  lemma RotateKeepsInv(s: State, a: Action)
    requires Inv(s) && a.Rotate?
    ensures Inv(Apply(s, a))
  {
    if MayRotate(s, a.team, a.id, a.snapshot) {
      RotationIs(s, a);
      var t, at := Apply(s, a), a.at + a.grace;
      RotatedIdsAreFresh(s, t, a.id, at);
      RotatedTermsAreKept(s, t, a.id, at);
      RotatedAreScheduled(s, t, a.id, at);
      hide Apply, MayRotate, FreshIds, TermsKept, ReplacedAreScheduled, Ordered;
    }
  }

  lemma StepKeepsInv(s: State, a: Action)
    requires Inv(s) && Possible(s, a)
    ensures Inv(Apply(s, a))
  {
    hide OwnerOk, Inv, Apply;
    match a
    case Issue(_) => IssueKeepsInv(s, a);
    case Rotate(_, _, _, _, _) => RotateKeepsInv(s, a);
    case SetCap(_, _) => CapKeepsInv(s, a);
    case _ => OtherStepsKeepInv(s, a);
  }

  lemma RevokeKeepsInv(s: State, id: nat, at: int)
    requires Inv(s) && id in s.keys
    ensures Inv(s.(keys := s.keys[id := s.keys[id].(revokedAt := Some(at))]))
  {
    hide Inv;
    RewriteKeepsInv(s, s.(keys := s.keys[id := s.keys[id].(revokedAt := Some(at))]));
  }

  lemma OffboardingKeepsInv(s: State, users: map<nat, bool>, user: nat, at: int)
    requires Inv(s)
    ensures Inv(s.(users := users, keys := RevokePersonal(s.keys, user, at)))
  {
    hide Inv;
    RewriteKeepsInv(s, s.(users := users, keys := RevokePersonal(s.keys, user, at)));
  }

  lemma DeletionKeepsInv(s: State, sps: map<nat, Principal>, sp: nat, at: int)
    requires Inv(s)
    ensures Inv(s.(sps := sps, keys := RevokePrincipal(s.keys, sp, at)))
  {
    hide Inv;
    RewriteKeepsInv(s, s.(sps := sps, keys := RevokePrincipal(s.keys, sp, at)));
  }

  lemma SameKeysKeepInv(s: State, t: State)
    requires Inv(s) && t.keys == s.keys && t.caps == s.caps && t.parent == s.parent && t.nextKey == s.nextKey
    ensures Inv(t)
  {
    hide Terms;
  }

  lemma OtherStepsKeepInv(s: State, a: Action)
    requires Inv(s) && !a.Issue? && !a.Rotate? && !a.SetCap?
    ensures Inv(Apply(s, a))
  {
    hide Inv, RevokePersonal, RevokePrincipal;
    match a
    case Revoke(id, at) => if id in s.keys { RevokeKeepsInv(s, id, at); }
    case Deactivate(user, at) => OffboardingKeepsInv(s, s.users[user := false], user, at);
    case DeletePrincipal(sp, at) => DeletionKeepsInv(s, s.sps - {sp}, sp, at);
    case _ => SameKeysKeepInv(s, Apply(s, a));
  }

  lemma IssueKeepsInv(s: State, a: Action)
    requires Inv(s) && a.Issue?
    ensures Inv(Apply(s, a))
  {
    hide MayIssue, Terms;
  }

  lemma CapKeepsInv(s: State, a: Action)
    requires Inv(s) && a.SetCap?
    ensures Inv(Apply(s, a))
  {
    hide Terms;
  }

  lemma {:induction false} RunKeepsInv(s: State, run: seq<Action>)
    requires Inv(s) && ValidRun(s, run)
    ensures Inv(After(s, run))
    decreases |run|
  {
    hide Inv, Apply, Possible;
    if run != [] {
      StepKeepsInv(s, run[0]);
      RunKeepsInv(Apply(s, run[0]), run[1..]);
    }
  }

  // ---- Offboarding is final for the keys it met ----

  predicate Dead(s: State, id: nat) {
    id in s.keys && s.keys[id].revokedAt.Some? && s.keys[id].revokedAt.value <= s.now
  }

  lemma StepKeepsDead(s: State, a: Action, id: nat)
    requires Inv(s) && Possible(s, a) && Dead(s, id)
    ensures Dead(Apply(s, a), id)
  {
  }

  lemma {:induction false} RunKeepsDead(s: State, run: seq<Action>, id: nat)
    requires Inv(s) && ValidRun(s, run) && Dead(s, id)
    ensures Dead(After(s, run), id)
    decreases |run|
  {
    hide Inv, Apply, Possible, Dead;
    if run != [] {
      StepKeepsInv(s, run[0]);
      StepKeepsDead(s, run[0], id);
      RunKeepsDead(Apply(s, run[0]), run[1..], id);
    }
  }

  /**
    Whatever interleaving follows, reactivation, stale revocations and rotations begun before the
    offboarding included, a personal key its owner had when deactivated never authenticates again.
  */
  lemma DeactivationIsFinal(s: State, user: nat, at: int, id: nat, later: seq<Action>)
    requires Inv(s) && Possible(s, Deactivate(user, at)) && user in s.users
    requires id in s.keys && s.keys[id].owner == user && s.keys[id].sp.None?
    requires ValidRun(Apply(s, Deactivate(user, at)), later)
    ensures !IsAuthenticatable(After(Apply(s, Deactivate(user, at)), later), id)
  {
    StepKeepsInv(s, Deactivate(user, at));
    hide After, ValidRun, Inv;
    RunKeepsDead(Apply(s, Deactivate(user, at)), later, id);
  }

  /** Deleting a service principal is as final for its keys, though it leaves them looking personal. */
  lemma PrincipalDeletionIsFinal(s: State, sp: nat, at: int, id: nat, later: seq<Action>)
    requires Inv(s) && Possible(s, DeletePrincipal(sp, at)) && sp in s.sps
    requires id in s.keys && s.keys[id].sp == Some(sp)
    requires ValidRun(Apply(s, DeletePrincipal(sp, at)), later)
    ensures !IsAuthenticatable(After(Apply(s, DeletePrincipal(sp, at)), later), id)
  {
    StepKeepsInv(s, DeletePrincipal(sp, at));
    hide After, ValidRun, Inv;
    RunKeepsDead(Apply(s, DeletePrincipal(sp, at)), later, id);
  }

  /** So is a revocation, and it touches no other key. */
  lemma RevocationIsFinal(s: State, id: nat, at: int, later: seq<Action>)
    requires Inv(s) && Possible(s, Revoke(id, at)) && id in s.keys
    requires ValidRun(Apply(s, Revoke(id, at)), later)
    ensures !IsAuthenticatable(After(Apply(s, Revoke(id, at)), later), id)
    ensures Apply(s, Revoke(id, at)) == s.(keys := s.keys[id := s.keys[id].(revokedAt := Some(at))])
  {
    StepKeepsInv(s, Revoke(id, at));
    hide After, ValidRun, Inv;
    RunKeepsDead(Apply(s, Revoke(id, at)), later, id);
  }

  // ---- What each step leaves of the keys it does not mean ----

  /** The key's time is up by `at`, at the time it already had or at `at`; all else about it is as it was. */
  predicate CutShort(before: Key, after: Key, at: int) {
    && after.revokedAt.Some? && after.revokedAt.value <= at
    && (after.revokedAt == before.revokedAt || (after.revokedAt.value == at && (before.revokedAt.Some? ==> before.revokedAt.value > at)))
    && after.(revokedAt := before.revokedAt) == before
  }

  /** Offboarding cuts the user's personal keys short; other users' keys and those of service principals are as they were. */
  lemma DeactivationIs(s: State, user: nat, at: int)
    requires user in s.users
    ensures var t := Apply(s, Deactivate(user, at));
            && t.keys.Keys == s.keys.Keys && t.users == s.users[user := false]
            && t.sps == s.sps && t.caps == s.caps && t.parent == s.parent
            && (forall id :: id in s.keys ==>
                  if s.keys[id].owner == user && s.keys[id].sp.None? then CutShort(s.keys[id], t.keys[id], at)
                  else t.keys[id] == s.keys[id])
  {
  }

  /** Deleting a service principal cuts its keys short and orphans them; every other key is as it was. */
  lemma PrincipalDeletionIs(s: State, sp: nat, at: int)
    requires sp in s.sps
    ensures var t := Apply(s, DeletePrincipal(sp, at));
            && t.keys.Keys == s.keys.Keys && t.sps == s.sps - {sp}
            && t.users == s.users && t.caps == s.caps && t.parent == s.parent
            && (forall id :: id in s.keys ==>
                  if s.keys[id].sp == Some(sp)
                  then t.keys[id].sp.None? && CutShort(s.keys[id], t.keys[id].(sp := Some(sp)), at)
                  else t.keys[id] == s.keys[id])
  {
  }

  /** Whoever answers for a key: an active owner, or an enabled service principal. */
  predicate HolderIsLive(s: State, k: Key) {
    match k.sp
    case None => k.owner in s.users && s.users[k.owner]
    case Some(sp) => sp in s.sps && s.sps[sp].enabled
  }

  /**
    A key is issued exactly when a live holder answers for it, a principal of the key's own team, and
    only a principal's may do more than inference; once issued it works at once, and until it is revoked.
  */
  lemma IssuedKeysWork(s: State, key: Key, delta: nat)
    requires Inv(s) && key.revokedAt.None?
    ensures var t := Apply(s, Issue(key));
            && (s.nextKey in t.keys <==>
                  && HolderIsLive(s, key) && (key.sp.Some? ==> s.sps[key.sp.value].team == key.team)
                  && (key.scope.Inference? || key.sp.Some?))
            && (s.nextKey in t.keys ==>
                  t == s.(keys := s.keys[s.nextKey := key], nextKey := s.nextKey + 1)
                  && IsAuthenticatable(Apply(t, Tick(delta)), s.nextKey))
            && (s.nextKey !in t.keys ==> t == s)
  {
    assert s.nextKey !in s.keys;
    hide Inv;
  }

  /**
    A rotation happens exactly when the key is the team's, has no revocation scheduled, is held as the
    snapshot says, and its holder is live; then the old key works until the grace has passed and the
    new one, on the same terms, from now on.
  */
  lemma RotationOverlaps(s: State, team: nat, id: nat, snapshot: Key, at: int, grace: nat, delta: nat)
    requires Inv(s) && id in s.keys
    ensures var k, t := s.keys[id], Apply(s, Rotate(team, id, snapshot, at, grace));
            && (s.nextKey in t.keys <==>
                  && k.team == team && k.revokedAt.None? && (k.owner, k.sp) == (snapshot.owner, snapshot.sp)
                  && HolderIsLive(s, k) && (k.sp.Some? ==> s.sps[k.sp.value].team == team))
            && (s.nextKey !in t.keys ==> t == s)
            && (s.nextKey in t.keys ==>
                  && t.keys[s.nextKey] == k
                  && IsAuthenticatable(Apply(t, Tick(delta)), s.nextKey)
                  && (IsAuthenticatable(Apply(t, Tick(delta)), id) <==> s.now + delta < at + grace))
  {
    assert s.nextKey !in s.keys;
    hide Inv;
  }

  /** Disabling a service principal stops all its keys and no others; enabling it again restores them. */
  lemma KillSwitchIsReversible(s: State, sp: nat, id: nat)
    requires sp in s.sps && s.sps[sp].enabled && id in s.keys
    ensures var off := Apply(s, SetPrincipal(sp, Principal(s.sps[sp].team, false)));
            && (IsAuthenticatable(off, id) <==> IsAuthenticatable(s, id) && s.keys[id].sp != Some(sp))
            && Apply(off, SetPrincipal(sp, s.sps[sp])) == s
  {
    assert s.sps[sp := Principal(s.sps[sp].team, false)][sp := s.sps[sp]] == s.sps;
  }

  // ---- A personal key never manages ----

  predicate OnlyPrincipalsManage(s: State) {
    forall id :: id in s.keys && !s.keys[id].scope.Inference? ==> s.keys[id].sp.Some? || Dead(s, id)
  }

  lemma StepKeepsManagement(s: State, a: Action)
    requires Inv(s) && Possible(s, a) && OnlyPrincipalsManage(s)
    ensures OnlyPrincipalsManage(Apply(s, a))
  {
    var t := Apply(s, a);
    forall id | id in t.keys && !t.keys[id].scope.Inference? ensures t.keys[id].sp.Some? || Dead(t, id) {
      if id in s.keys && Dead(s, id) { StepKeepsDead(s, a, id); }
    }
  }

  /** In every run, no key without a service principal can do more than inference while it works. */
  lemma {:induction false} PersonalKeysOnlyInfer(s: State, run: seq<Action>, id: nat)
    requires Inv(s) && OnlyPrincipalsManage(s) && ValidRun(s, run)
    requires IsAuthenticatable(After(s, run), id) && After(s, run).keys[id].sp.None?
    ensures After(s, run).keys[id].scope.Inference?
    decreases |run|
  {
    hide Inv, Apply, Possible;
    if run != [] {
      StepKeepsInv(s, run[0]);
      StepKeepsManagement(s, run[0]);
      PersonalKeysOnlyInfer(Apply(s, run[0]), run[1..], id);
    }
  }

  // ---- Lineages ----

  function Root(s: State, id: nat): (r: nat)
    requires Inv(s)
    ensures r <= id
    ensures id !in s.parent ==> r == id
    decreases id
  {
    if id in s.parent then Root(s, s.parent[id]) else id
  }

  /** Every key of a lineage has the owner, principal, scope, rate limit and expiry of its first key. */
  lemma {:induction false} LineageSharesTerms(s: State, id: nat)
    requires Inv(s) && id in s.keys
    ensures Root(s, id) in s.keys && Terms(s.keys[id]) == Terms(s.keys[Root(s, id)])
    decreases id
  {
    if id in s.parent { LineageSharesTerms(s, s.parent[id]); }
  }

  /** A lineage is a chain: of two of its keys the earlier has a successor on the way to the later. */
  lemma {:induction false} SuccessorTowards(s: State, j: nat, k: nat) returns (c: nat)
    requires Inv(s) && j < k && Root(s, j) == Root(s, k)
    ensures c in s.parent && s.parent[c] == j && c <= k
    decreases k
  {
    var p := s.parent[k];
    if p == j { c := k; }
    else if p > j { c := SuccessorTowards(s, j, p); }
    else {
      c := SuccessorTowards(s, p, j);
      assert false;
    }
  }

  /** At every moment at most one key of a lineage has no revocation scheduled. */
  lemma OneOpenKeyPerLineage(s: State, j: nat, k: nat)
    requires Inv(s) && j in s.keys && k in s.keys && Root(s, j) == Root(s, k)
    requires s.keys[j].revokedAt.None? && s.keys[k].revokedAt.None?
    ensures j == k
  {
    if j < k { var _ := SuccessorTowards(s, j, k); }
    if k < j { var _ := SuccessorTowards(s, k, j); }
  }

  // ---- Caps follow a rotation, until one is set again ----

  predicate CapsAgree(s: State) {
    forall c :: c in s.parent ==> CapOf(s, c) == CapOf(s, s.parent[c])
  }

  predicate InLineage(s: State, id: nat) { id in s.parent || exists c :: c in s.parent && s.parent[c] == id }

  /** A rotation copies the cap; no other step but `SetCap` touches one. */
  lemma CapsAfter(s: State, a: Action, id: nat)
    requires Inv(s)
    ensures CapOf(Apply(s, a), id) ==
              if a.SetCap? && id == a.id && a.id in s.keys then a.cap
              else if a.Rotate? && MayRotate(s, a.team, a.id, a.snapshot) && id == s.nextKey then CapOf(s, a.id)
              else CapOf(s, id)
  {
    hide OwnerOk, TermsKept, RevokePersonal, RevokePrincipal;
  }

  lemma ParentsAfter(s: State, a: Action)
    requires Inv(s)
    ensures Apply(s, a).parent ==
              if a.Rotate? && MayRotate(s, a.team, a.id, a.snapshot) then s.parent[s.nextKey := a.id] else s.parent
    ensures s.nextKey !in s.parent && forall c :: c in s.parent ==> s.parent[c] != s.nextKey
  {
    hide OwnerOk, TermsKept, RevokePersonal, RevokePrincipal;
  }

  /** The step sets a cap, on a key that was rotated or is a replacement, other than the one it has. */
  predicate PartsCaps(s: State, a: Action) {
    a.SetCap? && a.id in s.keys && InLineage(s, a.id) && a.cap != CapOf(s, a.id)
  }

  /** Setting a cap is the one step that can part the caps of a lineage, and does so unless nothing changes. */
  lemma CapsAgreeIff(s: State, a: Action)
    requires Inv(s) && Possible(s, a) && CapsAgree(s)
    ensures CapsAgree(Apply(s, a)) <==> !PartsCaps(s, a)
  {
    var t := Apply(s, a);
    ParentsAfter(s, a);
    IdsAreKnown(s, a);
    hide Apply, Inv, MayRotate, CapOf, Possible;
    if PartsCaps(s, a) {
      CapsAfter(s, a, a.id);
      if a.id in s.parent {
        CapsAfter(s, a, s.parent[a.id]);
      } else {
        var c :| c in s.parent && s.parent[c] == a.id;
        CapsAfter(s, a, c);
      }
    } else {
      forall c | c in t.parent ensures CapOf(t, c) == CapOf(t, t.parent[c]) {
        CapsAfter(s, a, c);
        CapsAfter(s, a, t.parent[c]);
        if a.SetCap? && a.id in s.keys && (c == a.id || t.parent[c] == a.id) { assert InLineage(s, a.id); }
      }
    }
  }

  lemma IdsAreKnown(s: State, a: Action)
    requires Inv(s)
    ensures a.Rotate? && MayRotate(s, a.team, a.id, a.snapshot) ==> a.id != s.nextKey
    ensures forall c :: c in s.parent ==> s.parent[c] != c
  {
    hide OwnerOk, TermsKept;
  }

  /** Every replacement starts with its predecessor's cap at that moment. */
  lemma ReplacementStartsWithTheCap(s: State, a: Action)
    requires Inv(s) && a.Rotate? && MayRotate(s, a.team, a.id, a.snapshot)
    ensures var t := Apply(s, a);
            s.nextKey in t.parent && t.parent[s.nextKey] == a.id
            && CapOf(t, s.nextKey) == CapOf(t, a.id) == CapOf(s, a.id)
  {
    ParentsAfter(s, a);
    IdsAreKnown(s, a);
    CapsAfter(s, a, s.nextKey);
    CapsAfter(s, a, a.id);
    hide Apply, CapOf, MayRotate, Inv;
  }

  predicate NeverPartsCaps(s: State, run: seq<Action>)
    decreases |run|
  {
    run == [] || (!PartsCaps(s, run[0]) && NeverPartsCaps(Apply(s, run[0]), run[1..]))
  }

  lemma {:induction false} CapsAgreeAfter(s: State, run: seq<Action>)
    requires Inv(s) && CapsAgree(s) && ValidRun(s, run) && NeverPartsCaps(s, run)
    ensures Inv(After(s, run)) && CapsAgree(After(s, run))
    decreases |run|
  {
    hide Inv, Apply, Possible, CapsAgree, PartsCaps;
    if run != [] {
      StepKeepsInv(s, run[0]);
      CapsAgreeIff(s, run[0]);
      CapsAgreeAfter(Apply(s, run[0]), run[1..]);
    }
  }

  lemma {:induction false} LineageSharesTheCap(s: State, id: nat)
    requires Inv(s) && CapsAgree(s)
    ensures CapOf(s, id) == CapOf(s, Root(s, id))
    decreases id
  {
    hide CapOf;
    if id in s.parent { LineageSharesTheCap(s, s.parent[id]); }
  }

  /** After any run in which no step parts them, every key has the cap of the first key of its lineage. */
  lemma CapsFollowRotations(s: State, run: seq<Action>, id: nat)
    requires Inv(s) && CapsAgree(s) && ValidRun(s, run) && NeverPartsCaps(s, run)
    ensures Inv(After(s, run)) && CapOf(After(s, run), id) == CapOf(After(s, run), Root(After(s, run), id))
  {
    hide Inv, CapsAgree, ValidRun, After, NeverPartsCaps, CapOf, Root;
    CapsAgreeAfter(s, run);
    LineageSharesTheCap(After(s, run), id);
  }

  // ---- The service, step by step ----

  class KeyService {
    var state: State

    constructor (now: int, users: map<nat, bool>)
      ensures state == State(now, users, map[], map[], map[], 0, map[]) && Inv(state)
    {
      state := State(now, users, map[], map[], map[], 0, map[]);
    }

    method StageIssue(key: Key) returns (id: nat)
      modifies this
      ensures id == old(state).nextKey
      ensures state == old(state).(keys := old(state).keys[id := key], nextKey := id + 1)
    {
      id := state.nextKey;
      state := state.(keys := state.keys[id := key], nextKey := id + 1);
    }

    method IssueKey(key: Key) returns (id: Option<nat>)
      requires key.revokedAt.None?
      modifies this
      ensures state == Apply(old(state), Issue(key))
      ensures id.Some? <==> MayIssue(old(state), key)
    {
      if !key.scope.Inference? && key.sp.None? { return None; }
      if key.sp.None? {
        if !ActiveUser(state, key.owner) { return None; }
      } else if !EnabledPrincipal(state, key.team, key.sp.value) { return None; }
      var issued := StageIssue(key);
      return Some(issued);
    }

    /** Compare-and-set on the revocation time. */
    method ScheduleRevocation(id: nat, expected: Option<int>, at: int) returns (done: bool)
      requires id in state.keys
      modifies this
      ensures done <==> old(state).keys[id].revokedAt == expected
      ensures state == if done then old(state).(keys := old(state).keys[id := old(state).keys[id].(revokedAt := Some(at))])
                       else old(state)
    {
      done := state.keys[id].revokedAt == expected;
      if done { state := state.(keys := state.keys[id := state.keys[id].(revokedAt := Some(at))]); }
    }

    /** The locked half of a rotation, with the snapshot its unlocked half took. */
    method RotateForTeam(team: nat, id: nat, snapshot: Key, at: int, grace: nat) returns (replacement: Option<nat>)
      requires Inv(state)
      modifies this
      ensures state == Apply(old(state), Rotate(team, id, snapshot, at, grace))
      ensures replacement.Some? <==> MayRotate(old(state), team, id, snapshot)
    {
      if snapshot.sp.None? {
        if !ActiveUser(state, snapshot.owner) { return None; }
      } else if !EnabledPrincipal(state, team, snapshot.sp.value) { return None; }
      if id !in state.keys { return None; }
      var key := state.keys[id];
      if key.team != team || key.revokedAt.Some? || key.owner != snapshot.owner || key.sp != snapshot.sp { return None; }
      var issued := StageIssue(Key(team, key.owner, key.sp, key.scope, key.rpm, key.expires, None));
      var scheduled := ScheduleRevocation(id, None, at + grace);
      assert scheduled;
      state := state.(caps := SetCapOf(state.caps, issued, CapOf(state, id)), parent := state.parent[issued := id]);
      return Some(issued);
    }

    /** The write of a revocation whose check saw the key active. */
    method RevokeForTeam(id: nat, at: int)
      modifies this
      ensures state == Apply(old(state), Revoke(id, at))
    {
      if id in state.keys { state := state.(keys := state.keys[id := state.keys[id].(revokedAt := Some(at))]); }
    }

    /** Offboarding: keys first, then the account, in one transaction. */
    method DeactivateUser(user: nat, at: int)
      modifies this
      ensures state == Apply(old(state), Deactivate(user, at))
    {
      if user !in state.users { return; }
      state := state.(keys := RevokePersonal(state.keys, user, at));
      state := state.(users := state.users[user := false]);
    }
  }
}
