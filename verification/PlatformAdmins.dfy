/**
  Platform administrators: enabling, promoting and deleting accounts, SCIM updates and SSO logins.
  An `Action` is the locked, committed half of an operation with the snapshot its unlocked half
  read, so a run is any interleaving of transactions by actors whose view may be stale.
*/
module PlatformAdmins {
  import opened Outcomes

  datatype By = Nobody | ByAdmin | ByScim

  /** `email` and `externalId` stand for the normalized address and the identity provider's id. */
  datatype User = User(active: bool, admin: bool, disabledBy: By, email: nat, externalId: Option<nat>)

  type Users = map<nat, User>

  datatype Action =
    | Bootstrap(id: nat, email: nat)
    | Create(id: nat, active: bool, admin: bool, email: nat, externalId: Option<nat>)
    | SetActive(actor: nat, target: nat, active: bool)
    | SetAdmin(actor: nat, target: nat, admin: bool)
    | Delete(actor: nat, target: nat, referenced: bool)
    | ScimIdentity(target: nat, email: nat, externalId: Option<nat>, snapshot: User)
    | Scim(target: nat, wanted: Option<bool>, snapshot: User, refreshed: User)
    | SsoBind(target: nat, group: bool, snapshot: User)

  predicate LiveAdmin(us: Users, id: nat) { id in us && us[id].active && us[id].admin }

  /** The re-check of the actor under the lock on the admin set. */
  predicate MayAct(us: Users, actor: nat, target: nat) { actor != target && LiveAdmin(us, actor) && target in us }

  function Activated(u: User, active: bool, disabler: By): User {
    u.(active := active, disabledBy := if active then Nobody else disabler)
  }

  /** The guards SCIM applies to its snapshot and again to the locked row. */
  predicate ScimRefuses(u: User, active: bool) {
    (u.admin && !active) || (active && !u.active && u.disabledBy.ByAdmin?)
  }

  /** The unique constraints on addresses and external ids. */
  predicate Taken(us: Users, id: nat, email: nat, externalId: Option<nat>) {
    exists j :: j in us && j != id && (us[j].email == email || (externalId.Some? && us[j].externalId == externalId))
  }

  /** The identity half of an update, committed on its own; it looks at the snapshot only. */
  predicate MayIdentify(us: Users, target: nat, email: nat, externalId: Option<nat>, snapshot: User) {
    !snapshot.admin && target in us && !Taken(us, target, email, externalId)
  }

  predicate ChangesIdentity(snapshot: User, email: nat, externalId: Option<nat>) {
    email != snapshot.email || externalId != snapshot.externalId
  }

  /** The transition: guards on the first snapshot, a change against the second, and both again on the locked row. */
  function ScimApply(us: Users, target: nat, wanted: Option<bool>, snapshot: User, refreshed: User): Users {
    var active := if wanted.Some? then wanted.value else snapshot.active;
    if ScimRefuses(snapshot, active) || active == refreshed.active || target !in us then us
    else if ScimRefuses(us[target], active) || us[target].active == active then us
    else us[target := Activated(us[target], active, ByScim)]
  }

  function Apply(us: Users, a: Action): Users {
    match a
    case Bootstrap(id, email) => if us == map[] then map[id := User(true, true, Nobody, email, None)] else us
    case Create(id, active, admin, email, externalId) =>
      if id in us || Taken(us, id, email, externalId) then us else us[id := User(active, admin, Nobody, email, externalId)]
    case SetActive(actor, target, active) =>
      if MayAct(us, actor, target) then us[target := Activated(us[target], active, ByAdmin)] else us
    case SetAdmin(actor, target, admin) =>
      if MayAct(us, actor, target) then us[target := us[target].(admin := admin)] else us
    case Delete(actor, target, referenced) => if MayAct(us, actor, target) && !referenced then us - {target} else us
    case ScimIdentity(target, email, externalId, snapshot) =>
      if ChangesIdentity(snapshot, email, externalId) && MayIdentify(us, target, email, externalId, snapshot)
      then us[target := us[target].(email := email, externalId := externalId)] else us
    case Scim(target, wanted, snapshot, refreshed) => ScimApply(us, target, wanted, snapshot, refreshed)
    case SsoBind(target, group, snapshot) =>
      if target in us then us[target := us[target].(admin := snapshot.admin || group)] else us
  }

  /** A login whose snapshot of the admin flag is still current. */
  predicate Fresh(us: Users, a: Action) { a.SsoBind? && a.target in us ==> a.snapshot.admin == us[a.target].admin }

  predicate ValidRun(us: Users, run: seq<Action>)
    decreases |run|
  {
    run == [] || (Fresh(us, run[0]) && ValidRun(Apply(us, run[0]), run[1..]))
  }

  function After(us: Users, run: seq<Action>): Users
    decreases |run|
  {
    if run == [] then us else After(Apply(us, run[0]), run[1..])
  }

  ghost predicate HasAdmin(us: Users) { exists id :: LiveAdmin(us, id) }

  predicate OnlyLiveAdmin(us: Users, id: nat) { LiveAdmin(us, id) && forall j :: j in us && LiveAdmin(us, j) ==> j == id }

  /**
    The one step that can leave no live admin: a login that writes back a stale "not an admin" over
    the only live one.
  */
  lemma AdminRemainsIff(us: Users, a: Action)
    requires HasAdmin(us)
    ensures HasAdmin(Apply(us, a)) <==>
              !(a.SsoBind? && OnlyLiveAdmin(us, a.target) && !a.snapshot.admin && !a.group)
  {
    var id :| LiveAdmin(us, id);
    var after := Apply(us, a);
    match a
    case Bootstrap(_, _) => assert LiveAdmin(after, id);
    case Create(_, _, _, _, _) => assert LiveAdmin(after, id);
    case SetActive(actor, target, _) =>
      if MayAct(us, actor, target) { assert LiveAdmin(after, actor); } else { assert LiveAdmin(after, id); }
    case SetAdmin(actor, target, _) =>
      if MayAct(us, actor, target) { assert LiveAdmin(after, actor); } else { assert LiveAdmin(after, id); }
    case Delete(actor, target, _) =>
      if MayAct(us, actor, target) { assert LiveAdmin(after, actor); } else { assert LiveAdmin(after, id); }
    case ScimIdentity(_, _, _, _) => assert LiveAdmin(after, id);
    case Scim(_, _, _, _) => assert LiveAdmin(after, id);
    case SsoBind(target, group, snapshot) =>
      if !OnlyLiveAdmin(us, target) {
        if LiveAdmin(us, target) {
          var j :| j in us && LiveAdmin(us, j) && j != target;
          assert LiveAdmin(after, j);
        } else {
          assert id != target && LiveAdmin(after, id);
        }
      } else if snapshot.admin || group {
        assert LiveAdmin(after, target);
      } else {
        forall j ensures !LiveAdmin(after, j) { assert j in us && j != target ==> !LiveAdmin(us, j); }
      }
  }

  /** From bootstrap on, no interleaving of transactions leaves the platform without a live admin. */
  lemma {:induction false} PlatformKeepsAnAdmin(us: Users, run: seq<Action>)
    requires HasAdmin(us) && ValidRun(us, run)
    ensures HasAdmin(After(us, run))
    decreases |run|
  {
    hide Apply, HasAdmin;
    if run != [] {
      StepKeepsAnAdmin(us, run[0]);
      PlatformKeepsAnAdmin(Apply(us, run[0]), run[1..]);
    }
  }

  lemma StepKeepsAnAdmin(us: Users, a: Action)
    requires HasAdmin(us) && Fresh(us, a)
    ensures HasAdmin(Apply(us, a))
  {
    AdminRemainsIff(us, a);
  }

  /** With a stale login the promise fails: promote, be demoted by the promoted, then write back the old flag. */
  lemma StaleLoginLosesTheLastAdmin(a: nat, b: nat, snapshot: User)
    requires a != b && !snapshot.admin
    ensures var us := map[a := User(true, true, Nobody, a, None), b := User(true, false, Nobody, b, None)];
            var run := [SetAdmin(a, b, true), SetAdmin(b, a, false), SsoBind(b, false, snapshot)];
            HasAdmin(us) && !HasAdmin(After(us, run))
  {
    var us := map[a := User(true, true, Nobody, a, None), b := User(true, false, Nobody, b, None)];
    assert LiveAdmin(us, a);
    var s1 := Apply(us, SetAdmin(a, b, true));
    var s2 := Apply(s1, SetAdmin(b, a, false));
    var s3 := Apply(s2, SsoBind(b, false, snapshot));
    var run := [SetAdmin(a, b, true), SetAdmin(b, a, false), SsoBind(b, false, snapshot)];
    assert run[1..] == [SetAdmin(b, a, false), SsoBind(b, false, snapshot)];
    assert run[1..][1..] == [SsoBind(b, false, snapshot)] && run[1..][1..][1..] == [];
    assert After(us, run) == After(s1, run[1..]) == After(s2, run[1..][1..]) == After(s3, run[1..][1..][1..]) == s3;
    assert forall j :: !LiveAdmin(s3, j);
  }

  // ---- What each step leaves of the account it names ----

  /** Another account, and a live admin's: who an admin's action needs as its actor. */
  predicate AnotherLiveAdmin(us: Users, actor: nat, target: nat) {
    actor != target && target in us && actor in us && us[actor].active && us[actor].admin
  }

  /** Disabling marks the account as disabled by an admin, enabling clears the mark, and neither touches anything else. */
  lemma SetActiveIs(us: Users, actor: nat, target: nat, active: bool)
    ensures var after := Apply(us, SetActive(actor, target, active));
            if !AnotherLiveAdmin(us, actor, target) then after == us
            else
              var u := us[target];
              after == us[target := User(active, u.admin, if active then Nobody else ByAdmin, u.email, u.externalId)]
  {
  }

  /** A grant or withdrawal sets the flag alone. */
  lemma SetAdminIs(us: Users, actor: nat, target: nat, admin: bool)
    ensures var after := Apply(us, SetAdmin(actor, target, admin));
            if !AnotherLiveAdmin(us, actor, target) then after == us
            else
              var u := us[target];
              after == us[target := User(u.active, admin, u.disabledBy, u.email, u.externalId)]
  {
  }

  lemma DeleteIs(us: Users, actor: nat, target: nat, referenced: bool)
    ensures Apply(us, Delete(actor, target, referenced))
            == if AnotherLiveAdmin(us, actor, target) && !referenced then us - {target} else us
  {
  }

  /** A login sets the flag alone; with a current snapshot it only ever grants it. */
  lemma LoginIs(us: Users, target: nat, group: bool, snapshot: User)
    requires target in us
    ensures var after, u := Apply(us, SsoBind(target, group, snapshot)), us[target];
            && after == us[target := User(u.active, snapshot.admin || group, u.disabledBy, u.email, u.externalId)]
            && (snapshot.admin == u.admin ==> (after[target].admin <==> u.admin || group))
  {
  }

  /**
    When SCIM changes whether an account is active, and what it then looks like. It disables whom
    neither its snapshot nor the locked row shows to be an admin, and enables whom neither shows to
    have been disabled by one; it changes nothing else.
  */
  lemma ScimSwitchesIff(us: Users, target: nat, wanted: Option<bool>, snapshot: User, refreshed: User)
    requires target in us
    ensures var after, u := Apply(us, Scim(target, wanted, snapshot, refreshed)), us[target];
            var active := if wanted.Some? then wanted.value else snapshot.active;
            && (after != us <==>
                  && active != refreshed.active && active != u.active
                  && (!active ==> !snapshot.admin && !u.admin)
                  && (active ==> (snapshot.active || snapshot.disabledBy != ByAdmin) && u.disabledBy != ByAdmin))
            && (after != us ==>
                  after == us[target := User(active, u.admin, if active then Nobody else ByScim, u.email, u.externalId)])
  {
    var after := Apply(us, Scim(target, wanted, snapshot, refreshed));
    assert after != us <==> after[target] != us[target];
  }

  /** SCIM may undo its own disabling, and then nothing is left of it. */
  lemma ScimUndoesItsOwn(us: Users, target: nat)
    requires target in us && us[target].active && us[target].disabledBy.Nobody? && !us[target].admin
    ensures var off := Apply(us, Scim(target, Some(false), us[target], us[target]));
            && target in off && !off[target].active
            && Apply(off, Scim(target, Some(true), off[target], off[target])) == us
  {
    ScimSwitchesIff(us, target, Some(false), us[target], us[target]);
    var off := Apply(us, Scim(target, Some(false), us[target], us[target]));
    ScimSwitchesIff(off, target, Some(true), off[target], off[target]);
    hide ScimApply;
  }

  /** No other account has the address, nor the external id if one is given. */
  predicate Free(us: Users, id: nat, email: nat, externalId: Option<nat>) {
    && (forall j :: j in us && us[j].email == email ==> j == id)
    && (externalId.Some? ==> forall j :: j in us && us[j].externalId == externalId ==> j == id)
  }

  /** An identity is written when it is new to a snapshot that is no admin's, and free. */
  lemma ScimIdentityIs(us: Users, target: nat, email: nat, externalId: Option<nat>, snapshot: User)
    requires target in us
    ensures var after, u := Apply(us, ScimIdentity(target, email, externalId, snapshot)), us[target];
            after == if !snapshot.admin && (email, externalId) != (snapshot.email, snapshot.externalId) && Free(us, target, email, externalId)
                     then us[target := User(u.active, u.admin, u.disabledBy, email, externalId)] else us
  {
    assert Free(us, target, email, externalId) <==> !Taken(us, target, email, externalId);
  }

  lemma CreateIs(us: Users, id: nat, active: bool, admin: bool, email: nat, externalId: Option<nat>)
    ensures Apply(us, Create(id, active, admin, email, externalId))
            == if id !in us && Free(us, id, email, externalId) then us[id := User(active, admin, Nobody, email, externalId)] else us
  {
    assert Free(us, id, email, externalId) <==> !Taken(us, id, email, externalId);
  }

  // ---- An account disabled by an admin stays disabled ----

  predicate DisabledByAdmin(us: Users, id: nat) { id in us && !us[id].active && us[id].disabledBy.ByAdmin? }

  /** Only an admin's own enabling, or a deletion, ends an admin's disabling; SCIM and SSO never do. */
  lemma DisabledUntilAnAdminActs(us: Users, a: Action, id: nat)
    requires DisabledByAdmin(us, id)
    ensures !DisabledByAdmin(Apply(us, a), id) <==>
              (a.SetActive? || a.Delete?) && a.target == id && MayAct(us, a.actor, id)
              && (a.SetActive? ==> a.active) && (a.Delete? ==> !a.referenced)
  {
  }

  /** An action by which an admin could end it. */
  predicate EndsDisabling(a: Action, id: nat) {
    (a.SetActive? && a.target == id && a.active) || (a.Delete? && a.target == id)
  }

  lemma {:induction false} ScimNeverResurrects(us: Users, run: seq<Action>, id: nat)
    requires DisabledByAdmin(us, id)
    requires forall i :: 0 <= i < |run| ==> !EndsDisabling(run[i], id)
    ensures DisabledByAdmin(After(us, run), id)
    decreases |run|
  {
    hide Apply, DisabledByAdmin;
    if run != [] {
      DisabledUntilAnAdminActs(us, run[0], id);
      assert forall i :: 0 <= i < |run[1..]| ==> run[1..][i] == run[i + 1];
      ScimNeverResurrects(Apply(us, run[0]), run[1..], id);
    }
  }

  /**
    From the disabling on: once a live admin has disabled another account, no SCIM update and no login
    makes it active again, in any run in which no admin enables or deletes it.
  */
  lemma DisablingIsFinal(us: Users, actor: nat, id: nat, run: seq<Action>)
    requires AnotherLiveAdmin(us, actor, id) && forall i :: 0 <= i < |run| ==> !EndsDisabling(run[i], id)
    ensures var end := After(Apply(us, SetActive(actor, id, false)), run);
            id in end && !end[id].active && end[id].disabledBy == ByAdmin
  {
    SetActiveIs(us, actor, id, false);
    hide Apply, After;
    ScimNeverResurrects(Apply(us, SetActive(actor, id, false)), run, id);
  }

  // ---- Identities ----

  predicate UniqueIdentities(us: Users) {
    forall i, j :: i in us && j in us && i != j ==>
      us[i].email != us[j].email && (us[i].externalId.Some? ==> us[i].externalId != us[j].externalId)
  }

  lemma StepKeepsIdentitiesUnique(us: Users, a: Action)
    requires UniqueIdentities(us)
    ensures UniqueIdentities(Apply(us, a))
  {
    var after := Apply(us, a);
    forall i, j | i in after && j in after && i != j
      ensures after[i].email != after[j].email && (after[i].externalId.Some? ==> after[i].externalId != after[j].externalId)
    {
      if a.ScimIdentity? && after != us { assert !Taken(us, a.target, a.email, a.externalId); }
      if a.Create? && after != us { assert !Taken(us, a.id, a.email, a.externalId); }
    }
  }

  /**
    SCIM leaves a platform admin's identity alone unless the account was promoted after the
    snapshot was read: the identity write has no lock and no re-check.
  */
  lemma ScimIdentifiesAnAdminIff(us: Users, target: nat, email: nat, externalId: Option<nat>, snapshot: User)
    requires target in us && us[target].admin && !Taken(us, target, email, externalId)
    requires ChangesIdentity(snapshot, email, externalId) && ChangesIdentity(us[target], email, externalId)
    ensures Apply(us, ScimIdentity(target, email, externalId, snapshot)) != us <==> !snapshot.admin
    ensures forall id :: id in us && id != target ==>
              Apply(us, ScimIdentity(target, email, externalId, snapshot))[id] == us[id]
  {
    var after := Apply(us, ScimIdentity(target, email, externalId, snapshot));
    assert !snapshot.admin ==> after[target] != us[target];
  }

  // ---- The services, step by step ----

  class UserService {
    var users: Users

    constructor ()
      ensures users == map[]
    {
      users := map[];
    }

    method EnsureAdmin(id: nat, email: nat)
      modifies this
      ensures users == Apply(old(users), Bootstrap(id, email))
      ensures HasAdmin(old(users)) || old(users) == map[] ==> HasAdmin(users)
      ensures users == if old(users) == map[] then map[id := User(true, true, Nobody, email, None)] else old(users)
    {
      if |users| > 0 { return; }
      users := map[id := User(true, true, Nobody, email, None)];
      assert LiveAdmin(users, id);
    }

    /** `snapshot` is the actor as the request was authenticated. */
    method SetUserActive(actor: nat, snapshot: User, target: nat, active: bool) returns (ok: bool)
      modifies this
      ensures users == if snapshot.admin then Apply(old(users), SetActive(actor, target, active)) else old(users)
      ensures ok <==> snapshot.admin && MayAct(old(users), actor, target)
    {
      if !snapshot.admin || actor == target || !LiveAdmin(users, actor) || target !in users { return false; }
      users := users[target := Activated(users[target], active, ByAdmin)];
      return true;
    }

    method SetUserAdmin(actor: nat, snapshot: User, target: nat, admin: bool) returns (ok: bool)
      modifies this
      ensures users == if snapshot.admin then Apply(old(users), SetAdmin(actor, target, admin)) else old(users)
      ensures ok <==> snapshot.admin && MayAct(old(users), actor, target)
    {
      if !snapshot.admin || actor == target || !LiveAdmin(users, actor) || target !in users { return false; }
      users := users[target := users[target].(admin := admin)];
      return true;
    }

    method DeleteUser(actor: nat, snapshot: User, target: nat, referenced: bool) returns (ok: bool)
      modifies this
      ensures users == if snapshot.admin then Apply(old(users), Delete(actor, target, referenced)) else old(users)
      ensures ok <==> snapshot.admin && MayAct(old(users), actor, target) && !referenced
    {
      if !snapshot.admin || actor == target || !LiveAdmin(users, actor) || target !in users || referenced { return false; }
      users := users - {target};
      return true;
    }

    /** A SCIM PUT or PATCH; `snapshot` is the unlocked read, and None leaves an attribute as it was. */
    method ScimUpdate(target: nat, email: Option<nat>, externalId: Option<nat>, wanted: Option<bool>, snapshot: User)
      returns (ok: bool)
      modifies this
      ensures var newEmail := if email.Some? then email.value else snapshot.email;
              var newId := if externalId.Some? then externalId else snapshot.externalId;
              var active := if wanted.Some? then wanted.value else snapshot.active;
              var identified := Apply(old(users), ScimIdentity(target, newEmail, newId, snapshot));
              if ScimRefuses(snapshot, active) then !ok && users == old(users)
              else if !ChangesIdentity(snapshot, newEmail, newId) then
                users == Apply(old(users), Scim(target, wanted, snapshot, snapshot))
              else if !MayIdentify(old(users), target, newEmail, newId, snapshot) then !ok && users == old(users)
              else users == Apply(identified, Scim(target, wanted, snapshot, identified[target]))
    {
      var newEmail := if email.Some? then email.value else snapshot.email;
      var newId := if externalId.Some? then externalId else snapshot.externalId;
      var active := if wanted.Some? then wanted.value else snapshot.active;
      if ScimRefuses(snapshot, active) { return false; }
      var user := snapshot;
      if ChangesIdentity(snapshot, newEmail, newId) {
        if snapshot.admin || target !in users || Taken(users, target, newEmail, newId) { return false; }
        users := users[target := users[target].(email := newEmail, externalId := newId)];
        user := users[target];
      }
      if active != user.active {
        if target !in users || ScimRefuses(users[target], active) { return false; }
        if users[target].active != active {
          users := users[target := Activated(users[target], active, ByScim)];
        }
      }
      return true;
    }
  }
}
