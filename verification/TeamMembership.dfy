/**
  Team memberships: creating teams, changing and removing members, and the reconciliation of one
  SSO user's memberships with the groups of a login.
*/
module TeamMembership {
  import opened Outcomes

  datatype Role = Admin | Member | ModelManager | KeyIssuer | BillingViewer

  /** One role per (team, user). */
  type Roster = map<(nat, nat), Role>

  datatype Change = Added(team: nat, role: Role) | Updated(team: nat, role: Role) | Removed(team: nat)

  function RoleOf(rows: Roster, team: nat, user: nat): Option<Role> {
    if (team, user) in rows then Some(rows[(team, user)]) else None
  }

  function AdminsOf(rows: Roster, team: nat): (admins: set<nat>)
    ensures forall u :: u in admins <==> RoleOf(rows, team, u) == Some(Admin)
  {
    set k | k in rows && k.0 == team && rows[k].Admin? :: k.1
  }

  predicate IsLastAdmin(rows: Roster, team: nat, user: nat) {
    RoleOf(rows, team, user) == Some(Admin) && |AdminsOf(rows, team)| == 1
  }

  lemma LastAdminIs(rows: Roster, team: nat, user: nat)
    ensures IsLastAdmin(rows, team, user) <==> AdminsOf(rows, team) == {user}
  {
    var admins := AdminsOf(rows, team);
    if IsLastAdmin(rows, team, user) {
      assert |admins - {user}| == 0;
      assert admins == {user} + (admins - {user});
    }
  }

  // ---- Reconciliation, one team at a time ----

  /** The role a governed team leaves the user with. */
  function Settled(rows: Roster, live: set<nat>, user: nat, desired: map<nat, Role>, team: nat): Option<Role> {
    var current := RoleOf(rows, team, user);
    if team !in live then current
    else if team !in desired then
      if current.None? || (current.value.Admin? && IsLastAdmin(rows, team, user)) then current else None
    else if current.None? then Some(desired[team])
    else if current.value == desired[team]
         || (current.value.Admin? && !desired[team].Admin? && IsLastAdmin(rows, team, user)) then current
    else Some(desired[team])
  }

  /** The whole reconciliation, with no order in it. */
  function RoleAfter(rows: Roster, live: set<nat>, user: nat, desired: map<nat, Role>, governed: set<nat>, k: (nat, nat))
    : Option<Role>
  {
    if k.1 == user && k.0 in governed then Settled(rows, live, user, desired, k.0) else RoleOf(rows, k.0, k.1)
  }

  function Reconciled(rows: Roster, live: set<nat>, user: nat, desired: map<nat, Role>, governed: set<nat>): (r: Roster)
    ensures forall t, u :: RoleOf(r, t, u) == RoleAfter(rows, live, user, desired, governed, (t, u))
  {
    var candidates := rows.Keys + set t | t in governed :: (t, user);
    var r := map k | k in candidates && RoleAfter(rows, live, user, desired, governed, k).Some? ::
      RoleAfter(rows, live, user, desired, governed, k).value;
    assert forall t: nat, u: nat :: RoleAfter(rows, live, user, desired, governed, (t, u)).Some? ==> (t, u) in candidates;
    r
  }

  lemma SameRoles(r: Roster, s: Roster)
    requires forall t, u :: RoleOf(r, t, u) == RoleOf(s, t, u)
    ensures r == s
  {
    forall k: (nat, nat) ensures (k in r <==> k in s) && (k in r ==> r[k] == s[k]) {
      assert k == (k.0, k.1) && RoleOf(r, k.0, k.1) == RoleOf(s, k.0, k.1);
    }
    assert r.Keys == s.Keys;
  }

  /** The change that turned `before` into `after`, if they differ. */
  function Diff(team: nat, before: Option<Role>, after: Option<Role>): Option<Change> {
    if before == after then None
    else if after.None? then Some(Removed(team))
    else if before.None? then Some(Added(team, after.value))
    else Some(Updated(team, after.value))
  }

  /** The changes report exactly the before/after difference over `teams`, each team once. */
  ghost predicate Reports(changes: seq<Change>, before: Roster, after: Roster, user: nat, teams: set<nat>) {
    && (forall i, j :: 0 <= i < j < |changes| ==> changes[i].team != changes[j].team)
    && (forall c :: c in changes ==> c.team in teams)
    && (forall t :: t in teams ==>
          var d := Diff(t, RoleOf(before, t, user), RoleOf(after, t, user));
          if d.Some? then d.value in changes else forall c :: c in changes ==> c.team != t)
  }

  /** Only rows of a team decide who is its last admin. */
  lemma LastAdminIsLocal(r: Roster, s: Roster, team: nat, user: nat)
    requires forall u :: RoleOf(r, team, u) == RoleOf(s, team, u)
    ensures IsLastAdmin(r, team, user) <==> IsLastAdmin(s, team, user)
  {
    assert AdminsOf(r, team) == AdminsOf(s, team);
  }

  lemma SettledIsLocal(r: Roster, s: Roster, live: set<nat>, user: nat, desired: map<nat, Role>, team: nat)
    requires forall u :: RoleOf(r, team, u) == RoleOf(s, team, u)
    ensures Settled(r, live, user, desired, team) == Settled(s, live, user, desired, team)
  {
    LastAdminIsLocal(r, s, team, user);
  }

  class MembershipService {
    var rows: Roster
    var live: set<nat>

    constructor ()
      ensures rows == map[] && live == {}
    {
      rows, live := map[], {};
    }

    /** What the loop does for one governed team. */
    method SettleTeam(user: nat, desired: map<nat, Role>, team: nat) returns (change: Option<Change>)
      modifies this`rows
      ensures forall t, u :: RoleOf(rows, t, u) ==
                if t == team && u == user then Settled(old(rows), live, user, desired, team) else RoleOf(old(rows), t, u)
      ensures change == Diff(team, RoleOf(old(rows), team, user), RoleOf(rows, team, user))
    {
      if team !in live { return None; }
      var existing := RoleOf(rows, team, user);
      if team !in desired {
        if existing.Some? && !(existing.value.Admin? && IsLastAdmin(rows, team, user)) {
          rows := rows - {(team, user)};
          return Some(Removed(team));
        }
        return None;
      }
      var role := desired[team];
      if existing.None? {
        rows := rows[(team, user) := role];
        return Some(Added(team, role));
      }
      if existing.value != role && !(existing.value.Admin? && !role.Admin? && IsLastAdmin(rows, team, user)) {
        rows := rows[(team, user) := role];
        return Some(Updated(team, role));
      }
      return None;
    }

    /** Iterates the governed teams in whatever order the set yields them. */
    method ReconcileSsoMemberships(user: nat, desired: map<nat, Role>, governed: set<nat>) returns (changes: seq<Change>)
      modifies this`rows
      ensures rows == Reconciled(old(rows), live, user, desired, governed)
      ensures Reports(changes, old(rows), rows, user, governed)
    {
      hide Settled, Reports;
      changes := [];
      var todo := governed;
      assert governed - todo == {};
      NothingToReport(rows, user);
      while todo != {}
        invariant todo <= governed
        invariant forall t, u :: RoleOf(rows, t, u) == RoleAfter(old(rows), live, user, desired, governed - todo, (t, u))
        invariant Reports(changes, old(rows), rows, user, governed - todo)
        decreases |todo|
      {
        var team :| team in todo;
        ghost var before, done := rows, governed - todo;
        SettledIsLocal(rows, old(rows), live, user, desired, team);
        var change := SettleTeam(user, desired, team);
        ReportOneMore(changes, old(rows), before, rows, user, done, team, change);
        if change.Some? { changes := changes + [change.value]; }
        todo := todo - {team};
        assert governed - todo == done + {team};
      }
      assert governed - todo == governed;
      SameRoles(rows, Reconciled(old(rows), live, user, desired, governed));
    }
  }

  lemma NothingToReport(rows: Roster, user: nat)
    ensures Reports([], rows, rows, user, {})
  {
  }

  lemma ReportOneMore(changes: seq<Change>, start: Roster, before: Roster, after: Roster, user: nat, done: set<nat>,
                      team: nat, change: Option<Change>)
    requires Reports(changes, start, before, user, done) && team !in done
    requires RoleOf(before, team, user) == RoleOf(start, team, user)
    requires forall t :: t != team ==> RoleOf(after, t, user) == RoleOf(before, t, user)
    requires change == Diff(team, RoleOf(before, team, user), RoleOf(after, team, user))
    ensures Reports(if change.Some? then changes + [change.value] else changes, start, after, user, done + {team})
  {
    assert forall i :: 0 <= i < |changes| ==> changes[i] in changes;
  }

  // ---- What a reconciliation means ----

  /** Each governed live team ends at the desired role, unless the user is its last admin. */
  lemma EndsAsDesired(rows: Roster, live: set<nat>, user: nat, desired: map<nat, Role>, governed: set<nat>, team: nat)
    requires team in governed && team in live
    ensures var after := RoleOf(Reconciled(rows, live, user, desired, governed), team, user);
            var wanted := if team in desired then Some(desired[team]) else None;
            after == if IsLastAdmin(rows, team, user) && wanted != Some(Admin) then Some(Admin) else wanted
  {
  }

  /** Nobody else's membership, and no ungoverned team, is touched. */
  lemma OthersUntouched(rows: Roster, live: set<nat>, user: nat, desired: map<nat, Role>, governed: set<nat>, team: nat, other: nat)
    requires other != user || team !in governed
    ensures RoleOf(Reconciled(rows, live, user, desired, governed), team, other) == RoleOf(rows, team, other)
  {
  }

  /** Reconciling again changes nothing. */
  lemma ReconcileIsIdempotent(rows: Roster, live: set<nat>, user: nat, desired: map<nat, Role>, governed: set<nat>)
    ensures var once := Reconciled(rows, live, user, desired, governed);
            Reconciled(once, live, user, desired, governed) == once
  {
    var once := Reconciled(rows, live, user, desired, governed);
    forall t, u ensures RoleAfter(once, live, user, desired, governed, (t, u)) == RoleOf(once, t, u) {
      if u == user && t in governed {
        if RoleOf(once, t, user) == RoleOf(rows, t, user) {
          SettledIsLocal(once, rows, live, user, desired, t);
        }
      }
    }
    SameRoles(Reconciled(once, live, user, desired, governed), once);
  }

  /**
    What the report says: an addition is of a role the user did not have in the team, a removal of one
    the user has no longer, an update of one now different; and every difference is in it.
  */
  lemma ReportedChangesAre(changes: seq<Change>, before: Roster, after: Roster, user: nat, teams: set<nat>)
    requires Reports(changes, before, after, user, teams)
    ensures forall c :: c in changes ==>
              var was, now := RoleOf(before, c.team, user), RoleOf(after, c.team, user);
              match c
              case Added(_, role) => was.None? && now == Some(role)
              case Updated(_, role) => was.Some? && was != now && now == Some(role)
              case Removed(_) => was.Some? && now.None?
    ensures forall t :: t in teams && RoleOf(before, t, user) != RoleOf(after, t, user) ==> exists c :: c in changes && c.team == t
  {
    forall c | c in changes ensures Diff(c.team, RoleOf(before, c.team, user), RoleOf(after, c.team, user)) == Some(c) {
      var i :| 0 <= i < |changes| && changes[i] == c;
      var d := Diff(c.team, RoleOf(before, c.team, user), RoleOf(after, c.team, user));
      assert d.Some? && d.value in changes;
      var j :| 0 <= j < |changes| && changes[j] == d.value;
      assert changes[i].team == changes[j].team;
    }
  }

  // ---- No sequence of undivided operations takes a team's last admin ----

  datatype Operation =
    | CreateTeam(team: nat, actor: nat, lead: nat)
    | AddMember(team: nat, user: nat, role: Role)
    | SetRole(team: nat, user: nat, role: Role)
    | RemoveMember(team: nat, user: nat)
    | Reconcile(user: nat, desired: map<nat, Role>, governed: set<nat>)

  datatype Teams = Teams(rows: Roster, live: set<nat>)

  /** One committed operation by an actor who holds the permission; a refused one changes nothing. */
  function Apply(s: Teams, op: Operation): Teams {
    match op
    case CreateTeam(team, actor, lead) =>
      if team in s.live || AdminsOf(s.rows, team) != {} then s
      else Teams(s.rows[(team, actor) := Admin][(team, lead) := Admin], s.live + {team})
    case AddMember(team, user, role) =>
      if team !in s.live || (team, user) in s.rows then s else s.(rows := s.rows[(team, user) := role])
    case SetRole(team, user, role) =>
      if (team, user) !in s.rows || (s.rows[(team, user)].Admin? && !role.Admin? && IsLastAdmin(s.rows, team, user)) then s
      else s.(rows := s.rows[(team, user) := role])
    case RemoveMember(team, user) =>
      if (team, user) !in s.rows || IsLastAdmin(s.rows, team, user) then s else s.(rows := s.rows - {(team, user)})
    case Reconcile(user, desired, governed) => s.(rows := Reconciled(s.rows, s.live, user, desired, governed))
  }

  /**
    The roles after each single operation. A new team has its creator and its lead as admins; nobody is
    added twice; and the one admin left in a team can be neither demoted nor removed.
  */
  lemma OperationIs(s: Teams, op: Operation, t: nat, u: nat)
    requires !op.Reconcile?
    ensures var was, now := RoleOf(s.rows, t, u), RoleOf(Apply(s, op).rows, t, u);
            match op
            case CreateTeam(team, actor, lead) =>
              now == if team !in s.live && AdminsOf(s.rows, team) == {} && t == team && (u == actor || u == lead) then Some(Admin) else was
            case AddMember(team, user, role) =>
              now == if team in s.live && was.None? && (t, u) == (team, user) then Some(role) else was
            case SetRole(team, user, role) =>
              now == if was.Some? && (t, u) == (team, user) && (AdminsOf(s.rows, team) != {user} || role == Admin) then Some(role) else was
            case RemoveMember(team, user) =>
              now == if (t, u) == (team, user) && AdminsOf(s.rows, team) != {user} then None else was
    ensures Apply(s, op).live ==
              if op.CreateTeam? && AdminsOf(s.rows, op.team) == {} then s.live + {op.team} else s.live
  {
    if op.SetRole? || op.RemoveMember? { LastAdminIs(s.rows, op.team, op.user); }
    hide IsLastAdmin, AdminsOf;
  }

  function After(s: Teams, ops: seq<Operation>): Teams
    decreases |ops|
  {
    if ops == [] then s else After(Apply(s, ops[0]), ops[1..])
  }

  ghost predicate EveryTeamHasAnAdmin(s: Teams) { forall t :: t in s.live ==> AdminsOf(s.rows, t) != {} }

  /** An admin who is not the last leaves another behind. */
  lemma AnotherAdmin(rows: Roster, team: nat, user: nat) returns (other: nat)
    requires AdminsOf(rows, team) != {} && !IsLastAdmin(rows, team, user)
    ensures other in AdminsOf(rows, team) && other != user
  {
    LastAdminIs(rows, team, user);
    other :| other in AdminsOf(rows, team) && other != user;
  }

  lemma ChangeKeepsAdmin(rows: Roster, after: Roster, team: nat, user: nat)
    requires AdminsOf(rows, team) != {}
    requires forall u :: u != user ==> RoleOf(after, team, u) == RoleOf(rows, team, u)
    requires IsLastAdmin(rows, team, user) ==> RoleOf(after, team, user) == Some(Admin)
    ensures AdminsOf(after, team) != {}
  {
    if IsLastAdmin(rows, team, user) {
      assert user in AdminsOf(after, team);
    } else {
      var other := AnotherAdmin(rows, team, user);
      assert other in AdminsOf(after, team);
    }
  }

  lemma StepKeepsAdmins(s: Teams, op: Operation)
    requires EveryTeamHasAnAdmin(s)
    ensures EveryTeamHasAnAdmin(Apply(s, op))
  {
    hide IsLastAdmin;
    var after := Apply(s, op);
    forall t | t in after.live ensures AdminsOf(after.rows, t) != {} {
      match op
      case CreateTeam(team, actor, _) =>
        if t == team && after != s { assert actor in AdminsOf(after.rows, t); }
        else { assert AdminsOf(after.rows, t) == AdminsOf(s.rows, t); }
      case Reconcile(user, desired, governed) =>
        LastIsAdmin(s.rows, t, user);
        if t in governed { EndsAsDesired(s.rows, s.live, user, desired, governed, t); }
        else { OthersUntouched(s.rows, s.live, user, desired, governed, t, user); }
        ChangeKeepsAdmin(s.rows, after.rows, t, user);
      case AddMember(_, user, _) => LastIsAdmin(s.rows, t, user); ChangeKeepsAdmin(s.rows, after.rows, t, user);
      case SetRole(_, user, _) => LastIsAdmin(s.rows, t, user); ChangeKeepsAdmin(s.rows, after.rows, t, user);
      case RemoveMember(_, user) => LastIsAdmin(s.rows, t, user); ChangeKeepsAdmin(s.rows, after.rows, t, user);
    }
  }

  lemma LastIsAdmin(rows: Roster, team: nat, user: nat)
    ensures IsLastAdmin(rows, team, user) ==> RoleOf(rows, team, user) == Some(Admin)
  {
  }

  /** Over any sequence of undivided operations, no team loses its last admin. */
  lemma {:induction false} SerialRunsKeepAdmins(s: Teams, ops: seq<Operation>)
    requires EveryTeamHasAnAdmin(s)
    ensures EveryTeamHasAnAdmin(After(s, ops))
    decreases |ops|
  {
    hide Apply, EveryTeamHasAnAdmin;
    if ops != [] {
      StepKeepsAdmins(s, ops[0]);
      SerialRunsKeepAdmins(Apply(s, ops[0]), ops[1..]);
    }
  }

  // ---- The check and the write it guards share no lock ----

  /** The three writes a last-admin check guards; `Settle` is one team of a reconciliation. */
  datatype Write =
    | Demote(team: nat, user: nat, role: Role)
    | Remove(team: nat, user: nat)
    | Settle(team: nat, user: nat, wanted: Option<Role>)

  function Wanted(w: Write): Option<Role> {
    match w
    case Demote(_, _, role) => Some(role)
    case Remove(_, _) => None
    case Settle(_, _, wanted) => wanted
  }

  /** The check on the rows it saw: there is something to do, and it does not take the last admin. */
  predicate Acts(seen: Roster, w: Write) {
    var current := RoleOf(seen, w.team, w.user);
    && (if w.Settle? then current != w.wanted else current.Some?)
    && !(current == Some(Admin) && Wanted(w) != Some(Admin) && IsLastAdmin(seen, w.team, w.user))
  }

  /** The write on the rows it finds: a row seen is updated or removed if still there, one not seen is added if still absent. */
  function Written(rows: Roster, seen: Roster, w: Write): Roster {
    var k := (w.team, w.user);
    if Wanted(w).None? then rows - {k}
    else if (k in seen) == (k in rows) then rows[k := Wanted(w).value]
    else rows
  }

  /** With nothing in between, check and write of one team are the reconciliation's step. */
  lemma UndividedWriteSettles(rows: Roster, live: set<nat>, user: nat, desired: map<nat, Role>, team: nat)
    requires team in live
    ensures var w := Settle(team, user, if team in desired then Some(desired[team]) else None);
            RoleOf(if Acts(rows, w) then Written(rows, rows, w) else rows, team, user) == Settled(rows, live, user, desired, team)
  {
  }

  /** So it is for a demotion and a removal: with nothing in between they are the undivided operations. */
  lemma UndividedWriteIsTheOperation(rows: Roster, live: set<nat>, w: Write)
    requires !w.Settle?
    ensures (if Acts(rows, w) then Written(rows, rows, w) else rows) ==
              Apply(Teams(rows, live), if w.Demote? then SetRole(w.team, w.user, w.role) else RemoveMember(w.team, w.user)).rows
  {
    hide IsLastAdmin;
    LastIsAdmin(rows, w.team, w.user);
  }

  lemma WrittenIsLocal(rows: Roster, seen: Roster, w: Write, team: nat, user: nat)
    requires team != w.team || user != w.user
    ensures RoleOf(Written(rows, seen, w), team, user) == RoleOf(rows, team, user)
  {
  }

  /**
    All three writes alike: one whose check passed on older rows empties its team exactly when it
    takes a role it saw from a user who has become the last admin since.
  */
  lemma WriteEmptiesIff(rows: Roster, seen: Roster, w: Write)
    requires AdminsOf(rows, w.team) != {} && Acts(seen, w)
    ensures AdminsOf(Written(rows, seen, w), w.team) == {} <==>
              RoleOf(seen, w.team, w.user).Some? && Wanted(w) != Some(Admin) && IsLastAdmin(rows, w.team, w.user)
  {
    var after := Written(rows, seen, w);
    forall u | u != w.user ensures RoleOf(after, w.team, u) == RoleOf(rows, w.team, u) {
      WrittenIsLocal(rows, seen, w, w.team, u);
    }
    if RoleOf(seen, w.team, w.user).Some? && Wanted(w) != Some(Admin) && IsLastAdmin(rows, w.team, w.user) {
      LastAdminIs(rows, w.team, w.user);
      forall u ensures u !in AdminsOf(after, w.team) { assert u != w.user ==> u !in AdminsOf(rows, w.team); }
    } else {
      ChangeKeepsAdmin(rows, after, w.team, w.user);
    }
  }

  datatype Pending = Pending(write: Write, seen: Roster)

  datatype Shared = Shared(rows: Roster, live: set<nat>, pending: map<nat, Pending>)

  datatype Action =
    | Create(team: nat, actor: nat, lead: nat)
    | Add(team: nat, user: nat, role: Role)
    | Check(tx: nat, write: Write)
    | Commit(tx: nat)

  function Step(s: Shared, a: Action): Shared {
    match a
    case Create(team, actor, lead) =>
      var t := Apply(Teams(s.rows, s.live), CreateTeam(team, actor, lead));
      s.(rows := t.rows, live := t.live)
    case Add(team, user, role) => s.(rows := Apply(Teams(s.rows, s.live), AddMember(team, user, role)).rows)
    case Check(tx, w) =>
      if tx !in s.pending && w.team in s.live && Acts(s.rows, w) then s.(pending := s.pending[tx := Pending(w, s.rows)]) else s
    case Commit(tx) =>
      if tx in s.pending then s.(rows := Written(s.rows, s.pending[tx].seen, s.pending[tx].write), pending := s.pending - {tx}) else s
  }

  /** No other admin the check saw in the team has been lost by the time of the write. */
  predicate Undisturbed(s: Shared, a: Action) {
    a.Commit? && a.tx in s.pending ==>
      var p := s.pending[a.tx];
      AdminsOf(p.seen, p.write.team) - {p.write.user} <= AdminsOf(s.rows, p.write.team)
  }

  predicate ValidRun(s: Shared, run: seq<Action>)
    decreases |run|
  {
    run == [] || (Undisturbed(s, run[0]) && ValidRun(Step(s, run[0]), run[1..]))
  }

  function AfterRun(s: Shared, run: seq<Action>): Shared
    decreases |run|
  {
    if run == [] then s else AfterRun(Step(s, run[0]), run[1..])
  }

  /** Every team has an admin, and had one whenever a pending check looked. */
  ghost predicate Guarded(s: Shared) {
    && EveryTeamHasAnAdmin(Teams(s.rows, s.live))
    && (forall tx :: tx in s.pending ==>
          var p := s.pending[tx];
          p.write.team in s.live && Acts(p.seen, p.write) && AdminsOf(p.seen, p.write.team) != {})
  }

  lemma UndisturbedWriteKeepsAdmin(rows: Roster, seen: Roster, w: Write)
    requires AdminsOf(rows, w.team) != {} && AdminsOf(seen, w.team) != {} && Acts(seen, w)
    requires AdminsOf(seen, w.team) - {w.user} <= AdminsOf(rows, w.team)
    ensures AdminsOf(Written(rows, seen, w), w.team) != {}
  {
    WriteEmptiesIff(rows, seen, w);
    hide Written;
    LastAdminIs(rows, w.team, w.user);
    if !IsLastAdmin(seen, w.team, w.user) {
      var other := AnotherAdmin(seen, w.team, w.user);
      assert other in AdminsOf(rows, w.team);
    }
  }

  lemma StepKeepsGuard(s: Shared, a: Action)
    requires Guarded(s) && Undisturbed(s, a)
    ensures Guarded(Step(s, a))
  {
    hide Apply, Acts, Written, AdminsOf;
    match a
    case Create(team, actor, lead) =>
      StepKeepsAdmins(Teams(s.rows, s.live), CreateTeam(team, actor, lead));
      LiveOnlyGrows(Teams(s.rows, s.live), CreateTeam(team, actor, lead));
    case Add(team, user, role) =>
      StepKeepsAdmins(Teams(s.rows, s.live), AddMember(team, user, role));
      LiveOnlyGrows(Teams(s.rows, s.live), AddMember(team, user, role));
    case Check(_, _) =>
    case Commit(tx) =>
      if tx in s.pending {
        var p := s.pending[tx];
        UndisturbedWriteKeepsAdmin(s.rows, p.seen, p.write);
        forall t | t in s.live && t != p.write.team ensures AdminsOf(Written(s.rows, p.seen, p.write), t) != {} {
          OtherTeamsKeepAdmins(s.rows, p.seen, p.write, t);
        }
      }
  }

  lemma LiveOnlyGrows(s: Teams, op: Operation)
    ensures s.live <= Apply(s, op).live && (!op.CreateTeam? ==> Apply(s, op).live == s.live)
  {
  }

  lemma OtherTeamsKeepAdmins(rows: Roster, seen: Roster, w: Write, team: nat)
    requires team != w.team
    ensures AdminsOf(Written(rows, seen, w), team) == AdminsOf(rows, team)
  {
    forall u ensures u in AdminsOf(Written(rows, seen, w), team) <==> u in AdminsOf(rows, team) {
      WrittenIsLocal(rows, seen, w, team, u);
    }
  }

  /**
    Over any interleaving of checks and writes, no team loses its last admin, as long as no other
    admin of the team is lost between an operation's check and its write.
  */
  lemma {:induction false} NoTeamLosesItsLastAdmin(s: Shared, run: seq<Action>)
    requires Guarded(s) && ValidRun(s, run)
    ensures Guarded(AfterRun(s, run))
    decreases |run|
  {
    hide Guarded, Step, Undisturbed;
    if run != [] {
      StepKeepsGuard(s, run[0]);
      NoTeamLosesItsLastAdmin(Step(s, run[0]), run[1..]);
    }
  }

  /** Without that, it happens: two admins demote each other, each check seeing the other still there. */
  lemma MutualDemotionRace(team: nat, a: nat, b: nat)
    requires a != b
    ensures var s := Shared(map[(team, a) := Admin, (team, b) := Admin], {team}, map[]);
            var run := [Check(0, Demote(team, a, Member)), Check(1, Demote(team, b, Member)), Commit(0), Commit(1)];
            && Guarded(s) && team in AfterRun(s, run).live && AdminsOf(AfterRun(s, run).rows, team) == {}
  {
    var rows: Roster := map[(team, a) := Admin, (team, b) := Admin];
    var s := Shared(rows, {team}, map[]);
    var wa, wb := Demote(team, a, Member), Demote(team, b, Member);
    BothPass(rows, wa, wb);
    var run := [Check(0, wa), Check(1, wb), Commit(0), Commit(1)];
    hide Acts, AdminsOf, IsLastAdmin;
    var s1 := Step(s, run[0]);
    var s2 := Step(s1, run[1]);
    assert s2.rows == rows && s2.pending == map[0 := Pending(wa, rows), 1 := Pending(wb, rows)];
    var s3 := Step(s2, run[2]);
    assert s3.rows == rows[(team, a) := Member];
    var s4 := Step(s3, run[3]);
    assert s4.rows == rows[(team, a) := Member][(team, b) := Member];
    assert run[1..][1..][1..][1..] == [];
    assert AfterRun(s, run) == AfterRun(s1, run[1..]) == AfterRun(s2, run[1..][1..])
        == AfterRun(s3, run[1..][1..][1..]) == AfterRun(s4, run[1..][1..][1..][1..]) == s4;
  }

  lemma BothPass(rows: Roster, wa: Write, wb: Write)
    requires wa.Demote? && wb.Demote? && wa.team == wb.team && wa.user != wb.user && wa.role == wb.role == Member
    requires rows == map[(wa.team, wa.user) := Admin, (wa.team, wb.user) := Admin]
    ensures Acts(rows, wa) && Acts(rows, wb) && AdminsOf(rows, wa.team) != {}
    ensures AdminsOf(rows[(wa.team, wa.user) := Member][(wa.team, wb.user) := Member], wa.team) == {}
  {
    assert wa.user in AdminsOf(rows, wa.team) && wb.user in AdminsOf(rows, wa.team);
    LastAdminIs(rows, wa.team, wa.user);
    LastAdminIs(rows, wa.team, wb.user);
  }
}
