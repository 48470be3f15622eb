/**
 * System-role synchronisation (index.php, lines 245-282): the wanted
 * shortnames are collected from the role claims and the mapping table,
 * then every assignable role gets exactly one role_assign or role_unassign
 * in the system context, made as component 'auth_saml'.
 *
 * The role-assignment table is a set of Assignment rows. As the directory's
 * contract: role_assign adds its row and never duplicates it, role_unassign
 * removes exactly its row (the one tagged with the given component) and is
 * harmless when the row is absent.
 */
module RoleSync {
  import opened SamlTypes
  import opened PhpStrings

  const SamlComponent := "auth_saml"

  // ---- Wanted shortnames (lines 252-259) ----

  /** Shortname x is granted by one of the claims: some row of the table
      with that shortname lists one of the claim values. */
  ghost predicate Wanted(x: string, claims: seq<string>, mapping: seq<MappingEntry>) {
    exists i, j :: 0 <= i < |claims| && 0 <= j < |mapping| &&
      mapping[j].shortname == x && claims[i] in mapping[j].values
  }

  /** The shortnames the inner loop appends for one claim, in table order. */
  function MatchesOf(claim: string, mapping: seq<MappingEntry>): (r: seq<string>)
    ensures forall x :: x in r <==>
      exists j :: 0 <= j < |mapping| && mapping[j].shortname == x && claim in mapping[j].values
  {
    if mapping == [] then []
    else
      var last := mapping[|mapping| - 1];
      var earlier := MatchesOf(claim, mapping[..|mapping| - 1]);
      assert forall j :: 0 <= j < |mapping| - 1 ==> mapping[..|mapping| - 1][j] == mapping[j];
      earlier + (if claim in last.values then [last.shortname] else [])
  }

  /** `$usersystemroles` after both loops: contains exactly the wanted shortnames. */
  function SystemRolesFor(claims: seq<string>, mapping: seq<MappingEntry>): (r: seq<string>)
    ensures forall x :: x in r <==> Wanted(x, claims, mapping)
  {
    if claims == [] then []
    else
      var init := claims[..|claims| - 1];
      var earlier := SystemRolesFor(init, mapping);
      var r := earlier + MatchesOf(claims[|claims| - 1], mapping);
      assert forall x :: Wanted(x, claims, mapping) <==>
        (Wanted(x, init, mapping) || x in MatchesOf(claims[|claims| - 1], mapping)) by {
        forall x ensures Wanted(x, claims, mapping) ==>
          (Wanted(x, init, mapping) || x in MatchesOf(claims[|claims| - 1], mapping)) {
          if Wanted(x, claims, mapping) {
            var i, j :| 0 <= i < |claims| && 0 <= j < |mapping| &&
              mapping[j].shortname == x && claims[i] in mapping[j].values;
            if i < |claims| - 1 {
              assert init[i] == claims[i];
            }
          }
        }
        forall x ensures Wanted(x, init, mapping) ==> Wanted(x, claims, mapping) {
          if Wanted(x, init, mapping) {
            var i, j :| 0 <= i < |init| && 0 <= j < |mapping| &&
              mapping[j].shortname == x && init[i] in mapping[j].values;
            assert claims[i] == init[i];
          }
        }
      }
      r
  }

  /** Lines 252-259: the nested foreach that builds `$usersystemroles`. */
  method CollectSystemRoles(samlroles: seq<string>, rolemapping: seq<MappingEntry>)
    returns (usersystemroles: seq<string>)
    ensures usersystemroles == SystemRolesFor(samlroles, rolemapping)
    ensures forall x :: x in usersystemroles <==> Wanted(x, samlroles, rolemapping)
  {
    usersystemroles := [];
    var i := 0;
    while i < |samlroles|
      invariant 0 <= i <= |samlroles|
      invariant usersystemroles == SystemRolesFor(samlroles[..i], rolemapping)
    {
      var samlrole := samlroles[i];
      var j := 0;
      while j < |rolemapping|
        invariant 0 <= j <= |rolemapping|
        invariant usersystemroles ==
          SystemRolesFor(samlroles[..i], rolemapping) + MatchesOf(samlrole, rolemapping[..j])
      {
        assert rolemapping[..j + 1][..j] == rolemapping[..j];
        if samlrole in rolemapping[j].values {
          usersystemroles := usersystemroles + [rolemapping[j].shortname];
        }
        j := j + 1;
      }
      assert rolemapping[..j] == rolemapping;
      assert samlroles[..i + 1][..i] == samlroles[..i];
      i := i + 1;
    }
    assert samlroles[..i] == samlroles;
  }

  // ---- One operation per role (lines 265-281) ----

  /** The row a call for this role reads or writes. */
  function RowFor(role: Role, userid: int, contextid: int): Assignment {
    Assignment(role.id, userid, contextid, SamlComponent)
  }

  /** Lines 266-280: assign when the lower-cased shortname is wanted,
      otherwise unassign; both for the 'auth_saml' row of this role. */
  function RoleOpFor(role: Role, wanted: seq<string>, userid: int, contextid: int): (op: RoleOp)
    ensures op.target == Assignment(role.id, userid, contextid, SamlComponent)
    ensures op.Assign? <==> ToLower(role.shortname) in wanted
  {
    if ToLower(role.shortname) in wanted then Assign(RowFor(role, userid, contextid))
    else Unassign(RowFor(role, userid, contextid))
  }

  /** The calls the loop over `$roles` makes: one per role, in list order. */
  function PlannedOps(roles: seq<Role>, wanted: seq<string>, userid: int, contextid: int): (ops: seq<RoleOp>)
    ensures |ops| == |roles|
    ensures forall k :: 0 <= k < |roles| ==> ops[k] == RoleOpFor(roles[k], wanted, userid, contextid)
  {
    if roles == [] then []
    else
      var init := roles[..|roles| - 1];
      var earlier := PlannedOps(init, wanted, userid, contextid);
      assert forall k :: 0 <= k < |init| ==> init[k] == roles[k];
      earlier + [RoleOpFor(roles[|roles| - 1], wanted, userid, contextid)]
  }

  // ---- Effect on the role-assignment table ----

  function ApplyOp(rows: set<Assignment>, op: RoleOp): set<Assignment> {
    match op
    case Assign(a) => rows + {a}
    case Unassign(a) => rows - {a}
  }

  /** The table after the calls, made in order. */
  function ApplyOps(rows: set<Assignment>, ops: seq<RoleOp>): set<Assignment>
  {
    if ops == [] then rows
    else ApplyOp(ApplyOps(rows, ops[..|ops| - 1]), ops[|ops| - 1])
  }

  /** What the last call touching row t did to it: Some(true) for an assign,
      Some(false) for an unassign, None if no call touched it. */
  function LastEffect(ops: seq<RoleOp>, t: Assignment): (e: Option<bool>)
    ensures e.None? <==> forall k :: 0 <= k < |ops| ==> ops[k].target != t
    ensures e.Some? ==> exists k :: (0 <= k < |ops| && ops[k].target == t && e.value == ops[k].Assign? &&
                                      forall m :: k < m < |ops| ==> ops[m].target != t)
  {
    if ops == [] then None
    else if ops[|ops| - 1].target == t then Some(ops[|ops| - 1].Assign?)
    else
      var init := ops[..|ops| - 1];
      assert forall k :: 0 <= k < |init| ==> init[k] == ops[k];
      LastEffect(init, t)
  }

  /** A row is in the table afterwards iff the last call touching it was an
      assign, or no call touched it and it was there before. */
  lemma {:induction false} ApplyOpsMembership(rows: set<Assignment>, ops: seq<RoleOp>, t: Assignment)
    ensures t in ApplyOps(rows, ops) <==>
      if LastEffect(ops, t).Some? then LastEffect(ops, t).value else t in rows
  {
    if ops != [] {
      ApplyOpsMembership(rows, ops[..|ops| - 1], t);
    }
  }

  /** Making the same calls a second time leaves the table as the first time did. */
  lemma ApplyOpsIdempotent(rows: set<Assignment>, ops: seq<RoleOp>)
    ensures ApplyOps(ApplyOps(rows, ops), ops) == ApplyOps(rows, ops)
  {
    var once := ApplyOps(rows, ops);
    forall t ensures t in ApplyOps(once, ops) <==> t in once {
      ApplyOpsMembership(once, ops, t);
      ApplyOpsMembership(rows, ops, t);
    }
  }

  /** Running the role sync twice with the same inputs gives the table one run gives. */
  lemma SyncIdempotent(rows: set<Assignment>, roles: seq<Role>, wanted: seq<string>, userid: int, contextid: int)
    ensures var ops := PlannedOps(roles, wanted, userid, contextid);
            ApplyOps(ApplyOps(rows, ops), ops) == ApplyOps(rows, ops)
  {
    ApplyOpsIdempotent(rows, PlannedOps(roles, wanted, userid, contextid));
  }

  /** Rows made by another component, or for another user or context, are untouched. */
  lemma SyncLeavesOtherRows(rows: set<Assignment>, roles: seq<Role>, wanted: seq<string>,
                            userid: int, contextid: int, t: Assignment)
    requires t.component != SamlComponent || t.userid != userid || t.contextid != contextid
    ensures t in ApplyOps(rows, PlannedOps(roles, wanted, userid, contextid)) <==> t in rows
  {
    var ops := PlannedOps(roles, wanted, userid, contextid);
    ApplyOpsMembership(rows, ops, t);
  }

  /** With distinct role ids, afterwards the plugin's row for each assignable
      role is present exactly when the role is wanted. */
  lemma SyncReflectsWanted(rows: set<Assignment>, roles: seq<Role>, wanted: seq<string>,
                           userid: int, contextid: int, k: nat)
    requires k < |roles|
    requires forall a, b :: 0 <= a < b < |roles| ==> roles[a].id != roles[b].id
    ensures RowFor(roles[k], userid, contextid) in ApplyOps(rows, PlannedOps(roles, wanted, userid, contextid))
            <==> ToLower(roles[k].shortname) in wanted
  {
    var ops := PlannedOps(roles, wanted, userid, contextid);
    var t := RowFor(roles[k], userid, contextid);
    ApplyOpsMembership(rows, ops, t);
    LastEffectIsOnlyTouch(ops, t, k);
  }

  /** When only call k touches row t, that call decides t's fate. */
  lemma {:induction false} LastEffectIsOnlyTouch(ops: seq<RoleOp>, t: Assignment, k: nat)
    requires k < |ops| && ops[k].target == t
    requires forall m :: 0 <= m < |ops| && m != k ==> ops[m].target != t
    ensures LastEffect(ops, t) == Some(ops[k].Assign?)
  {
    if k < |ops| - 1 {
      var init := ops[..|ops| - 1];
      assert forall m :: 0 <= m < |init| ==> init[m] == ops[m];
      LastEffectIsOnlyTouch(init, t, k);
    }
  }

  /** With distinct role ids the second run finds nothing to do: every call
      it makes leaves the table as the first run left it. */
  lemma SecondRunChangesNothing(rows: set<Assignment>, roles: seq<Role>, wanted: seq<string>,
                                userid: int, contextid: int, k: nat)
    requires k < |roles|
    requires forall a, b :: 0 <= a < b < |roles| ==> roles[a].id != roles[b].id
    ensures var ops := PlannedOps(roles, wanted, userid, contextid);
            ApplyOp(ApplyOps(rows, ops), ops[k]) == ApplyOps(rows, ops)
  {
    SyncReflectsWanted(rows, roles, wanted, userid, contextid, k);
  }

  /** A worked example: a "staff" claim, the table
      {editingteacher: [staff], student: [learner]}, assignable roles
      editingteacher and student, and a prior student row made by the plugin.
      The calls are assign(editingteacher) then unassign(student), and the
      table ends holding the editingteacher row only. */
  lemma StaffClaimExample(userid: int, contextid: int)
    ensures var roles := [Role(3, "editingteacher"), Role(5, "student")];
            var mapping := [MappingEntry("editingteacher", ["staff"]), MappingEntry("student", ["learner"])];
            var ops := PlannedOps(roles, SystemRolesFor(["staff"], mapping), userid, contextid);
            ops == [Assign(Assignment(3, userid, contextid, SamlComponent)),
                    Unassign(Assignment(5, userid, contextid, SamlComponent))] &&
            ApplyOps({Assignment(5, userid, contextid, SamlComponent)}, ops)
              == {Assignment(3, userid, contextid, SamlComponent)}
  {
    var mapping := [MappingEntry("editingteacher", ["staff"]), MappingEntry("student", ["learner"])];
    StaffClaimWanted();
    var ops := PlannedOps([Role(3, "editingteacher"), Role(5, "student")], ["editingteacher"], userid, contextid);
    var a3 := Assignment(3, userid, contextid, SamlComponent);
    var a5 := Assignment(5, userid, contextid, SamlComponent);
    StaffClaimOps(userid, contextid);
    assert ops[..1] == [Assign(a3)];
    assert ops[..1][..0] == [];
    assert ApplyOps({a5}, ops[..1]) == {a5, a3};
  }

  /** In that example the wanted list ["editingteacher"] gives assign then unassign. */
  lemma StaffClaimOps(userid: int, contextid: int)
    ensures PlannedOps([Role(3, "editingteacher"), Role(5, "student")], ["editingteacher"], userid, contextid)
         == [Assign(Assignment(3, userid, contextid, SamlComponent)),
             Unassign(Assignment(5, userid, contextid, SamlComponent))]
  {
    ToLowerOfLower("editingteacher");
    ToLowerOfLower("student");
    assert "student" != "editingteacher";
  }

  /** In that example only editingteacher is wanted. */
  lemma StaffClaimWanted()
    ensures SystemRolesFor(["staff"], [MappingEntry("editingteacher", ["staff"]), MappingEntry("student", ["learner"])])
         == ["editingteacher"]
  {
    var mapping := [MappingEntry("editingteacher", ["staff"]), MappingEntry("student", ["learner"])];
    assert ["staff"][..0] == [];
    assert mapping[..1][..0] == [];
    assert "staff" !in mapping[1].values;
    assert MatchesOf("staff", mapping[..1]) == ["editingteacher"];
  }

  // ---- The role-assignment store ----

  /** Moodle's role-assignment table, updated in place by role_assign and role_unassign. */
  class RoleStore {
    var rows: set<Assignment>

    constructor (initial: set<Assignment>)
      ensures rows == initial
    {
      rows := initial;
    }

    /** role_assign: adds the row; a row already present is not duplicated. */
    method RoleAssign(a: Assignment)
      modifies this
      ensures rows == old(rows) + {a}
    {
      rows := rows + {a};
    }

    /** role_unassign: removes exactly this row, if it is there. */
    method RoleUnassign(a: Assignment)
      modifies this
      ensures rows == old(rows) - {a}
    {
      rows := rows - {a};
    }
  }

  /** Lines 261-281: the loop over the assignable roles. Returns the calls
      made, and the table ends as those calls leave it. */
  method SyncSystemRoles(store: RoleStore, roles: seq<Role>, usersystemroles: seq<string>,
                         userid: int, contextid: int)
    returns (ops: seq<RoleOp>)
    modifies store
    ensures ops == PlannedOps(roles, usersystemroles, userid, contextid)
    ensures store.rows == ApplyOps(old(store.rows), ops)
  {
    ops := [];
    var i := 0;
    while i < |roles|
      invariant 0 <= i <= |roles|
      invariant ops == PlannedOps(roles[..i], usersystemroles, userid, contextid)
      invariant store.rows == ApplyOps(old(store.rows), ops)
    {
      var role := roles[i];
      var isrole := ToLower(role.shortname) in usersystemroles;
      var row := Assignment(role.id, userid, contextid, SamlComponent);
      if isrole {
        store.RoleAssign(row);
        ops := ops + [Assign(row)];
      } else {
        store.RoleUnassign(row);
        ops := ops + [Unassign(row)];
      }
      assert roles[..i + 1][..i] == roles[..i];
      assert ops[..|ops| - 1] == PlannedOps(roles[..i], usersystemroles, userid, contextid);
      i := i + 1;
    }
    assert roles[..i] == roles;
  }
}
