/** What an inherited role sees, in terms of the role hierarchy: its own
    permission if it has one, otherwise the union of the permissions of the plain
    roles it reaches. */
module InheritedRoles {
  import opened Values
  import opened Database
  import opened Planner
  import opened RoleView
  import Roles

  /** The session's parents are the expansion of its role. */
  ghost predicate Expanded(h: Roles.Hierarchy, s: Session) {
    forall r :: r in s.parents <==> !Roles.IsInherited(h, r) && Roles.Reaches(h, s.role, r)
  }

  method OpenSession(h: Roles.Hierarchy, role: string, vars: map<string, string>) returns (s: Session)
    ensures s.role == role && s.vars == vars && Expanded(h, s) && Roles.NoDuplicates(s.parents)
  {
    var parents := Roles.ExpandRole(h, role);
    s := Session(role, parents, vars);
  }

  /** A permission the role holds on a table. */
  ghost predicate Holding(h: Roles.Hierarchy, entry: TableEntry, role: string, p: SelectPermission) {
    var direct := FindPerm(entry.selectPermissions, role);
    if direct.Some? then p == direct.value
    else exists r :: !Roles.IsInherited(h, r) && Roles.Reaches(h, role, r) && FindPerm(entry.selectPermissions, r) == Some(p)
  }

  /** Of several entries for one role the first one counts. */
  lemma {:induction false} FirstEntryCounts(list: seq<Roles.PermissionEntry<SelectPermission>>, role: string)
    ensures FindPerm(list, role).None? <==> forall i :: 0 <= i < |list| ==> list[i].role != role
    ensures forall i :: 0 <= i < |list| && list[i].role == role && (forall j :: 0 <= j < i ==> list[j].role != role) ==>
      FindPerm(list, role) == Some(list[i].permission)
  {
    if list != [] && list[0].role != role {
      FirstEntryCounts(list[1..], role);
      forall i | 0 <= i < |list| && list[i].role == role && (forall j :: 0 <= j < i ==> list[j].role != role)
        ensures FindPerm(list, role) == Some(list[i].permission)
      {
        assert list[1..][i - 1] == list[i];
        assert forall j :: 0 <= j < i - 1 ==> list[1..][j] == list[j + 1];
      }
      assert forall i :: 1 <= i < |list| ==> list[i] == list[1..][i - 1];
    }
  }

  lemma {:induction false} ParentPermsMember(list: seq<Roles.PermissionEntry<SelectPermission>>, parents: seq<string>, p: SelectPermission)
    ensures p in ParentPerms(list, parents) <==> exists r :: r in parents && FindPerm(list, r) == Some(p)
  {
    if parents != [] {
      var n := |parents| - 1;
      ParentPermsMember(list, parents[..n], p);
      assert parents == parents[..n] + [parents[n]];
      if p in ParentPerms(list, parents) && p !in ParentPerms(list, parents[..n]) {
        assert parents[n] in parents && FindPerm(list, parents[n]) == Some(p);
      }
      if r :| r in parents && FindPerm(list, r) == Some(p) {
        assert r in parents[..n] || r == parents[n];
      }
    }
  }

  /** The planner collects exactly the permissions the role holds. */
  lemma RolePermissions(h: Roles.Hierarchy, entry: TableEntry, s: Session, p: SelectPermission)
    requires Expanded(h, s)
    ensures p in RoleSelectPerms(entry, s) <==> Holding(h, entry, s.role, p)
  {
    ParentPermsMember(entry.selectPermissions, s.parents, p);
  }

  /** A table exists for a role exactly when it is tracked and the role holds a
      permission on it. */
  lemma TableExistsFor(h: Roles.Hierarchy, md: Metadata, t: Table, s: Session)
    requires Expanded(h, s)
    ensures TableCtxOf(md, t, s).Some? <==> t in md.tables && exists p :: Holding(h, md.tables[t], s.role, p)
  {
    if t in md.tables {
      var perms := RoleSelectPerms(md.tables[t], s);
      forall p ensures p in perms <==> Holding(h, md.tables[t], s.role, p) {
        RolePermissions(h, md.tables[t], s, p);
      }
      if perms != [] {
        assert perms[0] in perms;
      }
    }
  }

  /** A row is visible exactly when some permission the role holds passes it. */
  lemma RowVisibleToRole(h: Roles.Hierarchy, t: Table, ctx: TableCtx, w: World, row: Row)
    requires Expanded(h, w.s) && TableCtxOf(w.md, t, w.s) == Some(ctx)
    ensures RowVisible(ctx, w, row) <==>
            exists p :: Holding(h, ctx.entry, w.s.role, p) && PassesPermission(p, ctx, w, row)
  {
    forall p ensures p in ctx.perms <==> Holding(h, ctx.entry, w.s.role, p) {
      RolePermissions(h, ctx.entry, w.s, p);
    }
    if RowVisible(ctx, w, row) {
      var i :| 0 <= i < |ctx.perms| && PassesPermission(ctx.perms[i], ctx, w, row);
      assert ctx.perms[i] in ctx.perms;
    }
    if p :| Holding(h, ctx.entry, w.s.role, p) && PassesPermission(p, ctx, w, row) {
      var i :| 0 <= i < |ctx.perms| && ctx.perms[i] == p;
    }
  }

  /** A cell is shown exactly when some permission the role holds grants its
      column and passes its row. */
  lemma CellShownToRole(h: Roles.Hierarchy, t: Table, ctx: TableCtx, column: string, w: World, row: Row)
    requires Expanded(h, w.s) && TableCtxOf(w.md, t, w.s) == Some(ctx)
    ensures CellShown(ctx, column, w, row) <==>
            exists p :: Holding(h, ctx.entry, w.s.role, p) && Grants(p, column) && PassesPermission(p, ctx, w, row)
  {
    forall p ensures p in ctx.perms <==> Holding(h, ctx.entry, w.s.role, p) {
      RolePermissions(h, ctx.entry, w.s, p);
    }
    if CellShown(ctx, column, w, row) {
      var i :| 0 <= i < |ctx.perms| && Grants(ctx.perms[i], column) && PassesPermission(ctx.perms[i], ctx, w, row);
      assert ctx.perms[i] in ctx.perms;
    }
    if p :| Holding(h, ctx.entry, w.s.role, p) && Grants(p, column) && PassesPermission(p, ctx, w, row) {
      var i :| 0 <= i < |ctx.perms| && ctx.perms[i] == p;
    }
  }
}
