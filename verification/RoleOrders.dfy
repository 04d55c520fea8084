/** Names: no two loops and no two roles ever share one whatever their case, so the order roles are
    read in is settled by their names alone. */
module RoleOrders {
  import opened Basics
  import opened Names
  import opened Tables
  import opened Grid

  // ---- The order of names -----------------------------------------------------------------------

  lemma {:induction false} NoLaterIsTotal(a: string, b: string)
    ensures NoLater(a, b) || NoLater(b, a)
    ensures NoLater(a, b) && NoLater(b, a) ==> a == b
  {
    if a != [] && b != [] && a[0] == b[0] {
      NoLaterIsTotal(a[1..], b[1..]);
      assert a == [a[0]] + a[1..] && b == [b[0]] + b[1..];
    }
  }

  lemma {:induction false} NoLaterChains(a: string, b: string, c: string)
    requires NoLater(a, b) && NoLater(b, c)
    ensures NoLater(a, c)
  {
    if a != [] && b != [] && c != [] && a[0] == b[0] == c[0] { NoLaterChains(a[1..], b[1..], c[1..]); }
  }

  ghost predicate SortedByName(roles: seq<RoleRow>) {
    forall i, j :: 0 <= i < j < |roles| ==> NoLater(Folded(roles[i].name), Folded(roles[j].name))
  }

  lemma {:induction false} RolePutHolds(sorted: seq<RoleRow>, row: RoleRow)
    ensures multiset(RolePut(sorted, row)) == multiset(sorted) + multiset{row}
    ensures forall x :: x in RolePut(sorted, row) <==> x in sorted || x == row
  {
    if sorted != [] && !NoLater(Folded(sorted[|sorted| - 1].name), Folded(row.name)) {
      assert sorted == sorted[..|sorted| - 1] + [sorted[|sorted| - 1]];
      RolePutHolds(sorted[..|sorted| - 1], row);
    }
  }

  lemma {:induction false} RolePutIsSorted(sorted: seq<RoleRow>, row: RoleRow)
    requires SortedByName(sorted)
    ensures SortedByName(RolePut(sorted, row))
  {
    if sorted == [] {
    } else if NoLater(Folded(sorted[|sorted| - 1].name), Folded(row.name)) {
      forall i | 0 <= i < |sorted| ensures NoLater(Folded(sorted[i].name), Folded(row.name)) {
        if i < |sorted| - 1 {
          NoLaterChains(Folded(sorted[i].name), Folded(sorted[|sorted| - 1].name), Folded(row.name));
        }
      }
    } else {
      var front, last := sorted[..|sorted| - 1], sorted[|sorted| - 1];
      RolePutIsSorted(front, row);
      RolePutHolds(front, row);
      NoLaterIsTotal(Folded(last.name), Folded(row.name));
      forall x | x in RolePut(front, row) ensures NoLater(Folded(x.name), Folded(last.name)) {
        if x in front {
          var i :| 0 <= i < |front| && sorted[i] == x;
        }
      }
    }
  }

  lemma {:induction false} ByNameHolds(roles: seq<RoleRow>)
    ensures multiset(ByName(roles)) == multiset(roles)
    ensures forall row :: row in ByName(roles) <==> row in roles
  {
    if roles != [] {
      hide RolePut;
      var front, last := roles[..|roles| - 1], roles[|roles| - 1];
      assert roles == front + [last];
      ByNameHolds(front);
      RolePutHolds(ByName(front), last);
    }
  }

  /** The list of roles is every role there is, in the order of their names. */
  lemma {:induction false} ByNameIsSorted(roles: seq<RoleRow>)
    ensures SortedByName(ByName(roles)) && multiset(ByName(roles)) == multiset(roles)
    ensures |ByName(roles)| == |roles| && forall row :: row in ByName(roles) <==> row in roles
  {
    ByNameHolds(roles);
    assert |ByName(roles)| == |multiset(ByName(roles))| && |roles| == |multiset(roles)|;
    if roles != [] {
      hide RolePut, SortedByName;
      ByNameIsSorted(roles[..|roles| - 1]);
      RolePutIsSorted(ByName(roles[..|roles| - 1]), roles[|roles| - 1]);
    }
  }

  // ---- Names are never shared -------------------------------------------------------------------

  ghost predicate RoleNamesApart(roles: seq<RoleRow>) {
    forall i, j :: 0 <= i < j < |roles| ==> Folded(roles[i].name) != Folded(roles[j].name)
  }

  ghost predicate LoopNamesApart(loops: seq<LoopRow>) {
    forall i, j :: 0 <= i < j < |loops| ==> Folded(loops[i].name) != Folded(loops[j].name)
  }

  ghost predicate NamesApart(t: Tables) {
    && RoleNamesApart(t.roles) && LoopNamesApart(t.loops)
    && forall row :: row in t.roles ==> row.maxOccupants != Some(0)
  }

  lemma {:induction false} SameRoleNames(a: seq<RoleRow>, b: seq<RoleRow>)
    requires RoleNamesApart(a) && |a| == |b| && forall i :: 0 <= i < |a| ==> a[i].name == b[i].name
    ensures RoleNamesApart(b)
  {
  }

  lemma {:induction false} SameLoopNames(a: seq<LoopRow>, b: seq<LoopRow>)
    requires LoopNamesApart(a) && |a| == |b| && forall i :: 0 <= i < |a| ==> a[i].name == b[i].name
    ensures LoopNamesApart(b)
  {
  }

  lemma {:induction false} OneRoleRenamed(roles: seq<RoleRow>, id: RoleId, name: string)
    requires RoleNamesApart(roles) && RolesApart(roles)
    requires !exists row :: row in roles && row.id != id && Folded(row.name) == Folded(name)
    ensures RoleNamesApart(RolesRenamed(roles, id, name))
  {
    hide Folded;
    var after := RolesRenamed(roles, id, name);
    forall i, j | 0 <= i < j < |after| ensures Folded(after[i].name) != Folded(after[j].name) {
      assert roles[i] in roles && roles[j] in roles && roles[i].id != roles[j].id;
    }
  }

  lemma {:induction false} OneLoopRenamed(loops: seq<LoopRow>, id: LoopId, name: string)
    requires LoopNamesApart(loops) && LoopsApart(loops)
    requires !exists row :: row in loops && row.id != id && Folded(row.name) == Folded(name)
    ensures LoopNamesApart(Renamed(loops, id, name))
  {
    hide Folded;
    var after := Renamed(loops, id, name);
    forall i, j | 0 <= i < j < |after| ensures Folded(after[i].name) != Folded(after[j].name) {
      assert loops[i] in loops && loops[j] in loops && loops[i].id != loops[j].id;
    }
  }

  lemma {:induction false} FewerRoleNames(roles: seq<RoleRow>, id: RoleId)
    requires RoleNamesApart(roles)
    ensures RoleNamesApart(WithoutRole(roles, id))
  {
    hide Folded;
    if roles != [] {
      var front, last := roles[..|roles| - 1], roles[|roles| - 1];
      FewerRoleNames(front, id);
      forall row | row in front ensures Folded(row.name) != Folded(last.name) {
        var i :| 0 <= i < |front| && front[i] == row;
        assert roles[i] == row;
      }
    }
  }

  lemma {:induction false} FewerLoopNames(loops: seq<LoopRow>, id: LoopId)
    requires LoopNamesApart(loops)
    ensures LoopNamesApart(WithoutLoop(loops, id))
  {
    hide Folded;
    if loops != [] {
      var front, last := loops[..|loops| - 1], loops[|loops| - 1];
      FewerLoopNames(front, id);
      forall row | row in front ensures Folded(row.name) != Folded(last.name) {
        var i :| 0 <= i < |front| && front[i] == row;
        assert loops[i] == row;
      }
    }
  }

  lemma {:induction false} RoleEditKeepsNames(t: Tables, edit: Edit)
    requires NamesApart(t) && RolesApart(t.roles)
    requires edit.MakeRole? || edit.NameRole? || edit.LimitRole? || edit.DropRole?
    ensures NamesApart(Edited(t, edit))
  {
    hide Folded, LoopNamesApart, WithoutRole;
    match edit
    case MakeRole(row) =>
    case NameRole(id, name) =>
      if RoleRenamed(t, id, name).Ok? && IsRole(t.roles, id) {
        OneRoleRenamed(t.roles, id, name);
        assert forall i :: 0 <= i < |t.roles| ==> t.roles[i] in t.roles;
      }
    case LimitRole(id, limit) =>
      SameRoleNames(t.roles, RolesLimited(t.roles, id, limit));
      assert forall i :: 0 <= i < |t.roles| ==> t.roles[i] in t.roles;
    case DropRole(id) => FewerRoleNames(t.roles, id);
  }

  lemma {:induction false} LoopEditKeepsNames(t: Tables, edit: Edit)
    requires NamesApart(t) && LoopsApart(t.loops)
    requires edit.MakeLoop? || edit.NameLoop? || edit.DropLoop? || edit.SetOrder? || edit.SetCell? || edit.Dismiss?
    ensures NamesApart(Edited(t, edit))
  {
    hide Folded, RoleNamesApart, WithoutLoop, NextPosition, NamesEveryLoopOnce, BaseOrder, ColumnComplete, Filled;
    match edit
    case MakeLoop(id, name) =>
    case NameLoop(id, name) =>
      if LoopRenamed(t, id, name).Ok? && IsLoop(t.loops, id) { OneLoopRenamed(t.loops, id, name); }
    case DropLoop(id) => FewerLoopNames(t.loops, id);
    case SetOrder(order) => SameLoopNames(t.loops, Repositioned(t.loops, order));
    case SetCell(role, on, permission) => SameLoopNames(t.loops, MarkCleared(t.loops, on));
    case Dismiss(on) => SameLoopNames(t.loops, MarkCleared(t.loops, on));
  }

  /** No edit ever gives two roles or two loops one name, or leaves a role nobody may occupy. */
  lemma {:induction false} EveryEditKeepsNamesApart(t: Tables, edit: Edit)
    requires NamesApart(t) && RolesApart(t.roles) && LoopsApart(t.loops)
    ensures NamesApart(Edited(t, edit))
  {
    if edit.MakeRole? || edit.NameRole? || edit.LimitRole? || edit.DropRole? {
      RoleEditKeepsNames(t, edit);
    } else if edit.MakeLoop? || edit.NameLoop? || edit.DropLoop? || edit.SetOrder? || edit.SetCell? || edit.Dismiss? {
      LoopEditKeepsNames(t, edit);
    } else {
      hide Folded;
    }
  }

  /** A name is refused exactly where somebody already has it, whatever the case; and what is
      refused changes nothing. */
  lemma {:induction false} ANameIsRefusedExactlyWhereItIsTaken(t: Tables, id: LoopId, name: string, row: RoleRow)
    ensures LoopCreated(t, id, name).Err? <==> exists i :: 0 <= i < |t.loops| && Folded(t.loops[i].name) == Folded(name)
    ensures RoleCreated(t, row).Err? <==>
      row.maxOccupants == Some(0) || exists i :: 0 <= i < |t.roles| && Folded(t.roles[i].name) == Folded(row.name)
    ensures LoopCreated(t, id, name).Err? ==> Edited(t, MakeLoop(id, name)) == t
    ensures RoleCreated(t, row).Err? ==> Edited(t, MakeRole(row)) == t
  {
    hide Folded;
    assert forall r :: r in t.loops <==> exists i :: 0 <= i < |t.loops| && t.loops[i] == r;
    assert forall r :: r in t.roles <==> exists i :: 0 <= i < |t.roles| && t.roles[i] == r;
  }

  /** With names apart, one role's place in the list is before another's exactly when its name is
      read first. */
  lemma {:induction false} ThePlaceIsTheName(t: Tables, i: nat, j: nat)
    requires NamesApart(t) && i < |ByName(t.roles)| && j < |ByName(t.roles)|
    ensures i < j <==> i != j && NoLater(Folded(ByName(t.roles)[i].name), Folded(ByName(t.roles)[j].name))
  {
    hide Folded, NoLater, ByName;
    var sorted := ByName(t.roles);
    ByNameIsSorted(t.roles);
    if i != j {
      var a, b := if i < j then i else j, if i < j then j else i;
      TwoNames(t.roles, sorted, a, b);
      NoLaterIsTotal(Folded(sorted[a].name), Folded(sorted[b].name));
    }
  }

  lemma {:induction false} TwoNames(roles: seq<RoleRow>, sorted: seq<RoleRow>, i: nat, j: nat)
    requires RoleNamesApart(roles) && multiset(sorted) == multiset(roles) && i < j < |sorted|
    ensures Folded(sorted[i].name) != Folded(sorted[j].name)
  {
    hide Folded;
    assert sorted[i] in multiset(roles) && sorted[j] in multiset(roles);
    var a :| 0 <= a < |roles| && roles[a] == sorted[i];
    if sorted[i] == sorted[j] {
      assert sorted == sorted[..j] + sorted[j..];
      assert sorted[..j][i] in sorted[..j] && sorted[j..][0] in sorted[j..];
      assert multiset(sorted) == multiset(sorted[..j]) + multiset(sorted[j..]);
      OnceOnly(roles, a);
    } else {
      var b :| 0 <= b < |roles| && roles[b] == sorted[j];
      assert a != b;
    }
  }

  lemma {:induction false} OnceOnly(roles: seq<RoleRow>, a: nat)
    requires RoleNamesApart(roles) && a < |roles|
    ensures multiset(roles)[roles[a]] == 1
  {
    hide Folded;
    var front, back := roles[..a], roles[a + 1..];
    assert roles == front + ([roles[a]] + back);
    forall x | x in front + back ensures x != roles[a] {
      var i :| 0 <= i < |front + back| && (front + back)[i] == x;
      assert x == roles[if i < a then i else i + 1];
    }
    assert roles[a] !in front && roles[a] !in back;
  }
}
