/** The grid agrees with itself: over any run of edits its rows stay in order, every read agrees
    with the single-cell read or with the one lookup, and a mark cleared never returns. */
module GridCoherence {
  import opened Basics
  import opened Names
  import opened Tables
  import opened BaseOrders
  import opened Grid
  import opened RoleOrders

  // ---- What every run of edits keeps --------------------------------------------------------

  ghost predicate CellsOk(t: Tables) {
    forall key :: key in t.cells ==>
      && IsRole(t.roles, key.role) && IsLoop(t.loops, key.on)
      && (t.cells[key].staffs ==> t.cells[key].permission.Carries(Emit))
  }

  ghost predicate KeepsakesOk(t: Tables) {
    && (forall kept :: kept in t.subscriptions ==> AllThere(t, kept))
    && (forall kept :: kept in t.volumes ==> AllThere(t, kept))
  }

  /** Ids and positions apart; every cell between records that are there, and staffing only
      where the pair may emit; every preference about records that are there. */
  ghost predicate StoreOk(t: Tables) {
    && RolesApart(t.roles) && LoopsApart(t.loops) && PositionsApart(t.loops)
    && CellsOk(t) && KeepsakesOk(t)
  }

  lemma {:induction false} WithoutLoopApart(loops: seq<LoopRow>, id: LoopId)
    requires LoopsApart(loops) && PositionsApart(loops)
    ensures LoopsApart(WithoutLoop(loops, id)) && PositionsApart(WithoutLoop(loops, id))
  {
    if loops != [] {
      var front, last := loops[..|loops| - 1], loops[|loops| - 1];
      WithoutLoopApart(front, id);
      forall row | row in front ensures row.id != last.id && row.position != last.position {
        var i :| 0 <= i < |front| && front[i] == row;
        assert loops[i] == row;
      }
    }
  }

  lemma {:induction false} WithoutRoleApart(roles: seq<RoleRow>, id: RoleId)
    requires RolesApart(roles)
    ensures RolesApart(WithoutRole(roles, id))
  {
    if roles != [] {
      var front, last := roles[..|roles| - 1], roles[|roles| - 1];
      WithoutRoleApart(front, id);
      forall row | row in front ensures row.id != last.id {
        var i :| 0 <= i < |front| && front[i] == row;
        assert roles[i] == row;
      }
    }
  }

  lemma {:induction false} SameLoops(a: seq<LoopRow>, b: seq<LoopRow>)
    requires |a| == |b| && forall i :: 0 <= i < |a| ==> a[i].id == b[i].id
    ensures LoopsApart(a) ==> LoopsApart(b)
    ensures forall id :: IsLoop(a, id) <==> IsLoop(b, id)
  {
    forall id ensures IsLoop(a, id) <==> IsLoop(b, id) {
      if IsLoop(a, id) {
        var row :| row in a && row.id == id;
        var i :| 0 <= i < |a| && a[i] == row;
        assert b[i] in b;
      }
      if IsLoop(b, id) {
        var row :| row in b && row.id == id;
        var i :| 0 <= i < |b| && b[i] == row;
        assert a[i] in a;
      }
    }
  }

  lemma {:induction false} LoopsReplacedOk(t: Tables, loops: seq<LoopRow>)
    requires StoreOk(t) && LoopsApart(loops) && PositionsApart(loops)
    requires forall id :: IsLoop(t.loops, id) <==> IsLoop(loops, id)
    ensures StoreOk(t.(loops := loops))
  {
    hide IsLoop, LoopsApart, PositionsApart;
  }

  lemma {:induction false} LoopsChangedInPlace(t: Tables, loops: seq<LoopRow>)
    requires StoreOk(t) && SamePlaces(t.loops, loops)
    ensures StoreOk(t.(loops := loops))
  {
    SameLoops(t.loops, loops);
    LoopsReplacedOk(t, loops);
  }

  lemma {:induction false} ReorderingOk(t: Tables, order: seq<LoopId>)
    requires StoreOk(t) && OrderSet(t, order).Ok?
    ensures StoreOk(OrderSet(t, order).value)
  {
    hide NamesEveryLoopOnce, BaseOrder, CellsOk, KeepsakesOk, IsLoop;
    AnOrderSetIsTheOrderRead(t, order);
    SameLoops(t.loops, Repositioned(t.loops, order));
    LoopsReplacedOk(t, Repositioned(t.loops, order));
  }

  lemma {:induction false} CellsChangedOk(t: Tables, cells: map<CellKey, CellRow>)
    requires StoreOk(t) && CellsOk(t.(cells := cells))
    ensures StoreOk(t.(cells := cells))
  {
  }

  lemma {:induction false} RuledOnOk(t: Tables, on: LoopId)
    requires StoreOk(t)
    ensures StoreOk(RuledOn(t, on))
  {
    LoopsChangedInPlace(t, MarkCleared(t.loops, on));
  }

  lemma {:induction false} LoopGrown(loops: seq<LoopRow>, row: LoopRow)
    requires LoopsApart(loops) && PositionsApart(loops) && !IsLoop(loops, row.id) && row.position == NextPosition(loops)
    ensures LoopsApart(loops + [row]) && PositionsApart(loops + [row])
    ensures forall id :: IsLoop(loops + [row], id) <==> IsLoop(loops, id) || id == row.id
  {
    var more := loops + [row];
    forall i | 0 <= i < |loops| ensures more[i].id != row.id && more[i].position < row.position {
      assert loops[i] in loops;
    }
    assert more[|loops|] == row && row in more;
    forall id ensures IsLoop(more, id) <==> IsLoop(loops, id) || id == row.id {
      if IsLoop(loops, id) {
        var r :| r in loops && r.id == id;
        assert r in more;
      }
    }
  }

  lemma {:induction false} RoleGrown(roles: seq<RoleRow>, row: RoleRow)
    requires RolesApart(roles) && !IsRole(roles, row.id)
    ensures RolesApart(roles + [row])
    ensures forall id :: IsRole(roles + [row], id) <==> IsRole(roles, id) || id == row.id
  {
    var more := roles + [row];
    forall i | 0 <= i < |roles| ensures more[i].id != row.id {
      assert roles[i] in roles;
    }
    assert row in more;
    forall id ensures IsRole(more, id) <==> IsRole(roles, id) || id == row.id {
      if IsRole(roles, id) {
        var r :| r in roles && r.id == id;
        assert r in more;
      }
    }
  }

  lemma {:induction false} LoopDeletedOk(t: Tables, id: LoopId)
    requires StoreOk(t)
    ensures StoreOk(LoopDeleted(t, id))
  {
    WithoutLoopApart(t.loops, id);
    forall other | other != id && IsLoop(t.loops, other) ensures IsLoop(WithoutLoop(t.loops, id), other) {
      var row :| row in t.loops && row.id == other;
      assert row in WithoutLoop(t.loops, id);
    }
  }

  lemma {:induction false} RoleDeletedOk(t: Tables, id: RoleId)
    requires StoreOk(t)
    ensures StoreOk(RoleDeleted(t, id))
  {
    WithoutRoleApart(t.roles, id);
    forall other | other != id && IsRole(t.roles, other) ensures IsRole(WithoutRole(t.roles, id), other) {
      var row :| row in t.roles && row.id == other;
      assert row in WithoutRole(t.roles, id);
    }
  }

  lemma {:induction false} CellSetOk(t: Tables, role: RoleId, on: LoopId, permission: Permission)
    requires StoreOk(t)
    ensures StoreOk(CellSet(t, role, on, permission))
  {
    if IsRole(t.roles, role) && IsLoop(t.loops, on) {
      var cells := t.cells[CellKey(role, on) := CellRow(permission, permission.Carries(Emit)
          && CellOf(t, role, on).staffs)];
      CellsChangedOk(t, cells);
      RuledOnOk(t.(cells := cells), on);
    }
  }

  lemma {:induction false} DismissedOk(t: Tables, on: LoopId)
    requires StoreOk(t)
    ensures StoreOk(Dismissed(t, on))
  {
    if IsLoop(t.loops, on) {
      CellsChangedOk(t, Filled(t, on));
      RuledOnOk(t.(cells := Filled(t, on)), on);
    }
  }

  lemma {:induction false} LoopsEditedOk(t: Tables, edit: Edit)
    requires StoreOk(t) && MayEdit(t, edit)
    requires edit.MakeLoop? || edit.NameLoop? || edit.DropLoop? || edit.SetOrder?
    ensures StoreOk(Edited(t, edit))
  {
    hide StoreOk, Renamed, LoopCreated, LoopDeleted, Repositioned, Folded, NamesEveryLoopOnce, BaseOrder;
    if edit.MakeLoop? {
      LoopMadeOk(t, edit.minted, edit.name);
    } else if edit.NameLoop? {
      if LoopRenamed(t, edit.named, edit.newName).Ok? {
        LoopsChangedInPlace(t, Renamed(t.loops, edit.named, edit.newName));
      }
    } else if edit.DropLoop? {
      LoopDeletedOk(t, edit.deleted);
    } else if OrderSet(t, edit.order).Ok? {
      ReorderingOk(t, edit.order);
    }
  }

  lemma {:induction false} LoopMadeOk(t: Tables, id: LoopId, name: string)
    requires StoreOk(t) && !IsLoop(t.loops, id)
    ensures StoreOk(Landing(LoopCreated(t, id, name), t))
  {
    hide LoopNameTaken, NextPosition;
    LoopGrown(t.loops, LoopRow(id, name, true, NextPosition(t.loops)));
  }

  lemma {:induction false} StaffingSetOk(t: Tables, role: RoleId, on: LoopId, staffs: bool)
    requires StoreOk(t)
    ensures StoreOk(Landing(StaffingSet(t, role, on, staffs), t))
  {
    hide RolesApart, LoopsApart, PositionsApart;
  }

  lemma {:induction false} RoleMadeOk(t: Tables, row: RoleRow)
    requires StoreOk(t) && !IsRole(t.roles, row.id)
    ensures StoreOk(t.(roles := t.roles + [row]))
  {
    hide IsLoop, LoopsApart, PositionsApart;
    RoleGrown(t.roles, row);
  }

  lemma {:induction false} RolesReplacedOk(t: Tables, roles: seq<RoleRow>)
    requires StoreOk(t) && |roles| == |t.roles| && forall i :: 0 <= i < |roles| ==> roles[i].id == t.roles[i].id
    ensures StoreOk(t.(roles := roles)) && forall id :: IsRole(roles, id) <==> IsRole(t.roles, id)
  {
    hide LoopsApart, PositionsApart, IsLoop;
    forall id ensures IsRole(roles, id) <==> IsRole(t.roles, id) {
      if IsRole(roles, id) {
        var row :| row in roles && row.id == id;
        var i :| 0 <= i < |roles| && roles[i] == row;
        assert t.roles[i] in t.roles;
      }
      if IsRole(t.roles, id) {
        var row :| row in t.roles && row.id == id;
        var i :| 0 <= i < |roles| && t.roles[i] == row;
        assert roles[i] in roles;
      }
    }
  }

  lemma {:induction false} RolesEditedOk(t: Tables, edit: Edit)
    requires StoreOk(t) && (edit.NameRole? || edit.LimitRole?)
    ensures StoreOk(Edited(t, edit)) && forall id :: IsRole(Edited(t, edit).roles, id) <==> IsRole(t.roles, id)
  {
    hide StoreOk, Folded, IsRole;
    if edit.NameRole? {
      RolesReplacedOk(t, RolesRenamed(t.roles, edit.renamed, edit.roleName));
    } else {
      RolesReplacedOk(t, RolesLimited(t.roles, edit.limited, edit.limit));
    }
  }

  lemma {:induction false} UsersEditedOk(t: Tables, edit: Edit)
    requires StoreOk(t) && (edit.MakeUser? || edit.DropUser?)
    ensures StoreOk(Edited(t, edit))
  {
    hide IsRole, IsLoop, RolesApart, LoopsApart, PositionsApart;
  }

  /** Every edit keeps the store in order, whoever makes it and whenever. */
  lemma {:induction false} EveryEditKeepsTheStore(t: Tables, edit: Edit)
    requires StoreOk(t) && MayEdit(t, edit)
    ensures StoreOk(Edited(t, edit))
  {
    hide StoreOk, CellSet, Dismissed, RoleDeleted, LoopDeleted, OrderSet, LoopCreated, LoopRenamed, StaffingSet;
    hide RoleRenamed, RoleLimited, RoleNameTaken;
    if edit.MakeRole? {
      RoleMadeOk(t, edit.made);
    } else if edit.NameRole? || edit.LimitRole? {
      RolesEditedOk(t, edit);
    } else if edit.MakeUser? || edit.DropUser? {
      UsersEditedOk(t, edit);
    } else if edit.DropRole? {
      RoleDeletedOk(t, edit.dropped);
    } else if edit.SetCell? {
      CellSetOk(t, edit.role, edit.on, edit.permission);
    } else if edit.SetStaffing? {
      StaffingSetOk(t, edit.staffing, edit.staffed, edit.staffs);
    } else if edit.Dismiss? {
      DismissedOk(t, edit.dismissed);
    } else {
      LoopsEditedOk(t, edit);
    }
  }

  // ---- The mark on a loop nobody has ruled on -------------------------------------------------

  /** The edit rules on that loop's column: a cell of it set, or the loop dismissed. */
  ghost predicate RulesOn(t: Tables, edit: Edit, on: LoopId) {
    || (edit.SetCell? && edit.on == on && IsRole(t.roles, edit.role))
    || (edit.Dismiss? && edit.dismissed == on)
  }

  lemma {:induction false} TheRowThere(loops: seq<LoopRow>, i: nat)
    requires LoopsApart(loops) && i < |loops|
    ensures ALoop(loops, loops[i].id) == Some(loops[i])
  {
    var found := ALoop(loops, loops[i].id);
    assert loops[i] in loops && IsLoop(loops, loops[i].id);
    var j :| 0 <= j < |loops| && loops[j] == found.value;
    if i < j { assert loops[i].id != loops[j].id; }
    if j < i { assert loops[j].id != loops[i].id; }
  }

  lemma {:induction false} MarkInPlace(before: seq<LoopRow>, after: seq<LoopRow>, on: LoopId)
    requires LoopsApart(before) && IsLoop(before, on)
    requires |before| == |after| && forall i :: 0 <= i < |before| ==> before[i].id == after[i].id
    ensures exists i :: 0 <= i < |before| && ALoop(before, on) == Some(before[i]) && ALoop(after, on) == Some(after[i])
  {
    SameLoops(before, after);
    var row :| row in before && row.id == on;
    var i :| 0 <= i < |before| && before[i] == row;
    TheRowThere(before, i);
    TheRowThere(after, i);
  }

  ghost function Marked(t: Tables, on: LoopId): bool
    requires IsLoop(t.loops, on)
  {
    ALoop(t.loops, on).value.isUnreviewed
  }

  lemma {:induction false} DismissalCompletes(t: Tables, on: LoopId)
    ensures ColumnComplete(t.(cells := Filled(t, on)), on)
  {
    forall row | row in t.roles ensures CellKey(row.id, on) in Filled(t, on) {
      assert IsRole(t.roles, row.id);
    }
  }

  lemma {:induction false} MarksRuledOn(t: Tables, on: LoopId, ruled: LoopId)
    requires LoopsApart(t.loops) && IsLoop(t.loops, on)
    ensures IsLoop(RuledOn(t, ruled).loops, on)
    ensures Marked(RuledOn(t, ruled), on) <==> Marked(t, on) && !(ruled == on && ColumnComplete(t, on))
  {
    SameLoops(t.loops, MarkCleared(t.loops, ruled));
    MarkInPlace(t.loops, MarkCleared(t.loops, ruled), on);
  }

  lemma {:induction false} MarksKeptByRows(t: Tables, after: seq<LoopRow>, on: LoopId)
    requires LoopsApart(t.loops) && LoopsApart(after) && IsLoop(t.loops, on) && IsLoop(after, on)
    requires forall row :: row in after && row.id == on ==>
      exists was :: was in t.loops && was.id == on && was.isUnreviewed == row.isUnreviewed
    ensures ALoop(after, on).value.isUnreviewed == Marked(t, on)
  {
    var row := ALoop(after, on).value;
    var was :| was in t.loops && was.id == on && was.isUnreviewed == row.isUnreviewed;
    var i :| 0 <= i < |t.loops| && t.loops[i] == was;
    TheRowThere(t.loops, i);
  }

  lemma {:induction false} MarkOnceCellSet(t: Tables, role: RoleId, ruled: LoopId, permission: Permission, on: LoopId)
    requires StoreOk(t) && IsLoop(t.loops, on) && IsRole(t.roles, role) && IsLoop(t.loops, ruled)
    ensures
      var after := CellSet(t, role, ruled, permission);
      && IsLoop(after.loops, on)
      && (Marked(after, on) <==> Marked(t, on) && !(ruled == on && ColumnComplete(after, on)))
  {
    var staffs := permission.Carries(Emit) && CellOf(t, role, ruled).staffs;
    MarksRuledOn(t.(cells := t.cells[CellKey(role, ruled) := CellRow(permission, staffs)]), on, ruled);
  }

  lemma {:induction false} MarkOnceDismissed(t: Tables, ruled: LoopId, on: LoopId)
    requires StoreOk(t) && IsLoop(t.loops, on) && IsLoop(t.loops, ruled)
    ensures
      var after := Dismissed(t, ruled);
      && IsLoop(after.loops, on) && ColumnComplete(after, ruled)
      && (Marked(after, on) <==> Marked(t, on) && ruled != on)
  {
    DismissalCompletes(t, ruled);
    MarksRuledOn(t.(cells := Filled(t, ruled)), on, ruled);
  }

  /** A loop's mark clears exactly on the edit that rules on its column and leaves every role
      with a cell there, and nothing ever brings it back. */
  lemma {:induction false} AMarkClearsOnceAndForAll(t: Tables, edit: Edit, on: LoopId)
    requires StoreOk(t) && MayEdit(t, edit) && IsLoop(t.loops, on) && IsLoop(Edited(t, edit).loops, on)
    ensures Marked(Edited(t, edit), on) <==>
      Marked(t, on) && !(RulesOn(t, edit, on) && ColumnComplete(Edited(t, edit), on))
    ensures edit.Dismiss? && edit.dismissed == on ==> ColumnComplete(Edited(t, edit), on)
  {
    hide StoreOk, RuledOn, Filled, ColumnComplete;
    match edit
    case SetCell(role, ruled, permission) =>
      if IsRole(t.roles, role) && IsLoop(t.loops, ruled) { MarkOnceCellSet(t, role, ruled, permission, on); }
    case Dismiss(ruled) =>
      if IsLoop(t.loops, ruled) { MarkOnceDismissed(t, ruled, on); }
    case _ => OtherEditsKeepTheMark(t, edit, on);
  }

  lemma {:induction false} MarksKeptInPlace(t: Tables, after: seq<LoopRow>, on: LoopId)
    requires LoopsApart(t.loops) && IsLoop(t.loops, on) && |after| == |t.loops|
    requires forall i :: 0 <= i < |after| ==>
      after[i].id == t.loops[i].id && after[i].isUnreviewed == t.loops[i].isUnreviewed
    ensures IsLoop(after, on) && ALoop(after, on).value.isUnreviewed == Marked(t, on)
  {
    MarkInPlace(t.loops, after, on);
  }

  lemma {:induction false} MarkKeptByCreation(t: Tables, id: LoopId, name: string, on: LoopId)
    requires StoreOk(t) && !IsLoop(t.loops, id) && IsLoop(t.loops, on)
    ensures Marked(Landing(LoopCreated(t, id, name), t), on) == Marked(t, on)
  {
    var row := LoopRow(id, name, true, NextPosition(t.loops));
    LoopGrown(t.loops, row);
    forall r | r in t.loops + [row] && r.id == on
      ensures exists was :: was in t.loops && was.id == on && was.isUnreviewed == r.isUnreviewed
    {
      assert r in t.loops;
    }
    MarksKeptByRows(t, t.loops + [row], on);
  }

  lemma {:induction false} MarkKeptByDeletion(t: Tables, id: LoopId, on: LoopId)
    requires StoreOk(t) && IsLoop(t.loops, on) && IsLoop(WithoutLoop(t.loops, id), on)
    ensures Marked(LoopDeleted(t, id), on) == Marked(t, on)
  {
    WithoutLoopApart(t.loops, id);
    MarksKeptByRows(t, WithoutLoop(t.loops, id), on);
  }

  lemma {:induction false} OtherEditsKeepTheMark(t: Tables, edit: Edit, on: LoopId)
    requires StoreOk(t) && MayEdit(t, edit) && IsLoop(t.loops, on) && IsLoop(Edited(t, edit).loops, on)
    requires !edit.SetCell? && !edit.Dismiss?
    ensures Marked(Edited(t, edit), on) == Marked(t, on)
  {
    hide StoreOk, Edited, Renamed, Repositioned, WithoutLoop, LoopCreated;
    assert LoopsApart(t.loops) by { ApartIds(t); }
    LoopsOnceEdited(t, edit);
    if edit.NameLoop? {
      MarksKeptInPlace(t, Renamed(t.loops, edit.named, edit.newName), on);
    } else if edit.SetOrder? {
      MarksKeptInPlace(t, Repositioned(t.loops, edit.order), on);
    } else if edit.MakeLoop? {
      MarkKeptByCreation(t, edit.minted, edit.name, on);
    } else if edit.DropLoop? {
      MarkKeptByDeletion(t, edit.deleted, on);
    }
  }

  /** The loops an edit leaves, where it rules on none of them. */
  lemma {:induction false} LoopsOnceEdited(t: Tables, edit: Edit)
    requires !edit.SetCell? && !edit.Dismiss?
    ensures
      var after := Edited(t, edit).loops;
      if edit.NameLoop? then after == t.loops || after == Renamed(t.loops, edit.named, edit.newName)
      else if edit.SetOrder? then after == t.loops || after == Repositioned(t.loops, edit.order)
      else if edit.MakeLoop? then after == Landing(LoopCreated(t, edit.minted, edit.name), t).loops
      else if edit.DropLoop? then after == LoopDeleted(t, edit.deleted).loops
      else after == t.loops
  {
    hide NamesEveryLoopOnce, NextPosition, BaseOrder, LoopNameTaken, RoleNameTaken, Folded, WithoutLoop, WithoutRole;
  }

  lemma {:induction false} ApartIds(t: Tables)
    requires StoreOk(t)
    ensures LoopsApart(t.loops)
  {
  }

  // ---- Every read is the same grid ------------------------------------------------------------

  lemma {:induction false} TheRoleThere(roles: seq<RoleRow>, i: nat)
    requires RolesApart(roles) && i < |roles|
    ensures ARole(roles, roles[i].id) == Some(roles[i])
  {
    var found := ARole(roles, roles[i].id);
    assert roles[i] in roles && IsRole(roles, roles[i].id);
    var j :| 0 <= j < |roles| && roles[j] == found.value;
    if i < j { assert roles[i].id != roles[j].id; }
    if j < i { assert roles[j].id != roles[i].id; }
  }

  lemma {:induction false} NamedRoleThere(roles: seq<RoleRow>, i: nat)
    requires RolesApart(roles) && i < |ByName(roles)|
    ensures ARole(roles, ByName(roles)[i].id) == Some(ByName(roles)[i])
  {
    ByNameIsSorted(roles);
    assert ByName(roles)[i] in roles;
    var j :| 0 <= j < |roles| && roles[j] == ByName(roles)[i];
    TheRoleThere(roles, j);
  }

  lemma {:induction false} OrderedRowThere(t: Tables, i: nat)
    requires LoopsApart(t.loops) && i < |BaseOrder(t.loops)|
    ensures ALoop(t.loops, BaseOrder(t.loops)[i].id) == Some(BaseOrder(t.loops)[i])
  {
    BaseOrderIsSorted(t.loops);
    assert BaseOrder(t.loops)[i] in t.loops;
    var j :| 0 <= j < |t.loops| && t.loops[j] == BaseOrder(t.loops)[i];
    TheRowThere(t.loops, j);
  }

  /** A role's row is the single-cell read at every loop in the base order, and a loop's column
      is the single-cell read at every role. */
  lemma {:induction false} RowsAndColumnsAreTheCells(t: Tables, role: RoleId, on: LoopId)
    requires StoreOk(t)
    ensures TheRowOf(t, role).Some? <==> IsRole(t.roles, role)
    ensures TheRowOf(t, role).Some? ==>
      var cells, order := TheRowOf(t, role).value.cells, BaseOrder(t.loops);
      |cells| == |order| && forall i :: 0 <= i < |order| ==> ACell(t, role, order[i].id) == Some(cells[i])
    ensures TheColumnOf(t, on).Some? <==> IsLoop(t.loops, on)
    ensures TheColumnOf(t, on).Some? ==>
      var cells := TheColumnOf(t, on).value.cells;
      var roles := ByName(t.roles);
      |cells| == |roles| && forall i :: 0 <= i < |roles| ==> ACell(t, roles[i].id, on) == Some(cells[i])
  {
    if TheRowOf(t, role).Some? {
      forall i | 0 <= i < |BaseOrder(t.loops)|
        ensures ACell(t, role, BaseOrder(t.loops)[i].id) == Some(TheRowOf(t, role).value.cells[i])
      {
        OrderedRowThere(t, i);
      }
    }
    if TheColumnOf(t, on).Some? {
      forall i | 0 <= i < |ByName(t.roles)|
        ensures ACell(t, ByName(t.roles)[i].id, on) == Some(TheColumnOf(t, on).value.cells[i])
      {
        NamedRoleThere(t.roles, i);
      }
    }
  }

  /** The ids in an order on which the one lookup answers the rung or above, with that answer. */
  ghost function ReachByLookup(t: Tables, role: RoleId, rung: Permission, order: seq<LoopRow>): seq<Reachable> {
    if order == [] then []
    else
      (if HeldBy(t, role, order[0].id).Carries(rung) then [Reachable(order[0], HeldBy(t, role, order[0].id))] else [])
      + ReachByLookup(t, role, rung, order[1..])
  }

  lemma {:induction false} ReachAmongIsLookup(t: Tables, role: RoleId, rung: Permission, order: seq<LoopRow>)
    requires forall row :: row in order ==> ALoop(t.loops, row.id) == Some(row)
    ensures ReachAmong(t, role, rung, order) == ReachByLookup(t, role, rung, order)
    ensures forall r :: r in ReachAmong(t, role, rung, order) <==>
      r.heldOn in order && r.permission == HeldBy(t, role, r.heldOn.id) && r.permission.Carries(rung)
  {
    if order != [] {
      assert order[0] in order;
      ReachAmongIsLookup(t, role, rung, order[1..]);
    }
  }

  /** A role's reach is the base order filtered by the evaluator's own lookup. */
  lemma {:induction false} ReachIsTheOrderFilteredByLookup(t: Tables, role: RoleId, rung: Permission)
    requires StoreOk(t)
    ensures TheReachOf(t, role, rung) == ReachByLookup(t, role, rung, BaseOrder(t.loops))
    ensures forall r :: r in TheReachOf(t, role, rung) <==>
      r.heldOn in t.loops && r.permission == HeldBy(t, role, r.heldOn.id) && r.permission.Carries(rung)
  {
    BaseOrderIsSorted(t.loops);
    forall row | row in BaseOrder(t.loops) ensures ALoop(t.loops, row.id) == Some(row) {
      var i :| 0 <= i < |BaseOrder(t.loops)| && BaseOrder(t.loops)[i] == row;
      OrderedRowThere(t, i);
    }
    ReachAmongIsLookup(t, role, rung, BaseOrder(t.loops));
  }

  /** What a cell write does: that pair holds what was set, the flag stays only where the pair
      may still answer, and every other pair is as it was. */
  lemma {:induction false} ACellHoldsWhatWasSet(t: Tables, role: RoleId, on: LoopId, permission: Permission,
      r: RoleId, l: LoopId)
    requires StoreOk(t) && IsRole(t.roles, role) && IsLoop(t.loops, on)
    ensures
      var before, after := CellOf(t, r, l), CellOf(CellSet(t, role, on, permission), r, l);
      if r == role && l == on
      then after.permission == permission && (after.staffs <==> before.staffs && permission.Carries(Emit))
      else after == before
    ensures HeldBy(CellSet(t, role, on, permission), role, on) ==
      if Marked(t, on) && !ColumnComplete(CellSet(t, role, on, permission), on) then Nothing else permission
  {
    hide StoreOk, ColumnComplete;
    MarkOnceCellSet(t, role, on, permission, on);
  }

  /** A mark is refused exactly where it would say a role answers a loop it may not speak on; one
      that lands is on that pair alone, and a pair nobody has ruled on has nothing to mark. */
  lemma {:induction false} AFlagStandsOnlyUnderEmit(t: Tables, role: RoleId, on: LoopId, staffs: bool, r: RoleId,
      l: LoopId)
    requires StoreOk(t) && IsRole(t.roles, role) && IsLoop(t.loops, on)
    ensures StaffingSet(t, role, on, staffs).Err? <==> staffs && !CellOf(t, role, on).permission.Carries(Emit)
    ensures StaffingSet(t, role, on, staffs).Ok? ==>
      var before, after := CellOf(t, r, l), CellOf(StaffingSet(t, role, on, staffs).value, r, l);
      && after.permission == before.permission
      && (after.staffs <==> if r == role && l == on then staffs else before.staffs)
      && (after.staffs ==> after.permission.Carries(Emit))
  {
    hide RolesApart, LoopsApart, PositionsApart, KeepsakesOk;
  }

  /** A dismissal answers for nobody: every cell reads as it did, and all that moves is that the
      loop is ruled on, so what its cells already said is from then on what is enforced. */
  lemma {:induction false} ADismissalSaysNothingNew(t: Tables, on: LoopId, r: RoleId, l: LoopId)
    requires StoreOk(t) && IsLoop(t.loops, on)
    ensures CellOf(Dismissed(t, on), r, l) == CellOf(t, r, l)
    ensures HeldBy(Dismissed(t, on), r, on) == CellOf(t, r, on).permission
    ensures l != on && IsLoop(t.loops, l) ==> HeldBy(Dismissed(t, on), r, l) == HeldBy(t, r, l)
  {
    hide StoreOk, ColumnComplete, Filled;
    MarkOnceDismissed(t, on, on);
    if l != on && IsLoop(t.loops, l) { MarkOnceDismissed(t, on, l); }
    CellsKeptByDismissal(t, on, r, l);
    CellsKeptByDismissal(t, on, r, on);
  }

  lemma {:induction false} CellsKeptByDismissal(t: Tables, on: LoopId, r: RoleId, l: LoopId)
    ensures CellOf(Dismissed(t, on), r, l) == CellOf(t, r, l)
  {
    hide ColumnComplete;
  }

  lemma {:induction false} ALoopMadeHoldsNothing(t: Tables, id: LoopId, name: string, r: RoleId)
    requires StoreOk(t) && !IsLoop(t.loops, id)
    ensures HeldBy(Edited(t, MakeLoop(id, name)), r, id) == Nothing
  {
    hide NextPosition, LoopNameTaken, RolesApart, PositionsApart, CellsOk, KeepsakesOk;
    var made := LoopRow(id, name, true, NextPosition(t.loops));
    LoopGrown(t.loops, made);
    if LoopCreated(t, id, name).Ok? { TheRowThere(t.loops + [made], |t.loops|); }
  }

  lemma {:induction false} ARoleMadeHoldsNothing(t: Tables, row: RoleRow, l: LoopId)
    requires StoreOk(t) && !IsRole(t.roles, row.id)
    ensures HeldBy(Edited(t, MakeRole(row)), row.id, l) == Nothing
  {
    hide RoleNameTaken, RolesApart, LoopsApart, PositionsApart, KeepsakesOk, IsRole, IsLoop;
    assert CellKey(row.id, l) !in t.cells;
  }

  /** Whatever is new holds nothing: a loop made reaches nobody, and a role made reaches nothing,
      until somebody rules on it. */
  lemma {:induction false} WhatIsNewHoldsNothing(t: Tables, id: LoopId, name: string, row: RoleRow, r: RoleId,
      l: LoopId)
    requires StoreOk(t) && !IsLoop(t.loops, id) && !IsRole(t.roles, row.id)
    ensures HeldBy(Edited(t, MakeLoop(id, name)), r, id) == Nothing
    ensures HeldBy(Edited(t, MakeRole(row)), row.id, l) == Nothing
  {
    hide StoreOk, Edited, HeldBy;
    ALoopMadeHoldsNothing(t, id, name, r);
    ARoleMadeHoldsNothing(t, row, l);
  }
}
