/** The grid: one value per (role, loop), the mark on a loop nobody has ruled on, the staffing
    flag, and every read of them (`src/configuration/grid.rs`). */
module Grid {
  import opened Basics
  import opened Names
  import opened Tables

  datatype Cell = Cell(role: RoleRow, heldOn: LoopRow, permission: Permission, staffs: bool)

  datatype Reachable = Reachable(heldOn: LoopRow, permission: Permission)

  datatype Row = Row(role: RoleRow, cells: seq<Cell>)

  datatype Column = Column(heldOn: LoopRow, cells: seq<Cell>)

  // ---- Reads ------------------------------------------------------------------------------

  /** The pair's own row, or the row it reads as while it has none. */
  function CellOf(t: Tables, role: RoleId, on: LoopId): CellRow {
    if CellKey(role, on) in t.cells then t.cells[CellKey(role, on)] else CellRow(Nothing, false)
  }

  /** The mark on the loop comes before the pair's own row. */
  function Enforced(t: Tables, role: RoleId, on: LoopRow): Permission {
    if on.isUnreviewed then Nothing else CellOf(t, role, on.id).permission
  }

  /** The evaluator's one lookup. */
  function HeldBy(t: Tables, role: RoleId, on: LoopId): Permission {
    match ALoop(t.loops, on)
    case None => Nothing
    case Some(row) => Enforced(t, role, row)
  }

  function CellFor(t: Tables, role: RoleRow, on: LoopRow): Cell {
    Cell(role, on, CellOf(t, role.id, on.id).permission, CellOf(t, role.id, on.id).staffs)
  }

  /** The pair as administered, mark or no mark, where both records are there. */
  function ACell(t: Tables, role: RoleId, on: LoopId): Option<Cell> {
    match (ARole(t.roles, role), ALoop(t.loops, on))
    case (Some(r), Some(l)) => Some(CellFor(t, r, l))
    case _ => None
  }

  function TheRowOf(t: Tables, role: RoleId): Option<Row> {
    match ARole(t.roles, role)
    case None => None
    case Some(r) =>
      var order := BaseOrder(t.loops);
      Some(Row(r, seq(|order|, i requires 0 <= i < |order| => CellFor(t, r, order[i]))))
  }

  function TheColumnOf(t: Tables, on: LoopId): Option<Column> {
    match ALoop(t.loops, on)
    case None => None
    case Some(l) =>
      var roles := ByName(t.roles);
      Some(Column(l, seq(|roles|, i requires 0 <= i < |roles| => CellFor(t, roles[i], l))))
  }

  /** The loops among these on which the role is enforced at the rung or above. */
  function ReachAmong(t: Tables, role: RoleId, rung: Permission, loops: seq<LoopRow>): seq<Reachable> {
    if loops == [] then []
    else
      (if Enforced(t, role, loops[0]).Carries(rung) then [Reachable(loops[0], Enforced(t, role, loops[0]))] else [])
      + ReachAmong(t, role, rung, loops[1..])
  }

  function TheReachOf(t: Tables, role: RoleId, rung: Permission): seq<Reachable> {
    ReachAmong(t, role, rung, BaseOrder(t.loops))
  }

  // ---- Writes -----------------------------------------------------------------------------

  predicate ColumnComplete(t: Tables, on: LoopId) {
    forall row :: row in t.roles ==> CellKey(row.id, on) in t.cells
  }

  function MarkCleared(loops: seq<LoopRow>, on: LoopId): (r: seq<LoopRow>)
    ensures |r| == |loops|
    ensures forall i ::
      0 <= i < |r| ==> r[i] == if loops[i].id == on then loops[i].(isUnreviewed := false) else loops[i]
  {
    seq(|loops|, i requires 0 <= i < |loops| =>
      if loops[i].id == on then loops[i].(isUnreviewed := false) else loops[i])
  }

  /** The mark goes with the last missing row of the column. */
  function RuledOn(t: Tables, on: LoopId): Tables {
    if ColumnComplete(t, on) then t.(loops := MarkCleared(t.loops, on)) else t
  }

  function CellSet(t: Tables, role: RoleId, on: LoopId, permission: Permission): Tables {
    if !IsRole(t.roles, role) || !IsLoop(t.loops, on) then t
    else
      var staffs := permission.Carries(Emit) && CellOf(t, role, on).staffs;
      RuledOn(t.(cells := t.cells[CellKey(role, on) := CellRow(permission, staffs)]), on)
  }

  function StaffingSet(t: Tables, role: RoleId, on: LoopId, staffs: bool): Result<Tables, AdministrationRefused> {
    if !IsRole(t.roles, role) || !IsLoop(t.loops, on) then Ok(t)
    else if staffs && !CellOf(t, role, on).permission.Carries(Emit) then Err(CannotStaff)
    else if CellKey(role, on) !in t.cells then Ok(t)
    else Ok(t.(cells := t.cells[CellKey(role, on) := CellOf(t, role, on).(staffs := staffs)]))
  }

  /** The rows missing from a column written as they already read. */
  function Filled(t: Tables, on: LoopId): (r: map<CellKey, CellRow>)
    ensures forall key :: key in r <==> key in t.cells || (key.on == on && IsRole(t.roles, key.role))
    ensures forall key :: key in r ==> r[key] == if key in t.cells then t.cells[key] else CellRow(Nothing, false)
  {
    var unruled :=
      map row | row in t.roles && CellKey(row.id, on) !in t.cells :: CellKey(row.id, on) := CellRow(Nothing, false);
    assert forall key :: key in unruled ==> IsRole(t.roles, key.role);
    t.cells + unruled
  }

  function Dismissed(t: Tables, on: LoopId): Tables {
    if !IsLoop(t.loops, on) then t else RuledOn(t.(cells := Filled(t, on)), on)
  }

  // ---- Everything an administrator does -----------------------------------------------------

  datatype Edit =
    | MakeRole(made: RoleRow)
    | NameRole(renamed: RoleId, roleName: string)
    | LimitRole(limited: RoleId, limit: Option<nat>)
    | DropRole(dropped: RoleId)
    | MakeLoop(minted: LoopId, name: string)
    | NameLoop(named: LoopId, newName: string)
    | DropLoop(deleted: LoopId)
    | SetOrder(order: seq<LoopId>)
    | SetCell(role: RoleId, on: LoopId, permission: Permission)
    | SetStaffing(staffing: RoleId, staffed: LoopId, staffs: bool)
    | Dismiss(dismissed: LoopId)
    | MakeUser(enrolled: UserId, user: User)
    | DropUser(gone: UserId)

  /** A refused edit changes nothing. */
  function Landing(r: Result<Tables, AdministrationRefused>, otherwise: Tables): Tables {
    match r
    case Ok(t) => t
    case Err(_) => otherwise
  }

  function Edited(t: Tables, edit: Edit): Tables {
    match edit
    case MakeRole(row) => Landing(RoleCreated(t, row), t)
    case NameRole(id, name) => Landing(RoleRenamed(t, id, name), t)
    case LimitRole(id, limit) => Landing(RoleLimited(t, id, limit), t)
    case DropRole(id) => RoleDeleted(t, id)
    case MakeLoop(id, name) => Landing(LoopCreated(t, id, name), t)
    case NameLoop(id, name) => Landing(LoopRenamed(t, id, name), t)
    case DropLoop(id) => LoopDeleted(t, id)
    case SetOrder(order) => Landing(OrderSet(t, order), t)
    case SetCell(role, on, permission) => CellSet(t, role, on, permission)
    case SetStaffing(role, on, staffs) => Landing(StaffingSet(t, role, on, staffs), t)
    case Dismiss(on) => Dismissed(t, on)
    case MakeUser(id, user) => t.(users := t.users[id := user])
    case DropUser(id) => UserDeleted(t, id)
  }

  /** A record made is made under an id no record has. */
  predicate MayEdit(t: Tables, edit: Edit) {
    match edit
    case MakeRole(row) => !IsRole(t.roles, row.id)
    case MakeLoop(id, _) => !IsLoop(t.loops, id)
    case MakeUser(id, _) => id !in t.users
    case _ => true
  }
}
