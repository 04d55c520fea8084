/** What Configuration holds, table by table, and the administered order loops are read in
    (`src/configuration/loops.rs` and the schema). Rows are in the order they were inserted. */
module Tables {
  import opened Basics
  import opened Names

  datatype User = User(isSystemAdministrator: bool, isLocked: bool)

  datatype RoleRow = RoleRow(id: RoleId, name: string, maxOccupants: Option<nat>)

  datatype LoopRow = LoopRow(id: LoopId, name: string, isUnreviewed: bool, position: nat)

  datatype CellKey = CellKey(role: RoleId, on: LoopId)

  datatype CellRow = CellRow(permission: Permission, staffs: bool)

  /** What a remembered preference is about. */
  datatype Keepsake = Keepsake(user: UserId, role: RoleId, on: LoopId)

  datatype SignIn = SignIn(user: UserId, startedAt: int, lastActive: int)

  datatype Tables = Tables(
    users: map<UserId, User>,
    roles: seq<RoleRow>,
    loops: seq<LoopRow>,
    cells: map<CellKey, CellRow>,
    subscriptions: set<Keepsake>,
    volumes: map<Keepsake, Volume>,
    signIns: map<SignInToken, SignIn>)

  datatype AdministrationRefused = NameTaken(name: string) | NobodyMayOccupy | CannotStaff | IncompleteOrder

  // ---- Names ------------------------------------------------------------------------------

  /** A name as names are compared: the twenty-six capitals folded, and nothing else. */
  function Folded(name: string): (r: string)
    ensures |r| == |name|
  {
    if name == [] then []
    else [if 'A' <= name[0] <= 'Z' then name[0] - 'A' + 'a' else name[0]] + Folded(name[1..])
  }

  /** Whether `a` is read no later than `b`, character by character. */
  predicate NoLater(a: string, b: string) {
    if a == [] then true
    else if b == [] then false
    else if a[0] != b[0] then a[0] < b[0]
    else NoLater(a[1..], b[1..])
  }

  // ---- Rows -------------------------------------------------------------------------------

  predicate IsLoop(loops: seq<LoopRow>, id: LoopId) {
    exists row :: row in loops && row.id == id
  }

  predicate IsRole(roles: seq<RoleRow>, id: RoleId) {
    exists row :: row in roles && row.id == id
  }

  /** The three records a preference is about. */
  predicate AllThere(t: Tables, kept: Keepsake) {
    kept.user in t.users && IsRole(t.roles, kept.role) && IsLoop(t.loops, kept.on)
  }

  function LoopIds(loops: seq<LoopRow>): (r: seq<LoopId>)
    ensures |r| == |loops| && forall i :: 0 <= i < |r| ==> r[i] == loops[i].id
  {
    if loops == [] then [] else LoopIds(loops[..|loops| - 1]) + [loops[|loops| - 1].id]
  }

  function ALoop(loops: seq<LoopRow>, id: LoopId): (r: Option<LoopRow>)
    ensures r.Some? ==> r.value in loops && r.value.id == id
    ensures r.None? <==> !IsLoop(loops, id)
  {
    if loops == [] then None
    else if loops[0].id == id then Some(loops[0])
    else ALoop(loops[1..], id)
  }

  function ARole(roles: seq<RoleRow>, id: RoleId): (r: Option<RoleRow>)
    ensures r.Some? ==> r.value in roles && r.value.id == id
    ensures r.None? <==> !IsRole(roles, id)
  {
    if roles == [] then None
    else if roles[0].id == id then Some(roles[0])
    else ARole(roles[1..], id)
  }

  function WithoutLoop(loops: seq<LoopRow>, id: LoopId): (r: seq<LoopRow>)
    ensures forall row :: row in r <==> row in loops && row.id != id
  {
    if loops == [] then []
    else WithoutLoop(loops[..|loops| - 1], id)
         + if loops[|loops| - 1].id == id then [] else [loops[|loops| - 1]]
  }

  function WithoutRole(roles: seq<RoleRow>, id: RoleId): (r: seq<RoleRow>)
    ensures forall row :: row in r <==> row in roles && row.id != id
  {
    if roles == [] then []
    else WithoutRole(roles[..|roles| - 1], id)
         + if roles[|roles| - 1].id == id then [] else [roles[|roles| - 1]]
  }

  /** One past the last position there is. */
  function NextPosition(loops: seq<LoopRow>): (p: nat)
    ensures forall row :: row in loops ==> row.position < p
  {
    if loops == [] then 0
    else
      var before, last := NextPosition(loops[..|loops| - 1]), loops[|loops| - 1].position;
      assert loops == loops[..|loops| - 1] + [loops[|loops| - 1]];
      if before > last then before else last + 1
  }

  // ---- The base order ---------------------------------------------------------------------

  /** `row` placed after every row at or before its own position. */
  function Placed(sorted: seq<LoopRow>, row: LoopRow): seq<LoopRow> {
    if sorted == [] || sorted[|sorted| - 1].position <= row.position then sorted + [row]
    else Placed(sorted[..|sorted| - 1], row) + [sorted[|sorted| - 1]]
  }

  /** Every loop, by its administered position; the rows come in the order they were made, so
      that is what a tie would fall back on. */
  function BaseOrder(loops: seq<LoopRow>): seq<LoopRow> {
    if loops == [] then [] else Placed(BaseOrder(loops[..|loops| - 1]), loops[|loops| - 1])
  }

  ghost predicate Sorted(loops: seq<LoopRow>) {
    forall i, j :: 0 <= i < j < |loops| ==> loops[i].position <= loops[j].position
  }

  ghost predicate PositionsApart(loops: seq<LoopRow>) {
    forall i, j :: 0 <= i < j < |loops| ==> loops[i].position != loops[j].position
  }

  ghost predicate LoopsApart(loops: seq<LoopRow>) {
    forall i, j :: 0 <= i < j < |loops| ==> loops[i].id != loops[j].id
  }

  ghost predicate RolesApart(roles: seq<RoleRow>) {
    forall i, j :: 0 <= i < j < |roles| ==> roles[i].id != roles[j].id
  }

  /** As many different ids as it has entries and as there are loops, with no loop left out. */
  predicate NamesEveryLoopOnce(order: seq<LoopId>, present: seq<LoopRow>) {
    var named := set id | id in order;
    && |named| == |order|
    && |named| == |present|
    && forall row :: row in present ==> row.id in named
  }

  function PositionIn(order: seq<LoopId>, id: LoopId): (k: nat)
    ensures k <= |order|
    ensures k < |order| ==> order[k] == id
    ensures id in order ==> k < |order|
  {
    if order == [] then 0
    else if order[0] == id then 0
    else 1 + PositionIn(order[1..], id)
  }

  /** Each row moved to the place its loop has in the order; a loop it does not name stands. */
  function Repositioned(loops: seq<LoopRow>, order: seq<LoopId>): (r: seq<LoopRow>)
    ensures |r| == |loops|
    ensures forall i :: 0 <= i < |r| ==>
      r[i] == if loops[i].id in order then loops[i].(position := PositionIn(order, loops[i].id)) else loops[i]
  {
    seq(|loops|, i requires 0 <= i < |loops| =>
      if loops[i].id in order then loops[i].(position := PositionIn(order, loops[i].id)) else loops[i])
  }

  // ---- Loops, as they are administered ------------------------------------------------------

  predicate LoopNameTaken(loops: seq<LoopRow>, name: string) {
    exists row :: row in loops && Folded(row.name) == Folded(name)
  }

  function LoopCreated(t: Tables, id: LoopId, name: string): Result<Tables, AdministrationRefused> {
    if LoopNameTaken(t.loops, name) then Err(NameTaken(name))
    else Ok(t.(loops := t.loops + [LoopRow(id, name, true, NextPosition(t.loops))]))
  }

  /** The row goes, and with it its column and all that is remembered about it. */
  function LoopDeleted(t: Tables, id: LoopId): Tables {
    t.(loops := WithoutLoop(t.loops, id),
       cells := map key | key in t.cells && key.on != id :: t.cells[key],
       subscriptions := (set kept | kept in t.subscriptions && kept.on != id :: kept),
       volumes := map kept | kept in t.volumes && kept.on != id :: t.volumes[kept])
  }

  function Renamed(loops: seq<LoopRow>, id: LoopId, name: string): (r: seq<LoopRow>)
    ensures |r| == |loops|
    ensures forall i :: 0 <= i < |r| ==> r[i] == if loops[i].id == id then loops[i].(name := name) else loops[i]
  {
    seq(|loops|, i requires 0 <= i < |loops| => if loops[i].id == id then loops[i].(name := name) else loops[i])
  }

  function LoopRenamed(t: Tables, id: LoopId, name: string): Result<Tables, AdministrationRefused> {
    if !IsLoop(t.loops, id) then Ok(t)
    else if exists row :: row in t.loops && row.id != id && Folded(row.name) == Folded(name) then Err(NameTaken(name))
    else Ok(t.(loops := Renamed(t.loops, id, name)))
  }

  function OrderSet(t: Tables, order: seq<LoopId>): Result<Tables, AdministrationRefused> {
    if NamesEveryLoopOnce(order, BaseOrder(t.loops)) then Ok(t.(loops := Repositioned(t.loops, order)))
    else Err(IncompleteOrder)
  }

  // ---- Roles, as they are administered ------------------------------------------------------

  predicate RoleNameTaken(roles: seq<RoleRow>, name: string) {
    exists row :: row in roles && Folded(row.name) == Folded(name)
  }

  function RoleCreated(t: Tables, row: RoleRow): Result<Tables, AdministrationRefused> {
    if row.maxOccupants == Some(0) then Err(NobodyMayOccupy)
    else if RoleNameTaken(t.roles, row.name) then Err(NameTaken(row.name))
    else Ok(t.(roles := t.roles + [row]))
  }

  function RolesRenamed(roles: seq<RoleRow>, id: RoleId, name: string): (r: seq<RoleRow>)
    ensures |r| == |roles|
    ensures forall i :: 0 <= i < |r| ==> r[i] == if roles[i].id == id then roles[i].(name := name) else roles[i]
  {
    seq(|roles|, i requires 0 <= i < |roles| => if roles[i].id == id then roles[i].(name := name) else roles[i])
  }

  function RoleRenamed(t: Tables, id: RoleId, name: string): Result<Tables, AdministrationRefused> {
    if !IsRole(t.roles, id) then Ok(t)
    else if exists row :: row in t.roles && row.id != id && Folded(row.name) == Folded(name) then Err(NameTaken(name))
    else Ok(t.(roles := RolesRenamed(t.roles, id, name)))
  }

  function RolesLimited(roles: seq<RoleRow>, id: RoleId, limit: Option<nat>): (r: seq<RoleRow>)
    ensures |r| == |roles|
    ensures forall i :: 0 <= i < |r| ==>
      r[i] == if roles[i].id == id then roles[i].(maxOccupants := limit) else roles[i]
  {
    seq(|roles|, i requires 0 <= i < |roles| =>
      if roles[i].id == id then roles[i].(maxOccupants := limit) else roles[i])
  }

  /** No limit of none at all, whether or not there is a role to limit. */
  function RoleLimited(t: Tables, id: RoleId, limit: Option<nat>): Result<Tables, AdministrationRefused> {
    if limit == Some(0) then Err(NobodyMayOccupy)
    else Ok(t.(roles := RolesLimited(t.roles, id, limit)))
  }

  /** `row` put after every role whose name is read no later than its own. */
  function RolePut(sorted: seq<RoleRow>, row: RoleRow): seq<RoleRow> {
    if sorted == [] || NoLater(Folded(sorted[|sorted| - 1].name), Folded(row.name)) then sorted + [row]
    else RolePut(sorted[..|sorted| - 1], row) + [sorted[|sorted| - 1]]
  }

  /** Every role by name, as a list of them is picked from. */
  function ByName(roles: seq<RoleRow>): seq<RoleRow> {
    if roles == [] then [] else RolePut(ByName(roles[..|roles| - 1]), roles[|roles| - 1])
  }

  function RoleDeleted(t: Tables, id: RoleId): Tables {
    t.(roles := WithoutRole(t.roles, id),
       cells := map key | key in t.cells && key.role != id :: t.cells[key],
       subscriptions := (set kept | kept in t.subscriptions && kept.role != id :: kept),
       volumes := map kept | kept in t.volumes && kept.role != id :: t.volumes[kept])
  }

  function UserDeleted(t: Tables, id: UserId): Tables {
    t.(users := t.users - {id},
       subscriptions := (set kept | kept in t.subscriptions && kept.user != id :: kept),
       volumes := map kept | kept in t.volumes && kept.user != id :: t.volumes[kept],
       signIns := map token | token in t.signIns && t.signIns[token].user != id :: t.signIns[token])
  }
}
