/** The store as its repositories write it: rows updated in place, each operation doing what the
    function it is proved against says (`src/configuration/grid.rs`, `loops.rs`,
    `personalisation.rs`, `sign_ins.rs`, and the sweep of `src/lifetimes.rs`). */
module Store {
  import opened Basics
  import opened Names
  import opened Sessions
  import opened LiveState
  import opened Tables
  import opened BaseOrders
  import opened Grid
  import opened GridCoherence
  import opened SignIns
  import opened StoreRuns

  datatype Change<T> = Change(before: T, after: Option<T>)

  /** One row of the staffing query: a marked pair, with the loop it is marked on. */
  datatype MarkedPair = MarkedPair(heldOn: LoopRow, role: RoleId)

  datatype StaffedLoop = StaffedLoop(heldOn: LoopRow, roles: seq<RoleId>)

  /** What the staffing query answers: each marked pair on a reviewed loop once, by the base
      order of the loops and in no order that is promised within one. */
  ghost predicate IsTheStaffingQuery(t: Tables, rows: seq<MarkedPair>) {
    && NoDuplicates(rows)
    && (forall i, j :: 0 <= i < j < |rows| ==> rows[i].heldOn.position <= rows[j].heldOn.position)
    && (forall row :: row in rows <==>
          row.heldOn in t.loops && !row.heldOn.isUnreviewed && CellOf(t, row.role, row.heldOn.id).staffs)
  }

  /** What the answer says of each loop in it. */
  ghost predicate StaffedExactly(t: Tables, s: StaffedLoop) {
    && s.heldOn in t.loops && !s.heldOn.isUnreviewed && s.roles != [] && NoDuplicates(s.roles)
    && (forall role :: role in s.roles <==> CellOf(t, role, s.heldOn.id).staffs)
  }

  /** Every reviewed loop with a staffing role, once, in the base order, with exactly the roles
      marked on it. */
  ghost predicate AnswersStaffing(t: Tables, staffed: seq<StaffedLoop>) {
    && (forall i, j :: 0 <= i < j < |staffed| ==> staffed[i].heldOn.position < staffed[j].heldOn.position)
    && (forall s :: s in staffed ==> StaffedExactly(t, s))
    && (forall row, role :: row in t.loops && !row.isUnreviewed && CellOf(t, role, row.id).staffs ==>
          exists s :: s in staffed && s.heldOn == row)
  }

  /** How far the gathering has got: what has been gathered is what has been read. */
  ghost predicate Gathered(staffed: seq<StaffedLoop>, rows: seq<MarkedPair>) {
    && (forall i, j :: 0 <= i < j < |staffed| ==> staffed[i].heldOn.position < staffed[j].heldOn.position)
    && (forall i :: 0 <= i < |staffed| ==> staffed[i].roles != [] && NoDuplicates(staffed[i].roles))
    && (forall i, role ::
      0 <= i < |staffed| && role in staffed[i].roles ==> MarkedPair(staffed[i].heldOn, role) in rows)
    && (forall row :: row in rows ==> exists i ::
      0 <= i < |staffed| && staffed[i].heldOn == row.heldOn && row.role in staffed[i].roles)
    && (rows != [] ==> staffed != [] && staffed[|staffed| - 1].heldOn == rows[|rows| - 1].heldOn)
    && (rows == [] ==> staffed == [])
  }

  /** Every role's row laid end to end. */
  ghost function Matrix(t: Tables, roles: seq<RoleRow>): seq<Cell> {
    if roles == [] then []
    else Matrix(t, roles[..|roles| - 1]) + CellsAcross(t, roles[|roles| - 1], BaseOrder(t.loops))
  }

  ghost function CellsAcross(t: Tables, role: RoleRow, order: seq<LoopRow>): seq<Cell> {
    if order == [] then []
    else CellsAcross(t, role, order[..|order| - 1]) + [CellFor(t, role, order[|order| - 1])]
  }

  /** The matrix agrees with the rows: a role's stretch of it is that role's row. */
  lemma {:induction false} AcrossIsTheRow(t: Tables, role: RoleRow, order: seq<LoopRow>)
    ensures CellsAcross(t, role, order) == seq(|order|, i requires 0 <= i < |order| => CellFor(t, role, order[i]))
  {
    if order != [] { AcrossIsTheRow(t, role, order[..|order| - 1]); }
  }

  lemma {:induction false} TheMatrixIsTheRows(t: Tables, i: nat)
    requires StoreOk(t) && i < |ByName(t.roles)|
    ensures
      var roles := ByName(t.roles);
      && TheRowOf(t, roles[i].id).Some?
      && Matrix(t, roles[..i + 1]) == Matrix(t, roles[..i]) + TheRowOf(t, roles[i].id).value.cells
  {
    hide ByName, BaseOrder;
    var roles := ByName(t.roles);
    NamedRoleThere(t.roles, i);
    AcrossIsTheRow(t, roles[i], BaseOrder(t.loops));
    assert roles[..i + 1][..i] == roles[..i];
  }

  lemma {:induction false} NothingGathered()
    ensures Gathered([], [])
  {
  }

  lemma {:induction false} LastGathered(staffed: seq<StaffedLoop>, rows: seq<MarkedPair>)
    requires Gathered(staffed, rows)
    ensures staffed == [] <==> rows == []
    ensures staffed != [] ==> staffed[|staffed| - 1].heldOn == rows[|rows| - 1].heldOn
  {
  }

  lemma {:induction false} GatheredOneMore(staffed: seq<StaffedLoop>, rows: seq<MarkedPair>, row: MarkedPair)
    requires Gathered(staffed, rows) && row !in rows && |staffed| > 0
    requires staffed[|staffed| - 1].heldOn == row.heldOn
    ensures
      var last := staffed[|staffed| - 1];
      Gathered(staffed[|staffed| - 1 := last.(roles := last.roles + [row.role])], rows + [row])
  {
    var n := |staffed| - 1;
    var last := staffed[n];
    var more := staffed[n := last.(roles := last.roles + [row.role])];
    assert row.role !in last.roles;
    forall r | r in rows + [row]
      ensures exists i :: 0 <= i < |more| && more[i].heldOn == r.heldOn && r.role in more[i].roles
    {
      if r in rows {
        var i :| 0 <= i < |staffed| && staffed[i].heldOn == r.heldOn && r.role in staffed[i].roles;
        assert more[i].heldOn == r.heldOn && r.role in more[i].roles;
      } else {
        assert more[n].heldOn == r.heldOn && r.role in more[n].roles;
      }
    }
  }

  lemma {:induction false} GatheredNewLoop(staffed: seq<StaffedLoop>, rows: seq<MarkedPair>, row: MarkedPair)
    requires Gathered(staffed, rows)
    requires staffed != [] ==> staffed[|staffed| - 1].heldOn.position < row.heldOn.position
    ensures Gathered(staffed + [StaffedLoop(row.heldOn, [row.role])], rows + [row])
  {
    var more := staffed + [StaffedLoop(row.heldOn, [row.role])];
    forall r | r in rows + [row]
      ensures exists i :: 0 <= i < |more| && more[i].heldOn == r.heldOn && r.role in more[i].roles
    {
      if r in rows {
        var i :| 0 <= i < |staffed| && staffed[i].heldOn == r.heldOn && r.role in staffed[i].roles;
        assert more[i].heldOn == r.heldOn && r.role in more[i].roles;
      } else {
        assert more[|staffed|].heldOn == r.heldOn && r.role in more[|staffed|].roles;
      }
    }
  }

  lemma {:induction false} GatheringAnswers(t: Tables, staffed: seq<StaffedLoop>, rows: seq<MarkedPair>)
    requires IsTheStaffingQuery(t, rows) && Gathered(staffed, rows)
    requires LoopsApart(t.loops)
    ensures AnswersStaffing(t, staffed)
  {
    forall s | s in staffed ensures StaffedExactly(t, s) {
      var i :| 0 <= i < |staffed| && staffed[i] == s;
      assert s.roles[0] in s.roles && MarkedPair(s.heldOn, s.roles[0]) in rows;
      forall role ensures role in s.roles <==> CellOf(t, role, s.heldOn.id).staffs {
        if role in s.roles { assert MarkedPair(s.heldOn, role) in rows; }
        if CellOf(t, role, s.heldOn.id).staffs {
          var row := MarkedPair(s.heldOn, role);
          assert row in rows;
          var k :| 0 <= k < |staffed| && staffed[k].heldOn == row.heldOn && row.role in staffed[k].roles;
          assert k == i;
        }
      }
    }
    forall row, role | row in t.loops && !row.isUnreviewed && CellOf(t, role, row.id).staffs
      ensures exists s :: s in staffed && s.heldOn == row
    {
      assert MarkedPair(row, role) in rows;
    }
  }

  /** Whoever is gathered may answer: each role in the answer holds at least `emit` by the
      evaluator's own lookup. */
  lemma {:induction false} WhoeverStaffsMayAnswer(t: Tables, staffed: seq<StaffedLoop>, s: StaffedLoop, role: RoleId)
    requires StoreOk(t) && AnswersStaffing(t, staffed) && s in staffed && role in s.roles
    ensures HeldBy(t, role, s.heldOn.id).Carries(Emit)
  {
    var i :| 0 <= i < |t.loops| && t.loops[i] == s.heldOn;
    TheRowThere(t.loops, i);
    assert CellKey(role, s.heldOn.id) in t.cells;
  }

  class Transaction {
    var users: map<UserId, User>
    var roles: seq<RoleRow>
    var loops: seq<LoopRow>
    var cells: map<CellKey, CellRow>
    var subscriptions: set<Keepsake>
    var volumes: map<Keepsake, Volume>
    var signIns: map<SignInToken, SignIn>
    /** Whose sign-in each expiry recorded was. */
    var expired: seq<UserId>

    function Rows(): Tables
      reads this
    {
      Tables(users, roles, loops, cells, subscriptions, volumes, signIns)
    }

    /** Every write made to it so far. */
    ghost var writes: Writes

    /** Some legal run of writes leaves these rows, so every theorem about runs of writes is one about
        this object. */
    ghost predicate LeftByWrites()
      reads this
    {
      LegalWrites(writes) && Rows() == LeftBy(writes)
    }

    /** Exactly one write happened since: the rows and the history both say so. */
    twostate predicate Made(w: Written)
      reads this
    {
      && writes == old(writes) + [w]
      && Rows() == Wrote(old(Rows()), w)
    }

    twostate lemma StaysLeftByWrites(w: Written)
      requires old(LeftByWrites()) && Made(w)
      requires w.what.Administers? ==> MayEdit(old(Rows()), w.what.edit)
      ensures LeftByWrites()
    {
      OneMoreWrite(old(writes), w);
    }

    constructor Empty()
      ensures LeftByWrites() && Rows() == NOTHING_CONFIGURED && writes == [] && expired == []
    {
      users, roles, loops, cells, subscriptions, volumes, signIns := map[], [], [], map[], {}, map[], map[];
      expired := [];
      writes := [];
    }

    // ---- The grid ---------------------------------------------------------------------------

    method SetCell(role: RoleId, on: LoopId, permission: Permission, ghost at: int)
      returns (r: Option<Change<Cell>>)
      modifies this
      ensures Made(Written(Administers(Edit.SetCell(role, on, permission)), at))
      ensures Rows() == CellSet(old(Rows()), role, on, permission) && expired == old(expired)
      ensures r.Some? <==> old(ACell(Rows(), role, on)).Some?
      ensures r.Some? ==>
        Some(r.value.before) == old(ACell(Rows(), role, on)) && r.value.after == ACell(Rows(), role, on)
    {
      hide ALoop, ARole, RuledOn;
      writes := writes + [Written(Administers(Edit.SetCell(role, on, permission)), at)];
      var before := ACell(Rows(), role, on);
      if before.None? { return None; }
      var staffs := match permission
        case Emit => CellOf(Rows(), role, on).staffs
        case Control => CellOf(Rows(), role, on).staffs
        case _ => false;
      cells := cells[CellKey(role, on) := CellRow(permission, staffs)];
      RuleOnACompleteColumn(on);
      r := Some(Change(before.value, ACell(Rows(), role, on)));
    }

    method RuleOnACompleteColumn(on: LoopId)
      modifies this`loops
      ensures Rows() == RuledOn(old(Rows()), on)
    {
      if ColumnComplete(Rows(), on) {
        loops := MarkCleared(loops, on);
      }
    }

    method SetStaffing(role: RoleId, on: LoopId, staffs: bool, ghost at: int)
      returns (r: Result<Option<Change<Cell>>, AdministrationRefused>)
      modifies this
      ensures Made(Written(Administers(Edit.SetStaffing(role, on, staffs)), at))
      ensures r.Ok? <==> StaffingSet(old(Rows()), role, on, staffs).Ok?
      ensures r.Ok? ==> Rows() == StaffingSet(old(Rows()), role, on, staffs).value
      ensures r.Err? ==> Rows() == old(Rows()) && r.error == CannotStaff
      ensures r.Ok? ==> (r.value.Some? <==> old(ACell(Rows(), role, on)).Some?)
      ensures r.Ok? && r.value.Some? ==>
        Some(r.value.value.before) == old(ACell(Rows(), role, on)) && r.value.value.after == ACell(Rows(), role, on)
      ensures expired == old(expired)
    {
      writes := writes + [Written(Administers(Edit.SetStaffing(role, on, staffs)), at)];
      var before := ACell(Rows(), role, on);
      if before.None? { return Ok(None); }
      if staffs && !before.value.permission.Carries(Emit) { return Err(CannotStaff); }
      // An update and never an insert: a pair with no row has nothing to mark or to clear.
      if CellKey(role, on) in cells {
        cells := cells[CellKey(role, on) := cells[CellKey(role, on)].(staffs := staffs)];
      }
      r := Ok(Some(Change(before.value, ACell(Rows(), role, on))));
    }

    method DismissUnreviewed(on: LoopId, ghost at: int) returns (r: Option<Change<LoopRow>>)
      modifies this
      ensures Made(Written(Administers(Dismiss(on)), at))
      ensures Rows() == Dismissed(old(Rows()), on) && expired == old(expired)
      ensures r.Some? <==> IsLoop(old(loops), on)
      ensures r.Some? ==> Some(r.value.before) == ALoop(old(loops), on) && r.value.after == ALoop(loops, on)
    {
      hide Filled, ALoop;
      writes := writes + [Written(Administers(Dismiss(on)), at)];
      var before := ALoop(loops, on);
      if before.None? { return None; }
      cells := Filled(Rows(), on);
      RuleOnACompleteColumn(on);
      r := Some(Change(before.value, ALoop(loops, on)));
    }

    /** The two record reads crossed: the roles by name, and each of them along the base order. */
    method TheWholeGrid() returns (grid: seq<Cell>)
      ensures grid == Matrix(Rows(), ByName(roles))
    {
      hide ByName, BaseOrder;
      var named := ByName(roles);
      var order := BaseOrder(loops);
      grid := [];
      for i := 0 to |named|
        invariant grid == Matrix(Rows(), named[..i])
      {
        ghost var before := grid;
        for j := 0 to |order|
          invariant grid == before + CellsAcross(Rows(), named[i], order[..j])
        {
          assert order[..j + 1][..j] == order[..j];
          grid := grid + [CellFor(Rows(), named[i], order[j])];
        }
        assert order[..|order|] == order;
        assert named[..i + 1][..i] == named[..i];
      }
      assert named[..|named|] == named;
    }

    /** Gathered by loop in the order the rows arrive. */
    method TheStaffingRoles(rows: seq<MarkedPair>) returns (staffed: seq<StaffedLoop>)
      requires StoreOk(Rows()) && IsTheStaffingQuery(Rows(), rows)
      ensures AnswersStaffing(Rows(), staffed)
    {
      hide Gathered, AnswersStaffing;
      staffed := [];
      assert Gathered(staffed, rows[..0]) by { NothingGathered(); }
      for i := 0 to |rows|
        invariant Gathered(staffed, rows[..i])
      {
        var row := rows[i];
        assert rows[..i + 1] == rows[..i] + [row];
        assert row !in rows[..i];
        LastGathered(staffed, rows[..i]);
        if staffed != [] && staffed[|staffed| - 1].heldOn.id == row.heldOn.id {
          var last := staffed[|staffed| - 1];
          assert last.heldOn == row.heldOn by { OneRowToAnId(loops, last.heldOn, row.heldOn); }
          GatheredOneMore(staffed, rows[..i], row);
          staffed := staffed[|staffed| - 1 := last.(roles := last.roles + [row.role])];
        } else {
          if staffed != [] {
            DifferentRowsApart(loops, rows[i - 1].heldOn, row.heldOn);
          }
          GatheredNewLoop(staffed, rows[..i], row);
          staffed := staffed + [StaffedLoop(row.heldOn, [row.role])];
        }
      }
      assert rows[..|rows|] == rows;
      GatheringAnswers(Rows(), staffed, rows);
    }

    // ---- Loops ------------------------------------------------------------------------------

    method CreateLoop(id: LoopId, name: string, ghost at: int) returns (r: Result<LoopId, AdministrationRefused>)
      modifies this`loops, this`writes
      ensures Made(Written(Administers(MakeLoop(id, name)), at))
      ensures r.Ok? <==> LoopCreated(old(Rows()), id, name).Ok?
      ensures r.Ok? ==> r.value == id && Rows() == LoopCreated(old(Rows()), id, name).value
      ensures r.Err? ==> Rows() == old(Rows()) && r.error == NameTaken(name)
    {
      writes := writes + [Written(Administers(MakeLoop(id, name)), at)];
      if LoopNameTaken(loops, name) { return Err(NameTaken(name)); }
      loops := loops + [LoopRow(id, name, true, NextPosition(loops))];
      r := Ok(id);
    }

    method DeleteLoop(id: LoopId, ghost at: int) returns (r: Option<Change<LoopRow>>)
      requires StoreOk(Rows())
      modifies this
      ensures Made(Written(Administers(DropLoop(id)), at))
      ensures Rows() == LoopDeleted(old(Rows()), id) && expired == old(expired)
      ensures r == match old(ALoop(loops, id)) case None => None case Some(row) => Some(Change(row, None))
    {
      hide StoreOk, WithoutLoop, ALoop, IsLoop, Wrote, LoopDeleted;
      ADeletionWritten(Rows(), id, at);
      writes := writes + [Written(Administers(DropLoop(id)), at)];
      var before := ALoop(loops, id);
      if before.None? {
        NothingToDelete(Rows(), id);
        return None;
      }
      TakeWhatIsAbout(id);
      loops := WithoutLoop(loops, id);
      r := Some(Change(before.value, None));
    }

    /** The cascade of the schema: the loop's column and whatever is remembered of it. */
    method TakeWhatIsAbout(id: LoopId)
      modifies this`cells, this`subscriptions, this`volumes
      ensures cells == LoopDeleted(old(Rows()), id).cells
      ensures subscriptions == LoopDeleted(old(Rows()), id).subscriptions
      ensures volumes == LoopDeleted(old(Rows()), id).volumes
    {
      hide WithoutLoop;
      cells := map key | key in cells && key.on != id :: cells[key];
      subscriptions := set kept | kept in subscriptions && kept.on != id :: kept;
      volumes := map kept | kept in volumes && kept.on != id :: volumes[kept];
    }

    /** Each loop's position rewritten to its place in the order, where the order is complete. */
    method SetTheLoopOrder(order: seq<LoopId>, ghost at: int)
      returns (r: Result<seq<LoopRow>, AdministrationRefused>)
      requires LoopsApart(loops) && PositionsApart(loops)
      modifies this`loops, this`writes
      ensures Made(Written(Administers(SetOrder(order)), at))
      ensures r.Ok? <==> multiset(order) == multiset(LoopIds(old(loops)))
      ensures r.Ok? ==> OrderSet(old(Rows()), order) == Ok(Rows())
      ensures r.Ok? ==> r.value == BaseOrder(loops) && LoopIds(r.value) == order
      ensures r.Err? ==> Rows() == old(Rows()) && r.error == IncompleteOrder
    {
      hide NamesEveryLoopOnce, BaseOrder, Repositioned, LoopIds;
      writes := writes + [Written(Administers(SetOrder(order)), at)];
      AnOrderSetIsTheOrderRead(Rows(), order);
      if !NamesEveryLoopOnce(order, BaseOrder(loops)) { return Err(IncompleteOrder); }
      NamesNothingTwice(order, BaseOrder(loops));
      WritePositions(order);
      r := Ok(BaseOrder(loops));
    }

    /** One statement for each id in the order, in turn. */
    method WritePositions(order: seq<LoopId>)
      requires NoDuplicates(order)
      modifies this`loops
      ensures loops == Repositioned(old(loops), order)
    {
      hide PositionIn;
      ghost var before := loops;
      for position := 0 to |order|
        modifies this`loops
        invariant |loops| == |before|
        invariant forall i :: 0 <= i < |loops| ==>
          loops[i]
            == if before[i].id in order[..position] then before[i].(position := PositionIn(order, before[i].id))
               else before[i]
      {
        PositionOfTheKth(order, position);
        assert order[..position + 1] == order[..position] + [order[position]];
        loops := Moved(loops, order[position], position);
      }
      assert order[..|order|] == order;
    }

    static function Moved(loops: seq<LoopRow>, id: LoopId, position: nat): (r: seq<LoopRow>)
      ensures |r| == |loops|
      ensures forall i ::
        0 <= i < |r| ==> r[i] == if loops[i].id == id then loops[i].(position := position) else loops[i]
    {
      seq(|loops|, i requires 0 <= i < |loops| =>
        if loops[i].id == id then loops[i].(position := position) else loops[i])
    }

    // ---- Personalisation --------------------------------------------------------------------

    method RememberASubscription(kept: Keepsake, ghost at: int)
      modifies this`subscriptions, this`writes
      ensures Made(Written(KeepsSubscription(kept), at))
      ensures forall other :: other in subscriptions <==>
        other in old(subscriptions) || (other == kept && AllThere(old(Rows()), kept))
    {
      writes := writes + [Written(KeepsSubscription(kept), at)];
      if AllThere(Rows(), kept) {
        subscriptions := subscriptions + {kept};
      }
    }

    method ForgetASubscription(kept: Keepsake, ghost at: int)
      modifies this`subscriptions, this`writes
      ensures Made(Written(DropsSubscription(kept), at))
      ensures forall other :: other in subscriptions <==> other in old(subscriptions) && other != kept
    {
      writes := writes + [Written(DropsSubscription(kept), at)];
      subscriptions := subscriptions - {kept};
    }

    method RememberAVolume(kept: Keepsake, volume: Volume, ghost at: int)
      modifies this`volumes, this`writes
      ensures Made(Written(KeepsVolume(kept, volume), at))
      ensures forall other ::
        LevelIn(Rows(), other)
          == if other == kept && AllThere(old(Rows()), kept) then Some(volume) else LevelIn(old(Rows()), other)
    {
      writes := writes + [Written(KeepsVolume(kept, volume), at)];
      if AllThere(Rows(), kept) {
        volumes := volumes[kept := volume];
      }
    }

    // ---- Sign-ins ---------------------------------------------------------------------------

    method OpenSignIn(token: SignInToken, user: UserId, now: int)
      modifies this`signIns, this`writes
      ensures Made(Written(ToSignIns(Open(token, user)), now))
    {
      writes := writes + [Written(ToSignIns(Open(token, user)), now)];
      signIns := signIns[token := SignIn(user, now, now)];
    }

    method MoveTheStamp(token: SignInToken, now: int)
      modifies this`signIns
      ensures signIns == Noted(old(signIns), token, now)
    {
      if token in signIns && signIns[token].lastActive < now - TO_THE_MINUTE {
        signIns := signIns[token := signIns[token].(lastActive := now)];
      }
    }

    method NoteADeliberateAct(token: SignInToken, now: int)
      modifies this`signIns, this`writes
      ensures Made(Written(ToSignIns(SignIns.Act(token)), now))
    {
      writes := writes + [Written(ToSignIns(SignIns.Act(token)), now)];
      MoveTheStamp(token, now);
    }

    /** A session ended puts its sign-in back in the lobby, where the clock runs. */
    method TheClockStartsNow(token: SignInToken, now: int)
      modifies this`signIns, this`writes
      ensures Made(Written(ToSignIns(ClockStarts(token)), now))
    {
      writes := writes + [Written(ToSignIns(ClockStarts(token)), now)];
      MoveTheStamp(token, now);
    }

    /** The idle ones are read and then taken one at a time, in whatever order they come. */
    method EndSignInsIdleFor(idleFor: int, spared: seq<SignInToken>, now: int)
      returns (ended: seq<UserId>, ghost taken: seq<SignInToken>)
      modifies this`signIns, this`writes
      ensures Made(Written(ToSignIns(Sweep(idleFor, spared)), now))
      ensures signIns == old(signIns) - Abandoned(old(signIns), idleFor, spared, now)
      ensures NoDuplicates(taken) && (forall token ::
        token in taken <==> token in Abandoned(old(signIns), idleFor, spared, now))
      ensures |ended| == |taken| && forall i :: 0 <= i < |taken| ==>
        taken[i] in old(signIns) && ended[i] == old(signIns)[taken[i]].user
    {
      writes := writes + [Written(ToSignIns(Sweep(idleFor, spared)), now)];
      var cutoff := now - idleFor;
      var before := signIns;
      var idle := set token | token in before && before[token].lastActive <= cutoff;
      ended, taken := [], [];
      while idle != {}
        modifies this`signIns
        invariant idle <= before.Keys
        invariant forall token :: token in before ==>
          (token in signIns <==> token in idle || !IsAbandoned(before, token, idleFor, spared, now))
        invariant signIns.Keys <= before.Keys && forall token :: token in signIns ==> signIns[token] == before[token]
        invariant forall token :: token in idle ==> before[token].lastActive <= cutoff
        invariant NoDuplicates(taken)
        invariant forall token :: token in taken <==> token !in idle && IsAbandoned(before, token, idleFor, spared, now)
        invariant |ended| == |taken| && forall i :: 0 <= i < |taken| ==>
          taken[i] in before && ended[i] == before[taken[i]].user
        decreases idle
      {
        var token :| token in idle;
        idle := idle - {token};
        if token !in spared {
          signIns := signIns - {token};
          ended := ended + [before[token].user];
          taken := taken + [token];
        }
      }
      assert signIns == before - Abandoned(before, idleFor, spared, now);
    }

    /** The sweep: the sign-ins holding a session are handed in as they stood, the abandoned
        ended, and one expiry recorded for each. */
    method EndAbandonedSignIns(sessions: seq<Session>, window: int, now: int)
      modifies this`signIns, this`expired, this`writes
      ensures Made(Written(ToSignIns(Sweep(window, SignInsHoldingASession(sessions))), now))
      ensures
        var abandoned := Abandoned(old(signIns), window, SignInsHoldingASession(sessions), now);
        && signIns == old(signIns) - abandoned
        && |expired| == |old(expired)| + |abandoned|
      ensures old(expired) <= expired
      ensures forall user :: user in expired[|old(expired)|..] <==>
        exists token :: token in Abandoned(old(signIns), window, SignInsHoldingASession(sessions), now)
          && old(signIns)[token].user == user
    {
      var holdingASession := SignInsHoldingASession(sessions);
      var ended, taken := EndSignInsIdleFor(window, holdingASession, now);
      for i := 0 to |ended|
        modifies this`expired
        invariant expired == old(expired) + ended[..i]
      {
        expired := expired + [ended[i]];
      }
      assert ended[..|ended|] == ended;
      DistinctCount(taken);
      assert (set token | token in taken) == Abandoned(old(signIns), window, holdingASession, now);
      assert expired[|old(expired)|..] == ended;
      forall token | token in Abandoned(old(signIns), window, holdingASession, now)
        ensures old(signIns)[token].user in ended
      {
        var i :| 0 <= i < |taken| && taken[i] == token;
        assert ended[i] == old(signIns)[token].user;
      }
    }
  }

  lemma {:induction false} NamesNothingTwice(order: seq<LoopId>, present: seq<LoopRow>)
    requires NamesEveryLoopOnce(order, present)
    ensures NoDuplicates(order)
  {
    DistinctCount(order);
  }

  lemma {:induction false} OneRowToAnId(loops: seq<LoopRow>, x: LoopRow, y: LoopRow)
    requires LoopsApart(loops) && x in loops && y in loops && x.id == y.id
    ensures x == y
  {
    var i :| 0 <= i < |loops| && loops[i] == x;
    var j :| 0 <= j < |loops| && loops[j] == y;
  }

  lemma {:induction false} ADeletionWritten(t: Tables, id: LoopId, at: int)
    ensures Wrote(t, Written(Administers(DropLoop(id)), at)) == LoopDeleted(t, id)
    ensures
      var after := LoopDeleted(t, id);
      after == t.(
        loops := WithoutLoop(t.loops, id), cells := after.cells, subscriptions := after.subscriptions,
        volumes := after.volumes)
  {
    hide WithoutLoop;
  }

  lemma {:induction false} NoCellsOfIt(t: Tables, id: LoopId)
    requires CellsOk(t) && !IsLoop(t.loops, id)
    ensures LoopDeleted(t, id).cells == t.cells
  {
    hide WithoutLoop;
    assert forall key :: key in t.cells ==> key.on != id;
  }

  lemma {:induction false} NoKeepsakesOfIt(t: Tables, id: LoopId)
    requires KeepsakesOk(t) && !IsLoop(t.loops, id)
    ensures LoopDeleted(t, id).subscriptions == t.subscriptions && LoopDeleted(t, id).volumes == t.volumes
  {
    hide WithoutLoop;
    assert forall kept :: kept in t.subscriptions ==> kept.on != id;
    assert forall kept :: kept in t.volumes ==> kept.on != id;
  }

  /** A loop that is not there has nothing kept about it. */
  lemma {:induction false} NothingToDelete(t: Tables, id: LoopId)
    requires StoreOk(t) && !IsLoop(t.loops, id)
    ensures LoopDeleted(t, id) == t
  {
    hide CellsOk, KeepsakesOk, LoopsApart, PositionsApart, RolesApart, WithoutLoop;
    NoCellsOfIt(t, id);
    NoKeepsakesOfIt(t, id);
    NobodyWithout(t.loops, id);
  }

  lemma {:induction false} StillALoop(front: seq<LoopRow>, loops: seq<LoopRow>, id: LoopId)
    requires forall row :: row in front ==> row in loops
    ensures IsLoop(front, id) ==> IsLoop(loops, id)
  {
  }

  lemma {:induction false} NobodyWithout(loops: seq<LoopRow>, id: LoopId)
    requires !IsLoop(loops, id)
    ensures WithoutLoop(loops, id) == loops
  {
    if loops != [] {
      var front, last := loops[..|loops| - 1], loops[|loops| - 1];
      assert last in loops;
      StillALoop(front, loops, id);
      NobodyWithout(front, id);
      assert loops == front + [last];
    }
  }
}
