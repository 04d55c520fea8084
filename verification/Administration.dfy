/** What administration under way does to people in their seats, over every story: a ruling on a loop
    is for good, and nobody is ever seated beyond a role's limit. */
module Administration {
  import opened Basics
  import opened Names
  import opened Deployment
  import opened Sessions
  import opened LiveState
  import opened Invariants
  import opened Tables
  import opened Grid
  import opened GridCoherence
  import opened Store
  import opened Authorisation
  import opened Signalling

  lemma {:induction false} OneTurnFurther(ladder: Ladder, story: Story, k: nat)
    requires 0 < k <= |story|
    ensures story[..k] == story[..k - 1] + [story[k - 1]]
    ensures WorldAfter(ladder, story[..k]) == Passed(WorldAfter(ladder, story[..k - 1]), story[k - 1])
    ensures Plausible(ladder, story[..k]) <==>
      Plausible(ladder, story[..k - 1]) && MayPass(ladder, story[..k - 1], story[k - 1])
  {
    hide WorldAfter, Plausible, MayPass, Passed;
    assert story[..k] == story[..k - 1] + [story[k - 1]];
    OneTurnMore(ladder, story[..k - 1], story[k - 1]);
  }

  // ---- A ruling is for good -----------------------------------------------------------------------

  lemma {:induction false} OnlyMakingMakesALoop(t: Tables, edit: Edit, on: LoopId)
    requires IsLoop(Edited(t, edit).loops, on) && !(edit.MakeLoop? && edit.minted == on)
    ensures IsLoop(t.loops, on)
  {
    hide ColumnComplete, Filled, CellOf, LoopNameTaken, Folded, NamesEveryLoopOnce, BaseOrder, NextPosition;
    hide RoleNameTaken, PositionIn;
    var after := Edited(t, edit).loops;
    if edit.DropLoop? {
      assert forall row :: row in after ==> row in t.loops;
    } else if edit.MakeLoop? {
      assert forall row :: row in after && row.id == on ==> row in t.loops;
    } else {
      SameLoops(t.loops, after);
    }
  }

  /** The turn leaves every role ruled on for that loop, by setting a cell of it or dismissing it. */
  ghost predicate CompletesTheRuling(w: World, turn: Turn, on: LoopId) {
    && turn.what.Edits? && RulesOn(w.tables, turn.what.edit, on)
    && ColumnComplete(Edited(w.tables, turn.what.edit), on)
  }

  predicate Makes(turn: Turn, on: LoopId) {
    turn.what.Edits? && turn.what.edit.MakeLoop? && turn.what.edit.minted == on
  }

  lemma {:induction false} OnlyEditsMoveRecords(w: World, turn: Turn)
    ensures TablesAfter(w, turn).loops
         == if turn.what.Edits? then Edited(w.tables, turn.what.edit).loops else w.tables.loops
    ensures TablesAfter(w, turn).roles
         == if turn.what.Edits? then Edited(w.tables, turn.what.edit).roles else w.tables.roles
  {
    hide Asked, AllThere, TheRoleOf, Edited;
  }

  lemma {:induction false} AMarkOneTurnOn(ladder: Ladder, story: Story, turn: Turn, on: LoopId)
    requires Plausible(ladder, story) && MayPass(ladder, story, turn) && !Makes(turn, on)
    requires IsLoop(Passed(WorldAfter(ladder, story), turn).tables.loops, on)
    ensures
      var w, after := WorldAfter(ladder, story), Passed(WorldAfter(ladder, story), turn);
      && IsLoop(w.tables.loops, on)
      && (Marked(after.tables, on) <==> Marked(w.tables, on) && !CompletesTheRuling(w, turn, on))
  {
    hide WorldAfter, Plausible, StoreOk, Edited, RulesOn, ColumnComplete, TablesAfter, Caused, SocketsAfter;
    hide NeverTouched, AnswersStaffing;
    var w := WorldAfter(ladder, story);
    EveryStoryIsALegalRun(ladder, story);
    OnlyEditsMoveRecords(w, turn);
    if turn.what.Edits? {
      OnlyMakingMakesALoop(w.tables, turn.what.edit, on);
      AMarkClearsOnceAndForAll(w.tables, turn.what.edit, on);
    }
  }

  /** From any point of a story on, and for as long as no other loop is made under its id, a loop that
      is there bears its mark exactly where it bore it then and no ruling has been completed since: so
      a mark once cleared never returns, whatever else is administered. */
  lemma {:induction false} ARulingIsForGood(ladder: Ladder, story: Story, k: nat, on: LoopId)
    requires Plausible(ladder, story) && k <= |story|
    requires forall i :: k <= i < |story| ==> !Makes(story[i], on)
    requires IsLoop(WorldAfter(ladder, story).tables.loops, on)
    ensures IsLoop(WorldAfter(ladder, story[..k]).tables.loops, on)
    ensures
      Marked(WorldAfter(ladder, story).tables, on) <==>
        && Marked(WorldAfter(ladder, story[..k]).tables, on)
        && forall i :: k <= i < |story| ==> !CompletesTheRuling(WorldAfter(ladder, story[..i]), story[i], on)
    decreases |story|
  {
    hide WorldAfter, Plausible, MayPass, Passed, CompletesTheRuling, Marked;
    if k == |story| {
      assert story[..k] == story;
    } else {
      var n := |story| - 1;
      var before := story[..n];
      assert story[..n + 1] == story;
      OneTurnFurther(ladder, story, n + 1);
      AMarkOneTurnOn(ladder, before, story[n], on);
      ARulingIsForGood(ladder, before, k, on);
      assert forall i :: 0 <= i <= n ==> before[..i] == story[..i];
    }
  }

  // ---- Nobody is seated beyond the limit --------------------------------------------------------------

  /** How many the role seats, as administered now. */
  function LimitOf(t: Tables, role: RoleId): Option<nat> {
    match ARole(t.roles, role)
    case Some(row) => row.maxOccupants
    case None => None
  }

  ghost predicate WithinItsLimit(w: World, role: RoleId) {
    LimitOf(w.tables, role).Some? ==> |OccupantsOf(w.live.sessions, role)| <= LimitOf(w.tables, role).value
  }

  /** The edit sets the role's limit beneath the number already seated in it. */
  ghost predicate LowersBeneath(w: World, turn: Turn, role: RoleId) {
    && turn.what.Edits? && turn.what.edit.LimitRole? && turn.what.edit.limited == role
    && IsRole(w.tables.roles, role)
    && turn.what.edit.limit.Some? && 0 < turn.what.edit.limit.value < |OccupantsOf(w.live.sessions, role)|
  }

  lemma {:induction false} TheLimitThere(t: Tables, row: RoleRow)
    requires RolesApart(t.roles) && row in t.roles
    ensures LimitOf(t, row.id) == row.maxOccupants
  {
    var i :| 0 <= i < |t.roles| && t.roles[i] == row;
    TheRoleThere(t.roles, i);
  }

  lemma {:induction false} SameLimit(t: Tables, u: Tables, role: RoleId)
    requires RolesApart(t.roles)
    requires IsRole(u.roles, role) ==> exists row :: row in t.roles && row.id == role
    requires IsRole(t.roles, role) ==> IsRole(u.roles, role)
    requires forall row :: row in u.roles && row.id == role ==>
      exists was :: was in t.roles && was.id == role && was.maxOccupants == row.maxOccupants
    ensures LimitOf(u, role) == LimitOf(t, role)
  {
    if IsRole(u.roles, role) {
      var row := ARole(u.roles, role).value;
      var was :| was in t.roles && was.id == role && was.maxOccupants == row.maxOccupants;
      TheLimitThere(t, was);
    }
  }

  /** An edit moves a role's limit by setting it, by making the role or by deleting it. */
  lemma {:induction false} TheLimitOnceEdited(t: Tables, edit: Edit, role: RoleId)
    requires StoreOk(t) && MayEdit(t, edit)
    ensures
      var limit := LimitOf(Edited(t, edit), role);
      if edit.LimitRole? && edit.limited == role && IsRole(t.roles, role) && edit.limit != Some(0)
      then limit == edit.limit
      else if edit.MakeRole? && edit.made.id == role then limit == None || limit == edit.made.maxOccupants
      else if edit.DropRole? && edit.dropped == role then limit == None
      else limit == LimitOf(t, role)
  {
    hide StoreOk, ColumnComplete, Filled, CellOf, LoopNameTaken, RoleNameTaken, Folded, NamesEveryLoopOnce, BaseOrder;
    hide NextPosition, RolesApart, LimitOf, IsRole;
    RolesAreApart(t);
    if edit.MakeRole? {
      if RoleCreated(t, edit.made).Ok? { ARoleMadeLimits(t, edit.made, role); }
      if edit.made.id == role { NoLimit(t, role); }
    } else if edit.NameRole? {
      if RoleRenamed(t, edit.renamed, edit.roleName).Ok? {
        ReplacedLimits(t, RoleRenamed(t, edit.renamed, edit.roleName).value, role);
      }
    } else if edit.LimitRole? {
      if edit.limit != Some(0) { LimitedLimits(t, edit.limited, edit.limit, role); }
    } else if edit.DropRole? {
      ADroppedRoleLimits(t, edit.dropped, role);
    } else {
      hide Edited;
      OtherEditsLeaveRoles(t, edit);
      SameRoleRows(t, Edited(t, edit), role);
    }
  }

  lemma {:induction false} OtherEditsLeaveRoles(t: Tables, edit: Edit)
    requires !edit.MakeRole? && !edit.NameRole? && !edit.LimitRole? && !edit.DropRole?
    ensures Edited(t, edit).roles == t.roles
  {
    hide ColumnComplete, Filled, CellOf, LoopNameTaken, Folded, NamesEveryLoopOnce, BaseOrder, NextPosition;
    hide WithoutLoop, Renamed, Repositioned, IsRole, IsLoop;
  }

  lemma {:induction false} RolesAreApart(t: Tables)
    requires StoreOk(t)
    ensures RolesApart(t.roles)
  {
  }

  lemma {:induction false} ARoleMadeLimits(t: Tables, made: RoleRow, role: RoleId)
    requires RolesApart(t.roles) && !IsRole(t.roles, made.id)
    ensures LimitOf(t.(roles := t.roles + [made]), role)
         == if role == made.id then made.maxOccupants else LimitOf(t, role)
  {
    var u := t.(roles := t.roles + [made]);
    forall i, j | 0 <= i < j < |u.roles| ensures u.roles[i].id != u.roles[j].id {
      assert j < |t.roles| || u.roles[i] in t.roles;
    }
    if role == made.id {
      assert made in u.roles;
      TheLimitThere(u, made);
    } else {
      assert forall row :: row in t.roles ==> row in u.roles;
      SameLimit(t, u, role);
    }
  }

  lemma {:induction false} ReplacedLimits(t: Tables, u: Tables, role: RoleId)
    requires RolesApart(t.roles) && |u.roles| == |t.roles|
    requires forall i :: 0 <= i < |t.roles| ==>
      u.roles[i].id == t.roles[i].id && (t.roles[i].id == role ==> u.roles[i].maxOccupants == t.roles[i].maxOccupants)
    ensures LimitOf(u, role) == LimitOf(t, role)
  {
    hide LimitOf, IsRole;
    SameRoleIds(t.roles, u.roles, role);
    if IsRole(u.roles, role) {
      var row := ARole(u.roles, role).value;
      var i :| 0 <= i < |u.roles| && u.roles[i] == row;
      TheRoleThere(t.roles, i);
      ItsLimit(t, t.roles[i]);
      ItsLimit(u, row);
    } else {
      NoLimit(t, role);
      NoLimit(u, role);
    }
  }

  lemma {:induction false} ItsLimit(t: Tables, row: RoleRow)
    requires ARole(t.roles, row.id) == Some(row)
    ensures LimitOf(t, row.id) == row.maxOccupants
  {
  }

  lemma {:induction false} NoLimit(t: Tables, role: RoleId)
    requires !IsRole(t.roles, role)
    ensures LimitOf(t, role) == None
  {
  }

  lemma {:induction false} SameRoleIds(a: seq<RoleRow>, b: seq<RoleRow>, role: RoleId)
    requires |a| == |b| && forall i :: 0 <= i < |a| ==> a[i].id == b[i].id
    ensures IsRole(a, role) <==> IsRole(b, role)
  {
    if IsRole(a, role) {
      var row :| row in a && row.id == role;
      var i :| 0 <= i < |a| && a[i] == row;
      assert b[i] in b;
    }
    if IsRole(b, role) {
      var row :| row in b && row.id == role;
      var i :| 0 <= i < |b| && b[i] == row;
      assert a[i] in a;
    }
  }

  lemma {:induction false} LimitedLimits(t: Tables, id: RoleId, limit: Option<nat>, role: RoleId)
    requires RolesApart(t.roles)
    ensures
      var u := t.(roles := RolesLimited(t.roles, id, limit));
      LimitOf(u, role) == if role == id && IsRole(t.roles, id) then limit else LimitOf(t, role)
  {
    hide LimitOf;
    var u := t.(roles := RolesLimited(t.roles, id, limit));
    if role == id && IsRole(t.roles, id) {
      var row :| row in t.roles && row.id == id;
      var i :| 0 <= i < |t.roles| && t.roles[i] == row;
      assert u.roles[i] in u.roles;
      assert RolesApart(u.roles) by { hide RolesLimited; }
      TheLimitThere(u, u.roles[i]);
    } else {
      if role == id { assert forall i :: 0 <= i < |t.roles| ==> t.roles[i] in t.roles; }
      ReplacedLimits(t, u, role);
    }
  }

  lemma {:induction false} ADroppedRoleLimits(t: Tables, id: RoleId, role: RoleId)
    requires RolesApart(t.roles)
    ensures LimitOf(RoleDeleted(t, id), role) == if role == id then None else LimitOf(t, role)
  {
    var u := RoleDeleted(t, id);
    if role == id {
      assert !IsRole(u.roles, role);
    } else {
      SameLimit(t, u, role);
    }
  }

  lemma {:induction false} NobodySeatedYet(sessions: seq<Session>, role: RoleId)
    requires forall s :: s in sessions ==> s.role != role
    ensures OccupantsOf(sessions, role) == []
  {
    if sessions != [] { NobodySeatedYet(sessions[1..], role); }
  }

  lemma {:induction false} NobodyIsInARoleBeingMade(ladder: Ladder, story: Story, turn: Turn, role: RoleId)
    requires MayPass(ladder, story, turn) && turn.what.Edits? && turn.what.edit.MakeRole?
    requires turn.what.edit.made.id == role
    ensures OccupantsOf(WorldAfter(ladder, story).live.sessions, role) == []
  {
    hide WorldAfter, MayEdit;
    assert story[..|story|] == story;
    NobodySeatedYet(WorldAfter(ladder, story).live.sessions, role);
  }

  /** The seat asked for names the limit its role has now. */
  lemma {:induction false} TheLimitAskedFor(w: World, turn: Turn)
    requires Caused(w, turn).Some? && Caused(w, turn).value.act.Assume? && turn.what.AsksToAssume?
    ensures
      var a := Caused(w, turn).value.act.assuming;
      a.role == turn.what.role && a.limit == LimitOf(w.tables, a.role)
  {
    hide Evaluate;
  }

  lemma {:induction false} OnlyAskingSeats(w: World, turn: Turn)
    requires Caused(w, turn).Some? && Caused(w, turn).value.act.Assume?
    requires turn.what.Otherwise? ==> NeedsNoMessage(turn.what.act)
    ensures turn.what.AsksToAssume?
  {
    hide Evaluate, Asked, SeatAskedFor, WithinFor, AsStaffed, TheRoleOf;
  }

  /** No turn of any story adds to a role but within the limit its row has now. */
  lemma {:induction false} NobodyIsSeatedBeyondTheLimit(ladder: Ladder, story: Story, turn: Turn, role: RoleId)
    requires Plausible(ladder, story) && MayPass(ladder, story, turn)
    ensures
      var w, after := WorldAfter(ladder, story), Passed(WorldAfter(ladder, story), turn);
      && (|OccupantsOf(after.live.sessions, role)| > |OccupantsOf(w.live.sessions, role)| ==>
            turn.what.AsksToAssume? && WithinItsLimit(after, role))
      && (turn.what.Edits? ==> after.live == w.live)
  {
    hide WorldAfter, Plausible, StoreOk, TablesAfter, Caused, SocketsAfter, Step, OccupantsOf, LimitOf, Coherent;
    hide NeverTouched, AnswersStaffing, MayEdit, AfterAssume;
    var w := WorldAfter(ladder, story);
    EveryStoryIsALegalRun(ladder, story);
    OnlyEditsMoveRecords(w, turn);
    if turn.what.Edits? { EditsMoveNobody(w, turn); }
    var caused, minted := Caused(w, turn), MintedIn(LiveRun(ladder, story));
    if caused.Some? {
      if caused.value.act.Assume? {
        OnlyAskingSeats(w, turn);
        TheLimitAskedFor(w, turn);
        var a := caused.value.act.assuming;
        AnAssumeFillsOnlyToTheLimit(w.live, minted, a, caused.value.act.minted, turn.at, role);
        ASeatingIsAStep(w.live, caused.value);
        CausedNow(w, turn);
        SameRoleRows(w.tables, TablesAfter(w, turn), role);
      } else {
        NobodyIsAdded(w.live, minted, caused.value, role);
      }
    }
  }

  lemma {:induction false} EditsMoveNobody(w: World, turn: Turn)
    requires turn.what.Edits?
    ensures Caused(w, turn).None?
  {
  }

  lemma {:induction false} CausedNow(w: World, turn: Turn)
    ensures Caused(w, turn).Some? ==> Caused(w, turn).value.at == turn.at
  {
    hide Evaluate, Asked, SeatAskedFor, WithinFor, AsStaffed, TheRoleOf;
  }

  lemma {:induction false} ASeatingIsAStep(l: Live, e: Event)
    requires e.act.Assume?
    ensures Step(l, e) == AfterAssume(l, e.act.assuming, e.act.minted, e.at)
  {
    hide AfterAssume;
  }

  lemma {:induction false} SameRoleRows(t: Tables, u: Tables, role: RoleId)
    requires t.roles == u.roles
    ensures LimitOf(t, role) == LimitOf(u, role)
  {
  }

  lemma {:induction false} NobodyIsAdded(l: Live, minted: set<SessionId>, e: Event, role: RoleId)
    requires !e.act.Assume?
    ensures |OccupantsOf(Step(l, e).sessions, role)| <= |OccupantsOf(l.sessions, role)|
  {
    hide Done, Projected;
    if e.act.EndedByItsOwnHolder? {
      if IsLive(l.sessions, e.act.ending) { OccupantsAfterRemoval(l.sessions, At(l.sessions, e.act.ending), role); }
    } else {
      SeatsStand(l, e);
      SameRoles(l.sessions, Step(l, e).sessions, role);
    }
  }

  /** A role within its limit is taken past it by one thing only: an edit that sets the limit beneath
      the number already seated. */
  lemma {:induction false} OnlyLoweringGoesPastIt(ladder: Ladder, story: Story, turn: Turn, role: RoleId)
    requires Plausible(ladder, story) && MayPass(ladder, story, turn)
    requires WithinItsLimit(WorldAfter(ladder, story), role)
    ensures WithinItsLimit(Passed(WorldAfter(ladder, story), turn), role) <==>
      !LowersBeneath(WorldAfter(ladder, story), turn, role)
  {
    hide WorldAfter, Plausible, StoreOk, TablesAfter, Caused, SocketsAfter, Step, OccupantsOf, LimitOf, Coherent;
    hide NeverTouched, AnswersStaffing, MayEdit, Edited, IsRole;
    var w, after := WorldAfter(ladder, story), Passed(WorldAfter(ladder, story), turn);
    EveryStoryIsALegalRun(ladder, story);
    NobodyIsSeatedBeyondTheLimit(ladder, story, turn, role);
    OnlyEditsMoveRecords(w, turn);
    if turn.what.Edits? {
      var edit := turn.what.edit;
      TheLimitOnceEdited(w.tables, edit, role);
      SameRoleRows(Edited(w.tables, edit), after.tables, role);
      if edit.MakeRole? && edit.made.id == role { NobodyIsInARoleBeingMade(ladder, story, turn, role); }
    } else {
      SameRoleRows(w.tables, after.tables, role);
    }
  }

  /** At every point of every story a role is within its limit, unless an edit at some point set the
      limit beneath the number seated and it has been past it ever since. */
  lemma {:induction false} PastTheLimitOnlySinceLowering(ladder: Ladder, story: Story, role: RoleId)
    requires Plausible(ladder, story)
    ensures !WithinItsLimit(WorldAfter(ladder, story), role) <==>
      exists k :: 0 <= k < |story| && PastItSince(ladder, story, k, role)
    decreases |story|
  {
    hide WorldAfter, Plausible, MayPass, Passed, WithinItsLimit, LowersBeneath;
    assert story[..|story|] == story;
    if !WithinItsLimit(WorldAfter(ladder, story), role) {
      if story == [] {
        NothingToBePast(ladder, role);
      } else {
        var n := |story| - 1;
        var before := story[..n];
        OneTurnFurther(ladder, story, n + 1);
        assert forall i :: 0 <= i <= n ==> before[..i] == story[..i];
        if WithinItsLimit(WorldAfter(ladder, before), role) {
          OnlyLoweringGoesPastIt(ladder, before, story[n], role);
          assert PastItSince(ladder, story, n, role);
        } else {
          PastTheLimitOnlySinceLowering(ladder, before, role);
          var k :| 0 <= k < |before| && PastItSince(ladder, before, k, role);
          assert PastItSince(ladder, story, k, role);
        }
      }
    }
  }

  /** The turn at `k` set the limit beneath those seated, and the role has been past it since. */
  ghost predicate PastItSince(ladder: Ladder, story: Story, k: nat, role: RoleId)
    requires k < |story|
  {
    && LowersBeneath(WorldAfter(ladder, story[..k]), story[k], role)
    && forall j :: k < j <= |story| ==> !WithinItsLimit(WorldAfter(ladder, story[..j]), role)
  }

  lemma {:induction false} NothingToBePast(ladder: Ladder, role: RoleId)
    ensures WithinItsLimit(WorldAfter(ladder, []), role)
  {
  }
}
