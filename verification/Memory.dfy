/** Write-through memory: what is remembered of a pair is always the console that pair last had,
    so the next assume puts it back and nothing that was not safe to put back. */
module Memory {
  import opened Basics
  import opened Names
  import opened Deployment
  import opened Sessions
  import opened LiveState
  import opened Invariants
  import opened Runs
  import opened Tables
  import opened BaseOrders
  import opened Grid
  import opened GridCoherence
  import opened Personalisation
  import opened Authorisation
  import opened Signalling
  import opened RoutingSafety

  /** The session this user holds in this role, where they hold one. */
  ghost function InTheRole(sessions: seq<Session>, user: UserId, role: RoleId): Option<Session> {
    var held := SeatOf(sessions, user);
    if held < |sessions| && sessions[held].role == role then Some(sessions[held]) else None
  }

  /** The console this pair last had: the session they are in, or as it stood when it ended. */
  ghost function LastConsole(ladder: Ladder, story: Story, user: UserId, role: RoleId): Option<Session> {
    if story == [] then None
    else
      var there := InTheRole(WorldAfter(ladder, story).live.sessions, user, role);
      if there.Some? then there else LastConsole(ladder, Earlier(story), user, role)
  }

  ghost function VolumeKept(t: Tables, kept: Keepsake): Option<Volume> {
    if kept in t.volumes then Some(t.volumes[kept]) else None
  }

  ghost predicate MonitoredLast(last: Option<Session>, on: LoopId) {
    last.Some? && on in last.value.subscriptions
  }

  ghost function VolumeLast(last: Option<Session>, on: LoopId): Option<Volume> {
    if last.Some? then VolumeOn(last.value.volumes, on) else None
  }

  /** About every loop there is, the store remembers exactly what that console had. */
  ghost predicate Remembers(t: Tables, user: UserId, role: RoleId, last: Option<Session>) {
    forall on :: IsLoop(t.loops, on) ==>
      && (Keepsake(user, role, on) in t.subscriptions <==> MonitoredLast(last, on))
      && VolumeKept(t, Keepsake(user, role, on)) == VolumeLast(last, on)
  }

  /** What is remembered of a console: its subscriptions and its volumes, and never a mute. */
  ghost predicate SameConsole(s: Session, u: Session) {
    s.subscriptions == u.subscriptions && s.volumes == u.volumes
  }

  lemma {:induction false} SameConsoleRemembered(t: Tables, user: UserId, role: RoleId, s: Session, u: Session)
    requires SameConsole(s, u) && Remembers(t, user, role, Some(s))
    ensures Remembers(t, user, role, Some(u))
  {
  }

  lemma {:induction false} LastIsNow(ladder: Ladder, story: Story, user: UserId, role: RoleId)
    ensures InTheRole(WorldAfter(ladder, story).live.sessions, user, role).Some? ==>
      LastConsole(ladder, story, user, role) == InTheRole(WorldAfter(ladder, story).live.sessions, user, role)
  {
    hide Passed;
  }

  lemma {:induction false} LastWasLive(ladder: Ladder, story: Story, user: UserId, role: RoleId) returns (k: nat)
    requires LastConsole(ladder, story, user, role).Some?
    ensures k <= |story|
    ensures LastConsole(ladder, story, user, role).value in WorldAfter(ladder, story[..k]).live.sessions
    ensures LastConsole(ladder, story, user, role).value.occupant == user
    ensures LastConsole(ladder, story, user, role).value.role == role
  {
    hide WorldAfter;
    if InTheRole(WorldAfter(ladder, story).live.sessions, user, role).Some? {
      k := |story|;
      assert story[..k] == story;
    } else {
      k := LastWasLive(ladder, Earlier(story), user, role);
      assert story[..k] == Earlier(story)[..k];
    }
  }

  // ---- Edits --------------------------------------------------------------------------------------

  /** The record an edit makes is one this console had nothing to do with. */
  ghost predicate Untouched(edit: Edit, last: Option<Session>) {
    last.Some? ==>
      match edit
      case MakeLoop(id, _) => id !in last.value.subscriptions && id !in LoopsSet(last.value.volumes)
      case MakeRole(row) => last.value.role != row.id
      case MakeUser(id, _) => last.value.occupant != id
      case _ => true
  }

  lemma {:induction false} NobodyRemembered(t: Tables, user: UserId, role: RoleId)
    requires KeepsakesOk(t) && (user !in t.users || !IsRole(t.roles, role))
    ensures Remembers(t, user, role, None)
  {
  }

  lemma {:induction false} LoopMadeRemembers(t: Tables, row: LoopRow, user: UserId, role: RoleId, last: Option<Session>)
    requires StoreOk(t) && !IsLoop(t.loops, row.id) && Remembers(t, user, role, last)
    requires last.Some? ==> row.id !in last.value.subscriptions && row.id !in LoopsSet(last.value.volumes)
    ensures Remembers(t.(loops := t.loops + [row]), user, role, last)
  {
    var after := t.(loops := t.loops + [row]);
    forall on | IsLoop(after.loops, on)
      ensures Keepsake(user, role, on) in after.subscriptions <==> MonitoredLast(last, on)
      ensures VolumeKept(after, Keepsake(user, role, on)) == VolumeLast(last, on)
    {
      var there :| there in after.loops && there.id == on;
      if there in t.loops {
        assert IsLoop(t.loops, on);
      } else {
        assert on == row.id;
      }
    }
  }

  lemma {:induction false} SameLoopsRemember(t: Tables, loops: seq<LoopRow>, user: UserId, role: RoleId,
      last: Option<Session>)
    requires Remembers(t, user, role, last) && forall on :: IsLoop(loops, on) ==> IsLoop(t.loops, on)
    ensures Remembers(t.(loops := loops), user, role, last)
  {
  }

  /** The edits that leave who is there alone, or take it away. */
  lemma {:induction false} LoopsEditedRemember(t: Tables, edit: Edit, user: UserId, role: RoleId, last: Option<Session>)
    requires StoreOk(t) && MayEdit(t, edit) && Untouched(edit, last) && Remembers(t, user, role, last)
    requires edit.MakeLoop? || edit.NameLoop? || edit.SetOrder? || edit.Dismiss? || edit.SetCell?
    ensures Remembers(Edited(t, edit), user, role, last)
  {
    hide StoreOk, Remembers, NextPosition, NamesEveryLoopOnce, BaseOrder, LoopNameTaken, ColumnComplete, Filled;
    match edit
    case MakeLoop(id, name) =>
      if LoopCreated(t, id, name).Ok? {
        LoopMadeRemembers(t, LoopRow(id, name, true, NextPosition(t.loops)), user, role, last);
      }
    case NameLoop(id, name) =>
      SameLoops(t.loops, Renamed(t.loops, id, name));
      SameLoopsRemember(t, Renamed(t.loops, id, name), user, role, last);
    case SetOrder(order) =>
      SameLoops(t.loops, Repositioned(t.loops, order));
      SameLoopsRemember(t, Repositioned(t.loops, order), user, role, last);
    case Dismiss(on) =>
      CellsAside(t, Filled(t, on), user, role, last);
      RuledOnRemembers(t.(cells := Filled(t, on)), on, user, role, last);
    case SetCell(r, on, permission) =>
      var staffs := permission.Carries(Emit) && CellOf(t, r, on).staffs;
      var cells := t.cells[CellKey(r, on) := CellRow(permission, staffs)];
      CellsAside(t, cells, user, role, last);
      RuledOnRemembers(t.(cells := cells), on, user, role, last);
  }

  lemma {:induction false} CellsAside(t: Tables, cells: map<CellKey, CellRow>, user: UserId, role: RoleId,
      last: Option<Session>)
    requires Remembers(t, user, role, last)
    ensures Remembers(t.(cells := cells), user, role, last)
  {
  }

  lemma {:induction false} RuledOnRemembers(t: Tables, on: LoopId, user: UserId, role: RoleId, last: Option<Session>)
    requires Remembers(t, user, role, last)
    ensures Remembers(RuledOn(t, on), user, role, last)
  {
    hide Remembers;
    SameLoops(t.loops, MarkCleared(t.loops, on));
    SameLoopsRemember(t, MarkCleared(t.loops, on), user, role, last);
  }

  lemma {:induction false} PeopleEditedRemember(t: Tables, edit: Edit, user: UserId, role: RoleId,
      last: Option<Session>)
    requires StoreOk(t) && Remembers(t, user, role, last)
    requires edit.MakeRole? || edit.NameRole? || edit.LimitRole? || edit.MakeUser? || edit.SetStaffing?
      || edit.DropRole? || edit.DropUser? || edit.DropLoop?
    requires user in Edited(t, edit).users && IsRole(Edited(t, edit).roles, role)
    ensures Remembers(Edited(t, edit), user, role, last)
  {
    hide StoreOk, CellOf;
    match edit
    case DropLoop(id) => LoopDeletedRemembers(t, id, user, role, last);
    case DropRole(id) => assert role != id;
    case DropUser(id) => assert user != id;
    case _ =>
  }

  lemma {:induction false} LoopDeletedRemembers(t: Tables, id: LoopId, user: UserId, role: RoleId,
      last: Option<Session>)
    requires Remembers(t, user, role, last)
    ensures Remembers(LoopDeleted(t, id), user, role, last)
  {
    assert forall on :: IsLoop(WithoutLoop(t.loops, id), on) ==> on != id && IsLoop(t.loops, on);
  }

  lemma {:induction false} OnlyMakingMakes(t: Tables, edit: Edit, user: UserId, role: RoleId)
    ensures user in Edited(t, edit).users && user !in t.users ==> edit.MakeUser? && edit.enrolled == user
    ensures IsRole(Edited(t, edit).roles, role) && !IsRole(t.roles, role) ==> edit.MakeRole? && edit.made.id == role
  {
    hide NextPosition, NamesEveryLoopOnce, BaseOrder, LoopNameTaken, ColumnComplete, Filled, CellOf;
  }

  lemma {:induction false} AnEditRemembers(t: Tables, edit: Edit, user: UserId, role: RoleId, last: Option<Session>)
    requires StoreOk(t) && MayEdit(t, edit) && Untouched(edit, last)
    requires last.Some? ==> last.value.occupant == user && last.value.role == role
    requires user in t.users && IsRole(t.roles, role) ==> Remembers(t, user, role, last)
    requires user in Edited(t, edit).users && IsRole(Edited(t, edit).roles, role)
    ensures Remembers(Edited(t, edit), user, role, last)
  {
    OnlyMakingMakes(t, edit, user, role);
    hide StoreOk, Remembers, Edited, MayEdit, IsRole;
    if user !in t.users || !IsRole(t.roles, role) {
      assert KeepsakesOk(t) by { KeepsakesInOrder(t); }
      NobodyRemembered(t, user, role);
    }
    if edit.MakeLoop? || edit.NameLoop? || edit.SetOrder? || edit.Dismiss? || edit.SetCell? {
      LoopsEditedRemember(t, edit, user, role, last);
    } else {
      PeopleEditedRemember(t, edit, user, role, last);
    }
  }

  lemma {:induction false} KeepsakesInOrder(t: Tables)
    requires StoreOk(t)
    ensures KeepsakesOk(t)
  {
  }

  // ---- Live events ----------------------------------------------------------------------------------

  lemma {:induction false} TheirSeat(sessions: seq<Session>, s: Session)
    requires SeatsApart(sessions) && s in sessions
    ensures InTheRole(sessions, s.occupant, s.role) == Some(s)
  {
    var k :| 0 <= k < |sessions| && sessions[k] == s;
    FoundWhereItIs(sessions, k);
  }

  lemma {:induction false} TheNewcomer(l: Live, minted: set<SessionId>, e: Event, s: Session)
    requires Coherent(l, minted) && e.act.Assume? && e.act.minted !in minted
    requires s in Step(l, e).sessions && s.id == e.act.minted
    ensures s == Seated(e.act.assuming, e.act.minted, e.at)
  {
    if IsFull(l.sessions, e.act.assuming) {
      assert false;
    } else {
      var held := SeatOf(l.sessions, e.act.assuming.occupant);
      if held < |l.sessions| { RemovedHolds(l.sessions, held); }
    }
  }

  lemma {:induction false} ChangedIsThemStill(l: Live, s: Session, e: Event)
    requires IsLive(l.sessions, s.id)
    ensures SamePerson(s, Changed(l, s, e))
    ensures !(e.act.Do? && e.act.session == s.id) ==> SameConsole(s, Changed(l, s, e))
  {
    hide Done, Projected;
    if e.act.Do? && e.act.session == s.id { DeedKeepsThePerson(s, l.ladder, e.act.deed, e.at); }
  }

  /** Where the pair's session after an event came from: the seat it has just taken, or the one it
      was already in. */
  lemma {:induction false} ThePairAfter(w: World, minted: set<SessionId>, e: Event, user: UserId, role: RoleId)
    requires Coherent(w.live, minted) && (e.act.Assume? ==> e.act.minted !in minted)
    requires Coherent(Step(w.live, e), minted + if e.act.Assume? then {e.act.minted} else {})
    requires InTheRole(Step(w.live, e).sessions, user, role).Some?
    ensures
      var before := InTheRole(w.live.sessions, user, role);
      var after := InTheRole(Step(w.live, e).sessions, user, role).value;
      || (e.act.Assume? && e.act.assuming.occupant == user && e.act.assuming.role == role
          && after == Seated(e.act.assuming, e.act.minted, e.at))
      || (before.Some? && before.value in w.live.sessions && IsLive(w.live.sessions, before.value.id)
          && Held(w.live.sessions, before.value.id) == before.value
          && after == Changed(w.live, before.value, e))
  {
    hide Step, Changed, Coherent;
    var after := InTheRole(Step(w.live, e).sessions, user, role).value;
    WhereItCameFrom(w, minted, e, after);
    if e.act.Assume? && after.id == e.act.minted {
      TheNewcomer(w.live, minted, e, after);
    } else {
      var was := Held(w.live.sessions, after.id);
      ChangedIsThemStill(w.live, was, e);
      assert SeatsApart(w.live.sessions) by { CoherentSeats(w.live, minted); }
      TheirSeat(w.live.sessions, was);
    }
  }

  lemma {:induction false} CoherentSeats(l: Live, minted: set<SessionId>)
    requires Coherent(l, minted)
    ensures SeatsApart(l.sessions)
  {
  }

  // ---- What is written down -------------------------------------------------------------------------

  /** Whoever's act is written down is the occupant of the session it was done in, and it is
      written down against that session's own role. */
  lemma {:induction false} WhoseActIsWritten(w: World, turn: Turn, s: Session)
    requires SeatsApart(w.live.sessions) && s in w.live.sessions
    requires turn.what.Says? && turn.what.session == s.id && IsRemembered(turn.what.deed) && Caused(w, turn).Some?
    ensures TablesAfter(w, turn) == WrittenDown(w.tables, s.occupant, s.role, turn.what.deed)
    ensures s.occupant in w.tables.users
  {
    hide HeldBy, WrittenDown, IsHeldBy, TheRoleOf, CarriesOn;
    var deed, presented := turn.what.deed, InTheSeat(w.sockets[s.id], s.id);
    var asked := RequirementOf(deed);
    assert asked.OnTheGrid? || asked == InASession;
    var rung, on := if asked.OnTheGrid? then asked.rung else Monitor, if asked.OnTheGrid? then asked.on else LoopId("");
    OnlyTheSeatSpeaks(rung, on, presented, w.tables, w.live.sessions);
    ACallerIsSomebody(asked, presented, w.tables, w.live.sessions);
    var other :| Occupying(other, w.live.sessions, presented, w.tables);
    FoundAmong(w.live.sessions, s);
    FoundAmong(w.live.sessions, other);
    HeldIsTheOne(w.live.sessions, s, s.id, s.occupant);
  }

  lemma {:induction false} NothingWritten(w: World, turn: Turn)
    requires !turn.what.Edits? && !(turn.what.Says? && IsRemembered(turn.what.deed) && Caused(w, turn).Some?)
    ensures TablesAfter(w, turn).subscriptions == w.tables.subscriptions
        && TablesAfter(w, turn).volumes == w.tables.volumes
  {
    hide Evaluate, AllThere;
  }

  lemma {:induction false} MonitoringRemembered(t: Tables, s: Session, u: Session, on: LoopId, monitors: bool)
    requires s.occupant in t.users && IsRole(t.roles, s.role) && Remembers(t, s.occupant, s.role, Some(s))
    requires forall other :: other in u.subscriptions <==> if other == on then monitors else other in s.subscriptions
    requires u.volumes == s.volumes
    ensures
      var kept := Keepsake(s.occupant, s.role, on);
      var after := if monitors then SubscriptionRemembered(t, kept) else SubscriptionForgotten(t, kept);
      Remembers(after, s.occupant, s.role, Some(u))
  {
  }

  lemma {:induction false} VolumeIsRemembered(t: Tables, s: Session, u: Session, on: LoopId, volume: Volume)
    requires s.occupant in t.users && IsRole(t.roles, s.role) && Remembers(t, s.occupant, s.role, Some(s))
    requires forall other ::
      VolumeOn(u.volumes, other) == if other == on then Some(volume) else VolumeOn(s.volumes, other)
    requires u.subscriptions == s.subscriptions
    ensures Remembers(VolumeRemembered(t, Keepsake(s.occupant, s.role, on), volume), s.occupant, s.role, Some(u))
  {
    hide VolumeOn;
  }

  lemma {:induction false} UnwrittenKeepsTheConsole(s: Session, ladder: Ladder, deed: Deed, now: Instant)
    requires !IsRemembered(deed)
    ensures SameConsole(s, Done(s, ladder, deed, now))
  {
    hide CountAll, AllAgain;
  }

  /** The pair's own act moves what is remembered exactly as it moves the console. */
  lemma {:induction false} TheirActRemembered(t: Tables, s: Session, ladder: Ladder, deed: Deed, now: Instant)
    requires s.occupant in t.users && IsRole(t.roles, s.role) && Remembers(t, s.occupant, s.role, Some(s))
    ensures Remembers(WrittenDown(t, s.occupant, s.role, deed), s.occupant, s.role, Some(Done(s, ladder, deed, now)))
  {
    hide Remembers, SubscriptionRemembered, SubscriptionForgotten, VolumeRemembered, VolumeOn, CountAll;
    hide SameConsole, WithoutBeacon;
    var u := Done(s, ladder, deed, now);
    match deed
    case Subscribe(on) => MonitoringRemembered(t, s, u, on, true);
    case Unsubscribe(on) => MonitoringRemembered(t, s, u, on, false);
    case SetVolume(on, volume) =>
      forall other
        ensures VolumeOn(u.volumes, other) == if other == on then Some(volume) else VolumeOn(s.volumes, other)
      {
        VolumeSetExactly(s.volumes, on, volume, other);
      }
      VolumeIsRemembered(t, s, u, on, volume);
    case _ =>
      UnwrittenKeepsTheConsole(s, ladder, deed, now);
      SameConsoleRemembered(t, s.occupant, s.role, s, u);
  }

  /** Anybody else's act moves nothing that is remembered of the pair. */
  lemma {:induction false} AnothersActAside(t: Tables, other: UserId, theirs: RoleId, deed: Deed, user: UserId,
      role: RoleId, last: Option<Session>)
    requires other != user || theirs != role
    requires Remembers(t, user, role, last)
    ensures Remembers(WrittenDown(t, other, theirs, deed), user, role, last)
  {
  }

  lemma {:induction false} SameKept(t: Tables, u: Tables, user: UserId, role: RoleId, last: Option<Session>)
    requires Remembers(t, user, role, last) && u.loops == t.loops
    requires u.subscriptions == t.subscriptions && u.volumes == t.volumes
    ensures Remembers(u, user, role, last)
  {
  }

  // ---- Every story ------------------------------------------------------------------------------------

  lemma {:induction false} NeverTouchedByThem(ladder: Ladder, story: Story, edit: Edit, user: UserId, role: RoleId)
    requires NeverTouched(ladder, story, edit)
    ensures Untouched(edit, LastConsole(ladder, story, user, role))
    ensures LastConsole(ladder, story, user, role).Some? ==>
      LastConsole(ladder, story, user, role).value.occupant == user
          && LastConsole(ladder, story, user, role).value.role == role
  {
    hide WorldAfter, LastConsole;
    if LastConsole(ladder, story, user, role).Some? {
      var k := LastWasLive(ladder, story, user, role);
    }
  }

  /** What became of a pair's console at one event. */
  ghost predicate Became(l: Live, e: Event, user: UserId, role: RoleId, last: Option<Session>, next: Option<Session>) {
    || next == last
    || (e.act.Assume? && e.act.assuming.occupant == user && e.act.assuming.role == role
        && next == Some(Seated(e.act.assuming, e.act.minted, e.at)))
    || (last.Some? && last.value in l.sessions && IsLive(l.sessions, last.value.id)
        && Held(l.sessions, last.value.id) == last.value && next == Some(Changed(l, last.value, e)))
  }

  lemma {:induction false} ASeatIsWhatWasRemembered(w: World, turn: Turn, id: SessionId, now: Instant)
    requires StoreOk(w.tables) && Caused(w, turn).Some? && Caused(w, turn).value.act.Assume?
    requires turn.what.Otherwise? ==> NeedsNoMessage(turn.what.act)
    ensures
      var a := Caused(w, turn).value.act.assuming;
      && a.subscribedTo == TheSubscriptionsOf(w.tables, a.occupant, a.role)
      && a.volumes == TheVolumesOf(w.tables, a.occupant, a.role)
      && a.occupant in w.tables.users && IsRole(w.tables.roles, a.role)
      && Remembers(w.tables, a.occupant, a.role, Some(Seated(a, id, now)))
  {
    hide TheSubscriptionsOf, TheVolumesOf, WithinFor, CellsOk, KeepsakesOk, CarriesOn, IsHeldBy;
    var t, a := w.tables, Caused(w, turn).value.act.assuming;
    forall on | IsLoop(t.loops, on)
      ensures Keepsake(a.occupant, a.role, on) in t.subscriptions <==> on in a.subscribedTo
      ensures VolumeKept(t, Keepsake(a.occupant, a.role, on)) == VolumeOn(a.volumes, on)
    {
      RemembersExactly(t, a.occupant, a.role, on);
    }
  }

  lemma {:induction false} UnwrittenDeeds(w: World, turn: Turn, s: Session)
    requires Caused(w, turn).Some? && Caused(w, turn).value.act.Do?
    requires turn.what.Otherwise? ==> NeedsNoMessage(turn.what.act)
    requires !(turn.what.Says? && IsRemembered(turn.what.deed))
    ensures SameConsole(s, Done(s, w.live.ladder, Caused(w, turn).value.act.deed, Caused(w, turn).value.at))
  {
    hide Evaluate, Done, WithinFor;
    UnwrittenKeepsTheConsole(s, w.live.ladder, Caused(w, turn).value.act.deed, Caused(w, turn).value.at);
  }

  lemma {:induction false} AnUnwrittenActRemembers(w: World, turn: Turn, user: UserId, role: RoleId,
      last: Option<Session>, next: Option<Session>)
    requires StoreOk(w.tables) && Remembers(w.tables, user, role, last)
    requires turn.what.Otherwise? ==> NeedsNoMessage(turn.what.act)
    requires !(turn.what.Says? && IsRemembered(turn.what.deed))
    requires Caused(w, turn).Some? && Became(w.live, Caused(w, turn).value, user, role, last, next)
    ensures Remembers(w.tables, user, role, next)
  {
    hide Caused, StoreOk, Remembers, Done, NeedsNoMessage, Seated;
    var e := Caused(w, turn).value;
    if next != last {
      if e.act.Assume? && e.act.assuming.occupant == user && e.act.assuming.role == role
          && next == Some(Seated(e.act.assuming, e.act.minted, e.at)) {
        ASeatIsWhatWasRemembered(w, turn, e.act.minted, e.at);
      } else {
        if e.act.Do? && e.act.session == last.value.id {
          UnwrittenDeeds(w, turn, last.value);
        } else {
          ChangedIsThemStill(w.live, last.value, e);
        }
        SameConsoleRemembered(w.tables, user, role, last.value, next.value);
      }
    }
  }

  lemma {:induction false} SomebodySpoke(w: World, turn: Turn)
    requires SeatsApart(w.live.sessions)
    requires turn.what.Says? && IsRemembered(turn.what.deed) && Caused(w, turn).Some?
    ensures IsLive(w.live.sessions, turn.what.session)
    ensures Caused(w, turn).value.act == Do(turn.what.session, turn.what.deed)
  {
    hide HeldBy, TheRoleOf;
    var deed, presented := turn.what.deed, InTheSeat(w.sockets[turn.what.session], turn.what.session);
    var asked := RequirementOf(deed);
    var rung, on := if asked.OnTheGrid? then asked.rung else Monitor, if asked.OnTheGrid? then asked.on else LoopId("");
    OnlyTheSeatSpeaks(rung, on, presented, w.tables, w.live.sessions);
    var s :| Occupying(s, w.live.sessions, presented, w.tables);
    FoundAmong(w.live.sessions, s);
  }

  lemma {:induction false} TheSeatOf(sessions: seq<Session>, user: UserId, role: RoleId)
    requires SeatsApart(sessions) && InTheRole(sessions, user, role).Some?
    ensures
      var s := InTheRole(sessions, user, role).value;
      s in sessions && s.occupant == user && s.role == role && IsLive(sessions, s.id) && Held(sessions, s.id) == s
  {
    FoundAmong(sessions, InTheRole(sessions, user, role).value);
  }

  lemma {:induction false} SameOccupants(a: seq<Session>, b: seq<Session>, user: UserId)
    requires |a| == |b| && forall i :: 0 <= i < |a| ==> a[i].occupant == b[i].occupant
    ensures SeatOf(a, user) == SeatOf(b, user)
  {
    if a != [] { SameOccupants(a[1..], b[1..], user); }
  }

  /** A deed leaves everybody in their seat. */
  lemma {:induction false} ADeedInTheRole(l: Live, e: Event, user: UserId, role: RoleId)
    requires SeatsApart(l.sessions) && e.act.Do?
    ensures InTheRole(Step(l, e).sessions, user, role) ==
      match InTheRole(l.sessions, user, role)
      case None => None
      case Some(s) => if IsLive(l.sessions, s.id) then Some(Changed(l, s, e)) else None
    ensures InTheRole(l.sessions, user, role).Some? ==> IsLive(l.sessions, InTheRole(l.sessions, user, role).value.id)
  {
    hide Done;
    SeatsStand(l, e);
    SameOccupants(l.sessions, Step(l, e).sessions, user);
    if InTheRole(l.sessions, user, role).Some? { TheSeatOf(l.sessions, user, role); }
  }

  lemma {:induction false} AWrittenActRemembers(w: World, turn: Turn, user: UserId, role: RoleId,
      last: Option<Session>, next: Option<Session>)
    requires SeatsApart(w.live.sessions) && Remembers(w.tables, user, role, last)
    requires user in w.tables.users && IsRole(w.tables.roles, role)
    requires turn.what.Says? && IsRemembered(turn.what.deed)
    requires InTheRole(w.live.sessions, user, role).Some? ==> last == InTheRole(w.live.sessions, user, role)
    requires Caused(w, turn).Some?
    requires next == match InTheRole(w.live.sessions, user, role)
      case None => last
      case Some(s) => if IsLive(w.live.sessions, s.id) then Some(Changed(w.live, s, Caused(w, turn).value)) else last
    ensures Remembers(TablesAfter(w, turn), user, role, next)
  {
    hide Caused, Remembers, Done, TablesAfter, WrittenDown, InTheRole, IsRemembered;
    SomebodySpoke(w, turn);
    var s := Held(w.live.sessions, turn.what.session);
    WhoseActIsWritten(w, turn, s);
    TheirSeat(w.live.sessions, s);
    if InTheRole(w.live.sessions, user, role).Some? { TheSeatOf(w.live.sessions, user, role); }
    if s.occupant == user && s.role == role {
      TheirActRemembered(w.tables, s, w.live.ladder, turn.what.deed, Caused(w, turn).value.at);
    } else {
      AnothersActAside(w.tables, s.occupant, s.role, turn.what.deed, user, role, last);
    }
  }

  /** A turn that is no edit keeps a pair's memory and their console together. */
  lemma {:induction false} ATurnRemembers(w: World, minted: set<SessionId>, turn: Turn, user: UserId, role: RoleId,
      last: Option<Session>, next: Option<Session>)
    requires StoreOk(w.tables) && Coherent(w.live, minted) && !turn.what.Edits?
    requires turn.what.Otherwise? ==> NeedsNoMessage(turn.what.act)
    requires user in w.tables.users && IsRole(w.tables.roles, role) && Remembers(w.tables, user, role, last)
    requires InTheRole(w.live.sessions, user, role).Some? ==> last == InTheRole(w.live.sessions, user, role)
    requires Caused(w, turn).Some?
    requires
      var e := Caused(w, turn).value;
      && (e.act.Assume? ==> e.act.minted !in minted)
      && Coherent(Step(w.live, e), minted + if e.act.Assume? then {e.act.minted} else {})
      && var theirs := InTheRole(Step(w.live, e).sessions, user, role);
         next == if theirs.Some? then theirs else last
    ensures Remembers(TablesAfter(w, turn), user, role, next)
  {
    hide Caused, Step, StoreOk, Coherent, Remembers, TablesAfter, Done, WrittenDown, NeedsNoMessage, InTheRole, Changed;
    var e := Caused(w, turn).value;
    var after := InTheRole(Step(w.live, e).sessions, user, role);
    CoherentSeats(w.live, minted);
    if turn.what.Says? && IsRemembered(turn.what.deed) {
      SomebodySpoke(w, turn);
      ADeedInTheRole(w.live, e, user, role);
      AWrittenActRemembers(w, turn, user, role, last, next);
    } else {
      OnlyEditsMoveTheGrid(w, turn);
      NothingWritten(w, turn);
      if after.Some? { ThePairAfter(w, minted, e, user, role); }
      AnUnwrittenActRemembers(w, turn, user, role, last, next);
      SameKept(w.tables, TablesAfter(w, turn), user, role, next);
    }
  }

  lemma {:induction false} AnEditTurnRemembers(ladder: Ladder, story: Story, turn: Turn, user: UserId, role: RoleId)
    requires StoreOk(WorldAfter(ladder, story).tables) && MayPass(ladder, story, turn) && turn.what.Edits?
    requires
      var w, last := WorldAfter(ladder, story), LastConsole(ladder, story, user, role);
      && (user in w.tables.users && IsRole(w.tables.roles, role) ==> Remembers(w.tables, user, role, last))
      && user in TablesAfter(w, turn).users && IsRole(TablesAfter(w, turn).roles, role)
    ensures Remembers(TablesAfter(WorldAfter(ladder, story), turn), user, role, LastConsole(ladder, story, user, role))
  {
    hide StoreOk, WorldAfter, Remembers, LastConsole, NeverTouched, Untouched, Edited;
    var last := LastConsole(ladder, story, user, role);
    NeverTouchedByThem(ladder, story, turn.what.edit, user, role);
    AnEditRemembers(WorldAfter(ladder, story).tables, turn.what.edit, user, role, last);
  }

  lemma {:induction false} TheSamePeople(w: World, turn: Turn)
    requires !turn.what.Edits?
    ensures TablesAfter(w, turn).users == w.tables.users && TablesAfter(w, turn).roles == w.tables.roles
  {
    hide Evaluate, AllThere, TheRoleOf;
  }

  lemma {:induction false} LastAfter(ladder: Ladder, story: Story, user: UserId, role: RoleId)
    requires story != []
    ensures
      var w, before := WorldAfter(ladder, Earlier(story)), LastConsole(ladder, Earlier(story), user, role);
      var caused := Caused(w, Last(story));
      && LastConsole(ladder, story, user, role)
           == (if caused.Some? && InTheRole(Step(w.live, caused.value).sessions, user, role).Some?
               then InTheRole(Step(w.live, caused.value).sessions, user, role) else before)
      && (InTheRole(w.live.sessions, user, role).Some? ==> before == InTheRole(w.live.sessions, user, role))
  {
    hide Caused, TablesAfter, Step, InTheRole;
    LastIsNow(ladder, Earlier(story), user, role);
  }

  /** At every point of every story, what the store remembers of any user and role that are there
      is exactly the console that pair last had, on every loop there is: the set they monitor and
      the volumes they set while they are in the seat, and as they left it once they are not. */
  lemma {:induction false} TheMemoryIsTheLastConsole(ladder: Ladder, story: Story, user: UserId, role: RoleId)
    requires Plausible(ladder, story)
    requires user in WorldAfter(ladder, story).tables.users && IsRole(WorldAfter(ladder, story).tables.roles, role)
    ensures Remembers(WorldAfter(ladder, story).tables, user, role, LastConsole(ladder, story, user, role))
  {
    if story != [] {
      hide Caused, TablesAfter, Step, InTheRole, LastConsole, StoreOk, Coherent, MayPass, Remembers, IsRole, Plausible;
      PlausibleEarlier(ladder, story);
      ACauseMayFollow(ladder, story);
      LastAfter(ladder, story, user, role);
      var w, turn := WorldAfter(ladder, Earlier(story)), Last(story);
      if turn.what.Edits? {
        if user in w.tables.users && IsRole(w.tables.roles, role) {
          TheMemoryIsTheLastConsole(ladder, Earlier(story), user, role);
        }
        NoEditIsAnEvent(w, turn);
        AnEditTurnRemembers(ladder, Earlier(story), turn, user, role);
      } else {
        TheSamePeople(w, turn);
        TheMemoryIsTheLastConsole(ladder, Earlier(story), user, role);
        var last, next := LastConsole(ladder, Earlier(story), user, role), LastConsole(ladder, story, user, role);
        BetweenEdits(w, MintedIn(LiveRun(ladder, Earlier(story))), turn, user, role, last, next);
      }
    }
  }

  lemma {:induction false} BetweenEdits(w: World, minted: set<SessionId>, turn: Turn, user: UserId, role: RoleId,
      last: Option<Session>, next: Option<Session>)
    requires StoreOk(w.tables) && Coherent(w.live, minted) && !turn.what.Edits?
    requires turn.what.Otherwise? ==> NeedsNoMessage(turn.what.act)
    requires user in w.tables.users && IsRole(w.tables.roles, role) && Remembers(w.tables, user, role, last)
    requires InTheRole(w.live.sessions, user, role).Some? ==> last == InTheRole(w.live.sessions, user, role)
    requires
      var caused := Caused(w, turn);
      && (caused.Some? && caused.value.act.Assume? ==> caused.value.act.minted !in minted)
      && Coherent(LiveAfter(w.live, caused), minted + if caused.Some?
          && caused.value.act.Assume? then {caused.value.act.minted} else {})
      && next == (if caused.Some? && InTheRole(Step(w.live, caused.value).sessions, user, role).Some?
                  then InTheRole(Step(w.live, caused.value).sessions, user, role) else last)
    ensures Remembers(TablesAfter(w, turn), user, role, next)
  {
    hide Caused, Step, StoreOk, Coherent, Remembers, TablesAfter, NeedsNoMessage, InTheRole, IsRemembered;
    if Caused(w, turn).Some? {
      ATurnRemembers(w, minted, turn, user, role, last, next);
    } else {
      OnlyEditsMoveTheGrid(w, turn);
      NothingWritten(w, turn);
      SameKept(w.tables, TablesAfter(w, turn), user, role, last);
    }
  }

  // ---- The next assume --------------------------------------------------------------------------------

  /** The loops of an order that a console was monitoring, in that order. */
  ghost function OnlyThose(order: seq<LoopRow>, last: Option<Session>): seq<LoopId> {
    if order == [] then []
    else (if MonitoredLast(last, order[0].id) then [order[0].id] else []) + OnlyThose(order[1..], last)
  }

  /** A new seat that has that console's loops and volumes back, and nothing else of it. */
  ghost predicate PutBack(s: Session, user: UserId, role: RoleId, loops: seq<LoopRow>, last: Option<Session>) {
    && s.occupant == user && s.role == role
    && s.subscriptions == OnlyThose(BaseOrder(loops), last)
    && (forall on :: IsLoop(loops, on) ==> VolumeOn(s.volumes, on) == VolumeLast(last, on))
    && s.mutes == [] && s.arms == [] && !s.keyed && s.pressing.None? && !s.offConsole
  }

  lemma {:induction false} ReadBackInOrder(t: Tables, user: UserId, role: RoleId, order: seq<LoopRow>,
      last: Option<Session>)
    requires forall row :: row in order ==> (Keepsake(user, role, row.id) in t.subscriptions
        <==> MonitoredLast(last, row.id))
    ensures SubscribedAmong(t, user, role, order) == OnlyThose(order, last)
  {
    if order != [] {
      assert order[0] in order;
      ReadBackInOrder(t, user, role, order[1..], last);
    }
  }

  /** The next seat this pair takes, however long after and whatever happened in between, puts
      back exactly the loops they last monitored that are still there, in the base order, each as
      loud as it was, and nothing else: no mute, no arm and no key outlives the session it was
      made in. */
  lemma {:induction false} TheNextAssumePutsTheConsoleBack(ladder: Ladder, story: Story, turn: Turn)
    requires Plausible(ladder, story) && turn.what.AsksToAssume?
    requires turn.what.minted !in MintedIn(LiveRun(ladder, story))
    ensures
      var w, caused := WorldAfter(ladder, story), Caused(WorldAfter(ladder, story), turn);
      caused.Some? ==>
        var a := caused.value.act.assuming;
        !IsFull(w.live.sessions, a) ==>
          var seats, last := Passed(w, turn).live.sessions, LastConsole(ladder, story, a.occupant, a.role);
          IsLive(seats, turn.what.minted) && a.role == turn.what.role
          && PutBack(Held(seats, turn.what.minted), a.occupant, a.role, w.tables.loops, last)
  {
    hide WorldAfter, Plausible, StoreOk, After, LastConsole, Remembers, BaseOrder, VolumeOn, TheVolumesOf;
    var w, caused := WorldAfter(ladder, story), Caused(WorldAfter(ladder, story), turn);
    if caused.Some? && !IsFull(w.live.sessions, caused.value.act.assuming) {
      var e, a := caused.value, caused.value.act.assuming;
      var last := LastConsole(ladder, story, a.occupant, a.role);
      EveryStoryIsALegalRun(ladder, story);
      ASeatIsWhatWasRemembered(w, turn, turn.what.minted, e.at);
      TheMemoryIsTheLastConsole(ladder, story, a.occupant, a.role);
      WhoIsSeated(w.live, MintedIn(LiveRun(ladder, story)), a, turn.what.minted, e.at);
      PutBackInOrder(w.tables, a.occupant, a.role, last);
      forall on | IsLoop(w.tables.loops, on) ensures VolumeOn(a.volumes, on) == VolumeLast(last, on) {
        SameVolume(w.tables, a.occupant, a.role, last, Seated(a, turn.what.minted, e.at), on);
      }
    }
  }

  lemma {:induction false} PutBackInOrder(t: Tables, user: UserId, role: RoleId, last: Option<Session>)
    requires Remembers(t, user, role, last)
    ensures TheSubscriptionsOf(t, user, role) == OnlyThose(BaseOrder(t.loops), last)
  {
    BaseOrderIsSorted(t.loops);
    forall row | row in BaseOrder(t.loops)
      ensures Keepsake(user, role, row.id) in t.subscriptions <==> MonitoredLast(last, row.id)
    {
      assert IsLoop(t.loops, row.id);
    }
    ReadBackInOrder(t, user, role, BaseOrder(t.loops), last);
  }

  lemma {:induction false} SameVolume(t: Tables, user: UserId, role: RoleId, last: Option<Session>, s: Session,
      on: LoopId)
    requires Remembers(t, user, role, last) && Remembers(t, user, role, Some(s)) && IsLoop(t.loops, on)
    ensures VolumeOn(s.volumes, on) == VolumeLast(last, on)
  {
  }
}
