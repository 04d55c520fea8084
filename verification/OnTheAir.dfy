/** One story told in full: one person speaks and another, in another role, hears. Either role is
    then deleted, and what is carried outlasts it. */
module OnTheAir {
  import opened Basics
  import opened Names
  import opened Deployment
  import opened Sessions
  import opened LiveState
  import opened Invariants
  import opened FanOuts
  import opened Consoles
  import opened Tables
  import opened Grid
  import opened GridCoherence
  import opened Personalisation
  import opened SignIns
  import opened StoreRuns
  import opened Store
  import opened Authorisation
  import opened Signalling
  import opened RoutingSafety

  const FLIGHT := LoopId("FLIGHT")
  const CAPCOM := RoleId("CAPCOM")
  const OBSERVER := RoleId("OBSERVER")
  const ALICE := UserId("alice")
  const BOB := UserId("bob")
  const HERS := SignInToken("hers")
  const HIS := SignInToken("his")
  const TALKER := SessionId("talker")
  const LISTENER := SessionId("listener")

  const SPEAKING := RoleRow(CAPCOM, "CAPCOM", None)
  const WATCHING := RoleRow(OBSERVER, "Observer", None)

  function TheTurn(k: nat): Doing {
    if k == 0 then Edits(MakeRole(SPEAKING))
    else if k == 1 then Edits(MakeRole(WATCHING))
    else if k == 2 then Edits(MakeLoop(FLIGHT, "FLIGHT"))
    else if k == 3 then Edits(SetCell(CAPCOM, FLIGHT, Emit))
    else if k == 4 then Edits(SetCell(OBSERVER, FLIGHT, Monitor))
    else if k == 5 then Edits(MakeUser(ALICE, User(false, false)))
    else if k == 6 then Edits(MakeUser(BOB, User(false, false)))
    else if k == 7 then KeepsSignIns(Open(HERS, ALICE), 0)
    else if k == 8 then KeepsSignIns(Open(HIS, BOB), 0)
    else if k == 9 then AsksToAssume(HERS, CAPCOM, true, TALKER)
    else if k == 10 then AsksToAssume(HIS, OBSERVER, true, LISTENER)
    else if k == 11 then Says(LISTENER, Subscribe(FLIGHT))
    else if k == 12 then Says(TALKER, Arm(FLIGHT))
    else IsShown(LISTENER, [])
  }

  function Opening(k: nat): (story: Story)
    ensures |story| == k
  {
    if k == 0 then [] else Opening(k - 1) + [Turn(TheTurn(k - 1), 0)]
  }

  lemma {:induction false} OpeningPrefix(n: nat, k: nat)
    requires k <= n
    ensures Opening(n)[..k] == Opening(k)
  {
    if k < n { OpeningPrefix(n - 1, k); }
  }

  // ---- What is configured -------------------------------------------------------------------------

  const WITH_A_ROLE := NOTHING_CONFIGURED.(roles := [SPEAKING])

  const WITH_ROLES := NOTHING_CONFIGURED.(roles := [SPEAKING, WATCHING])

  const WITH_A_LOOP := WITH_ROLES.(loops := [LoopRow(FLIGHT, "FLIGHT", true, 0)])

  const HALF_RULED := WITH_A_LOOP.(cells := map[CellKey(CAPCOM, FLIGHT) := CellRow(Emit, false)])

  const RULED_ON := WITH_A_LOOP.(
    loops := [LoopRow(FLIGHT, "FLIGHT", false, 0)],
    cells := map[
      CellKey(CAPCOM, FLIGHT) := CellRow(Emit, false),
      CellKey(OBSERVER, FLIGHT) := CellRow(Monitor, false)])

  const WITH_ALICE := RULED_ON.(users := map[ALICE := User(false, false)])

  const WITH_BOB := WITH_ALICE.(users := map[ALICE := User(false, false), BOB := User(false, false)])

  const SHE_IS_SIGNED_IN := WITH_BOB.(signIns := map[HERS := SignIn(ALICE, 0, 0)])

  const CONFIGURED := WITH_BOB.(signIns := map[HERS := SignIn(ALICE, 0, 0), HIS := SignIn(BOB, 0, 0)])

  function ConfiguredBy(k: nat): Tables {
    if k == 0 then NOTHING_CONFIGURED
    else if k == 1 then WITH_A_ROLE
    else if k == 2 then WITH_ROLES
    else if k == 3 then WITH_A_LOOP
    else if k == 4 then HALF_RULED
    else if k == 5 then RULED_ON
    else if k == 6 then WITH_ALICE
    else if k == 7 then WITH_BOB
    else if k == 8 then SHE_IS_SIGNED_IN
    else CONFIGURED
  }

  lemma {:induction false} TheRolesAreMade()
    ensures Edited(NOTHING_CONFIGURED, MakeRole(SPEAKING)) == WITH_A_ROLE
    ensures Edited(WITH_A_ROLE, MakeRole(WATCHING)) == WITH_ROLES
  {
    hide Folded;
  }

  lemma {:induction false} TheLoopIsMade()
    ensures Edited(WITH_ROLES, MakeLoop(FLIGHT, "FLIGHT")) == WITH_A_LOOP
  {
    assert NextPosition([]) == 0;
  }

  lemma {:induction false} TheyAreEnrolled()
    ensures Edited(RULED_ON, MakeUser(ALICE, User(false, false))) == WITH_ALICE
    ensures Edited(WITH_ALICE, MakeUser(BOB, User(false, false))) == WITH_BOB
  {
  }

  lemma {:induction false} TheyAreThere(t: Tables)
    requires t.roles == WITH_ROLES.roles && |t.loops| == 1 && t.loops[0].id == FLIGHT
    ensures IsRole(t.roles, CAPCOM) && IsRole(t.roles, OBSERVER) && IsLoop(t.loops, FLIGHT)
  {
    assert t.roles[0] in t.roles && t.roles[1] in t.roles && t.loops[0] in t.loops;
  }

  lemma {:induction false} TheLoopIsHalfRuled()
    ensures Edited(WITH_A_LOOP, SetCell(CAPCOM, FLIGHT, Emit)) == HALF_RULED
  {
    TheyAreThere(WITH_A_LOOP);
    assert WATCHING in HALF_RULED.roles && !ColumnComplete(HALF_RULED, FLIGHT);
  }

  lemma {:induction false} TheLoopIsRuledOn()
    ensures Edited(HALF_RULED, SetCell(OBSERVER, FLIGHT, Monitor)) == RULED_ON
  {
    TheyAreThere(HALF_RULED);
    var ruled := HALF_RULED.(cells := RULED_ON.cells);
    assert ColumnComplete(ruled, FLIGHT);
    assert MarkCleared(ruled.loops, FLIGHT) == RULED_ON.loops;
  }

  function Nobody(ladder: Ladder, t: Tables): World {
    World(t, Empty(ladder), map[])
  }

  lemma {:induction false} AnAssumePasses(w: World, turn: Turn, a: Assuming)
    requires turn.what.AsksToAssume? && Caused(w, turn) == Some(Event(Assume(a, turn.what.minted), turn.at))
    requires !IsFull(w.live.sessions, a) && SeatOf(w.live.sessions, a.occupant) == |w.live.sessions|
    requires w.live.tombstones == []
    ensures
      var seated := w.live.sessions + [Seated(a, turn.what.minted, turn.at)];
      Passed(w, turn) == World(w.tables, w.live.(sessions := seated), w.sockets[turn.what.minted := turn.what.token])
  {
    hide Caused, Seated;
  }

  lemma {:induction false} AMessagePasses(w: World, turn: Turn, user: UserId, token: SignInToken, k: nat)
    requires turn.what.Says? && k < |w.live.sessions| && At(w.live.sessions, turn.what.session) == k
    requires Asked(w, RequirementOf(turn.what.deed), turn.what.session) == Permitted(Somebody(user, token))
    ensures
      var s, deed := w.live.sessions[k], turn.what.deed;
      Passed(w, turn) == World(
        WrittenDown(w.tables, user, s.role, deed),
        w.live.(sessions := w.live.sessions[k := Done(s, w.live.ladder, deed, turn.at)]),
        w.sockets)
  {
    hide Asked, Done, WrittenDown, At;
  }

  lemma {:induction false} OneMoreConfigured(ladder: Ladder, k: nat)
    requires k < 9
    ensures Passed(Nobody(ladder, ConfiguredBy(k)), Turn(TheTurn(k), 0)) == Nobody(ladder, ConfiguredBy(k + 1))
    ensures TheTurn(k).Edits? ==> MayEdit(ConfiguredBy(k), TheTurn(k).edit)
    ensures Caused(Nobody(ladder, ConfiguredBy(k)), Turn(TheTurn(k), 0)).None?
    ensures TheTurn(k).Edits? || TheTurn(k).KeepsSignIns?
  {
    hide Edited, Passed, Caused;
    if TheTurn(k).Edits? {
      AnEditPasses(Nobody(ladder, ConfiguredBy(k)), Turn(TheTurn(k), 0));
    } else {
      ASignInPasses(Nobody(ladder, ConfiguredBy(k)), Turn(TheTurn(k), 0));
    }
    TheRolesAreMade();
    TheLoopIsMade();
    TheLoopIsHalfRuled();
    TheLoopIsRuledOn();
    TheyAreEnrolled();
  }

  lemma {:induction false} MayBeConfigured(ladder: Ladder, k: nat)
    requires k < 9 && WorldAfter(ladder, Opening(k)).tables == ConfiguredBy(k) && TimeAfter(Opening(k)) == 0
    ensures MayPass(ladder, Opening(k), Turn(TheTurn(k), 0))
  {
    hide WorldAfter, ConfiguredBy, TheTurn, Opening, MayEdit, Passed, Caused;
    NobodyYet(ladder, k);
    OneMoreConfigured(ladder, k);
  }

  lemma {:induction false} TheConfiguration(ladder: Ladder, k: nat)
    requires k <= 9
    ensures Plausible(ladder, Opening(k)) && WorldAfter(ladder, Opening(k)) == Nobody(ladder, ConfiguredBy(k))
    ensures TimeAfter(Opening(k)) == 0 && LiveRun(ladder, Opening(k)) == []
  {
    if k > 0 {
      hide Passed, ConfiguredBy, TheTurn, MayPass, Caused, Plausible, WorldAfter;
      TheConfiguration(ladder, k - 1);
      MayBeConfigured(ladder, k - 1);
      OneMoreConfigured(ladder, k - 1);
      OneTurnMore(ladder, Opening(k - 1), Turn(TheTurn(k - 1), 0));
    } else {
      NothingToldYet(ladder);
    }
  }

  lemma {:induction false} NothingToldYet(ladder: Ladder)
    ensures Plausible(ladder, []) && WorldAfter(ladder, []) == Nobody(ladder, NOTHING_CONFIGURED)
  {
  }

  lemma {:induction false} NobodyYet(ladder: Ladder, n: nat)
    requires n <= 9
    ensures forall k :: 0 <= k <= n ==> WorldAfter(ladder, Opening(n)[..k]).live.sessions == []
  {
    hide WorldAfter, Plausible;
    forall k | 0 <= k <= n ensures WorldAfter(ladder, Opening(n)[..k]).live.sessions == [] {
      OpeningPrefix(n, k);
      NobodyAt(ladder, k);
    }
  }

  lemma {:induction false} ConfiguringSeatsNobody(w: World, k: nat)
    requires k < 9
    ensures Passed(w, Turn(TheTurn(k), 0)).live == w.live
  {
  }

  lemma {:induction false} NobodyAt(ladder: Ladder, k: nat)
    requires k <= 9
    ensures WorldAfter(ladder, Opening(k)).live == Empty(ladder)
  {
    if k > 0 {
      hide Passed, Plausible, WorldAfter, TheTurn;
      NobodyAt(ladder, k - 1);
      OneTurnMore(ladder, Opening(k - 1), Turn(TheTurn(k - 1), 0));
      ConfiguringSeatsNobody(WorldAfter(ladder, Opening(k - 1)), k - 1);
    } else {
      NothingToldYet(ladder);
    }
  }

  // ---- Two seats -----------------------------------------------------------------------------------

  const SHE := Seated(Assuming(HERS, ALICE, CAPCOM, None, [], []), TALKER, 0)
  const HE := Seated(Assuming(HIS, BOB, OBSERVER, None, [], []), LISTENER, 0)
  const HE_MONITORS := HE.(subscriptions := [FLIGHT], beacons := [Counting.Starting(FLIGHT, 0)])
  const SHE_IS_ARMED := SHE.(arms := [FLIGHT])
  const REMEMBERING := CONFIGURED.(subscriptions := {Keepsake(BOB, OBSERVER, FLIGHT)})
  const SOCKETS := map[TALKER := HERS, LISTENER := HIS]

  function Sitting(ladder: Ladder, t: Tables, sessions: seq<Session>): World {
    World(t, Empty(ladder).(sessions := sessions), if |sessions| == 1 then map[TALKER := HERS] else SOCKETS)
  }

  /** The story has come to that world, plausibly. */
  ghost predicate HasComeTo(ladder: Ladder, k: nat, w: World) {
    && Plausible(ladder, Opening(k)) && WorldAfter(ladder, Opening(k)) == w
    && TimeAfter(Opening(k)) == 0
  }

  lemma {:induction false} Onward(ladder: Ladder, k: nat, w: World, next: World)
    requires HasComeTo(ladder, k, w) && MayPass(ladder, Opening(k), Turn(TheTurn(k), 0))
    requires Passed(w, Turn(TheTurn(k), 0)) == next
    ensures HasComeTo(ladder, k + 1, next)
    ensures LiveRun(ladder, Opening(k + 1)) == LiveRun(ladder, Opening(k))
      + (if Caused(w, Turn(TheTurn(k), 0)).Some? then [Caused(w, Turn(TheTurn(k), 0)).value] else [])
  {
    hide Passed, TheTurn, Caused, MayPass;
    OneTurnMore(ladder, Opening(k), Turn(TheTurn(k), 0));
  }

  lemma {:induction false} NothingRememberedYet(user: UserId, role: RoleId)
    ensures TheSubscriptionsOf(CONFIGURED, user, role) == [] && TheVolumesOf(CONFIGURED, user, role) == []
  {
    OneLoop(CONFIGURED.loops);
    assert CONFIGURED.loops[1..] == [];
    assert VolumesAmong(CONFIGURED, user, role, []) == [];
    assert SubscribedAmong(CONFIGURED, user, role, []) == [];
    assert SubscribedAmong(CONFIGURED, user, role, CONFIGURED.loops) == [];
  }

  lemma {:induction false} OneLoop(loops: seq<LoopRow>)
    requires |loops| == 1
    ensures BaseOrder(loops) == loops
  {
    assert loops[..0] == [];
  }

  lemma {:induction false} TheirRows()
    ensures ARole(CONFIGURED.roles, CAPCOM) == Some(SPEAKING) && ARole(CONFIGURED.roles, OBSERVER) == Some(WATCHING)
  {
    assert CONFIGURED.roles[1..] == [WATCHING];
  }

  lemma {:induction false} SheAsks(ladder: Ladder)
    ensures Caused(Nobody(ladder, CONFIGURED), Turn(TheTurn(9), 0))
         == Some(Event(Assume(Assuming(HERS, ALICE, CAPCOM, None, [], []), TALKER), 0))
  {
    hide TheSubscriptionsOf, TheVolumesOf, ARole;
    TheirRows();
    NothingRememberedYet(ALICE, CAPCOM);
  }

  lemma {:induction false} HeAsks(ladder: Ladder)
    ensures Caused(Sitting(ladder, CONFIGURED, [SHE]), Turn(TheTurn(10), 0))
         == Some(Event(Assume(Assuming(HIS, BOB, OBSERVER, None, [], []), LISTENER), 0))
  {
    hide TheSubscriptionsOf, TheVolumesOf, ARole;
    TheirRows();
    NothingRememberedYet(BOB, OBSERVER);
  }

  lemma {:induction false} SheSitsDown(ladder: Ladder)
    ensures Passed(Nobody(ladder, CONFIGURED), Turn(TheTurn(9), 0)) == Sitting(ladder, CONFIGURED, [SHE])
  {
    hide Caused, Passed;
    SheAsks(ladder);
    AnAssumePasses(Nobody(ladder, CONFIGURED), Turn(TheTurn(9), 0), Assuming(HERS, ALICE, CAPCOM, None, [], []));
  }

  lemma {:induction false} HeSitsDown(ladder: Ladder)
    ensures Passed(Sitting(ladder, CONFIGURED, [SHE]), Turn(TheTurn(10), 0)) == Sitting(ladder, CONFIGURED, [SHE, HE])
  {
    hide Caused, Passed;
    HeAsks(ladder);
    AnAssumePasses(
      Sitting(ladder, CONFIGURED, [SHE]), Turn(TheTurn(10), 0), Assuming(HIS, BOB, OBSERVER, None, [], []));
    assert map[TALKER := HERS][LISTENER := HIS] == SOCKETS;
  }

  lemma {:induction false} TheySitDown(ladder: Ladder)
    ensures HasComeTo(ladder, 11, Sitting(ladder, CONFIGURED, [SHE, HE]))
  {
    hide Passed, Plausible, WorldAfter, Caused;
    TheConfiguration(ladder, 9);
    SheAsks(ladder);
    SheSitsDown(ladder);
    assert MayPass(ladder, Opening(9), Turn(TheTurn(9), 0));
    Onward(ladder, 9, Nobody(ladder, CONFIGURED), Sitting(ladder, CONFIGURED, [SHE]));
    OneMinted(LiveRun(ladder, Opening(10))[0]);
    assert MayPass(ladder, Opening(10), Turn(TheTurn(10), 0));
    HeSitsDown(ladder);
    Onward(ladder, 10, Sitting(ladder, CONFIGURED, [SHE]), Sitting(ladder, CONFIGURED, [SHE, HE]));
  }

  lemma {:induction false} OneMinted(e: Event)
    ensures MintedIn([e]) == if e.act.Assume? then {e.act.minted} else {}
  {
    assert [e][..0] == [];
  }

  // ---- One hears the other ----------------------------------------------------------------------------

  lemma {:induction false} WhatTheirRolesHold(t: Tables)
    requires t.loops == CONFIGURED.loops && t.cells == CONFIGURED.cells
    ensures HeldBy(t, CAPCOM, FLIGHT) == Emit && HeldBy(t, OBSERVER, FLIGHT) == Monitor
  {
  }

  lemma {:induction false} TheirSeats(sessions: seq<Session>)
    requires |sessions| == 2 && SamePerson(SHE, sessions[0]) && SamePerson(HE, sessions[1])
    ensures At(sessions, TALKER) == 0 && At(sessions, LISTENER) == 1
    ensures IsHeldBy(sessions, TALKER, ALICE) && IsHeldBy(sessions, LISTENER, BOB)
    ensures TheRoleOf(sessions, TALKER) == Some(CAPCOM) && TheRoleOf(sessions, LISTENER) == Some(OBSERVER)
  {
    assert sessions[0] in sessions && sessions[1] in sessions;
    assert sessions[1..] == [sessions[1]];
  }

  lemma {:induction false} TheyMaySpeak(t: Tables, sessions: seq<Session>)
    requires t.loops == CONFIGURED.loops && t.cells == CONFIGURED.cells
    requires t.users == CONFIGURED.users && t.signIns == CONFIGURED.signIns
    requires |sessions| == 2 && SamePerson(SHE, sessions[0]) && SamePerson(HE, sessions[1])
    ensures Evaluate(OnTheGrid(Emit, FLIGHT), InTheSeat(HERS, TALKER), t, sessions) == Permitted(Somebody(ALICE, HERS))
    ensures Evaluate(OnTheGrid(Monitor, FLIGHT), InTheSeat(HIS, LISTENER), t, sessions) == Permitted(Somebody(BOB, HIS))
  {
    hide HeldBy, IsHeldBy, TheRoleOf;
    TheirSeats(sessions);
    WhatTheirRolesHold(t);
  }

  lemma {:induction false} TheirDeeds(ladder: Ladder)
    ensures Done(HE, ladder, Subscribe(FLIGHT), 0) == HE_MONITORS
    ensures Done(SHE, ladder, Arm(FLIGHT), 0) == SHE_IS_ARMED
  {
  }

  lemma {:induction false} HeMonitors(ladder: Ladder)
    ensures Passed(Sitting(ladder, CONFIGURED, [SHE, HE]), Turn(TheTurn(11), 0))
         == Sitting(ladder, REMEMBERING, [SHE, HE_MONITORS])
  {
    hide Evaluate, Done, At, TheRoleOf, Passed;
    TheirSeats([SHE, HE]);
    TheyMaySpeak(CONFIGURED, [SHE, HE]);
    AMessagePasses(Sitting(ladder, CONFIGURED, [SHE, HE]), Turn(TheTurn(11), 0), BOB, HIS, 1);
    TheirDeeds(ladder);
    TheyAreThere(CONFIGURED);
    assert [SHE, HE][1 := HE_MONITORS] == [SHE, HE_MONITORS];
  }

  lemma {:induction false} SheArms(ladder: Ladder)
    ensures Passed(Sitting(ladder, REMEMBERING, [SHE, HE_MONITORS]), Turn(TheTurn(12), 0))
         == Sitting(ladder, REMEMBERING, [SHE_IS_ARMED, HE_MONITORS])
  {
    hide Evaluate, Done, At, TheRoleOf, Passed;
    TheirSeats([SHE, HE_MONITORS]);
    TheyMaySpeak(REMEMBERING, [SHE, HE_MONITORS]);
    AMessagePasses(Sitting(ladder, REMEMBERING, [SHE, HE_MONITORS]), Turn(TheTurn(12), 0), ALICE, HERS, 0);
    TheirDeeds(ladder);
    assert [SHE, HE_MONITORS][0 := SHE_IS_ARMED] == [SHE_IS_ARMED, HE_MONITORS];
  }

  lemma {:induction false} HisReach()
    ensures WithinFor(REMEMBERING, OBSERVER) == [InReach(FLIGHT, "FLIGHT", Monitor)]
  {
    OneLoop(REMEMBERING.loops);
    assert REMEMBERING.loops[1..] == [];
    assert ReachAmong(REMEMBERING, OBSERVER, Monitor, []) == [];
    assert TheReachOf(REMEMBERING, OBSERVER, Monitor) == [Reachable(REMEMBERING.loops[0], Monitor)];
  }

  lemma {:induction false} HisProjection(ladder: Ladder)
    ensures Caused(Sitting(ladder, REMEMBERING, [SHE_IS_ARMED, HE_MONITORS]), Turn(TheTurn(13), 0))
         == Some(Event(Project(LISTENER, [InReach(FLIGHT, "FLIGHT", Monitor)], AsStaffed([])), 0))
  {
    hide At, TheRoleOf, WithinFor;
    TheirSeats([SHE_IS_ARMED, HE_MONITORS]);
    HisReach();
    TheyAreThere(REMEMBERING);
  }

  lemma {:induction false} HeHears(document: Presence)
    ensures HE_MONITORS.Within([InReach(FLIGHT, "FLIGHT", Monitor)]).Shown(document).Hears(FLIGHT)
    ensures SamePerson(HE, HE_MONITORS.Within([InReach(FLIGHT, "FLIGHT", Monitor)]).Shown(document))
  {
    var reach := [InReach(FLIGHT, "FLIGHT", Monitor)];
    assert reach[0] in reach;
  }

  lemma {:induction false} ShowingMovesNoTable(w: World, turn: Turn)
    requires Projects(w, turn)
    ensures Passed(w, turn) == World(w.tables, Step(w.live, Caused(w, turn).value), w.sockets)
  {
    hide Caused, Step;
  }

  lemma {:induction false} HeIsShown(ladder: Ladder)
    ensures
      var next := Passed(Sitting(ladder, REMEMBERING, [SHE_IS_ARMED, HE_MONITORS]), Turn(TheTurn(13), 0));
      && next.tables == REMEMBERING && next.live.ladder == ladder && next.sockets == SOCKETS
      && |next.live.sessions| == 2 && next.live.sessions[0] == SHE_IS_ARMED
      && SamePerson(HE, next.live.sessions[1]) && next.live.sessions[1].Hears(FLIGHT)
  {
    hide At, TheRoleOf, Projected, WithinFor, Caused, Step, Told, SamePerson, Passed;
    var w := Sitting(ladder, REMEMBERING, [SHE_IS_ARMED, HE_MONITORS]);
    TheySitThere();
    TheirSeats(w.live.sessions);
    HisProjection(ladder);
    ShowingMovesNoTable(w, Turn(TheTurn(13), 0));
    var e := Caused(w, Turn(TheTurn(13), 0)).value;
    TheProjectionStep(w.live, e);
    HeHears(Projected(w.live, 1, e.act.within, e.act.staffed, 0));
  }

  lemma {:induction false} TheySitThere()
    ensures SamePerson(SHE, SHE_IS_ARMED) && SamePerson(HE, HE_MONITORS)
  {
  }

  lemma {:induction false} NobodyStaffs(t: Tables)
    requires t.cells.Keys <= REMEMBERING.cells.Keys
    requires forall key :: key in t.cells ==> t.cells[key] == REMEMBERING.cells[key]
    ensures AnswersStaffing(t, [])
  {
  }

  lemma {:induction false} TheyAreReady(ladder: Ladder)
    ensures HasComeTo(ladder, 13, Sitting(ladder, REMEMBERING, [SHE_IS_ARMED, HE_MONITORS]))
  {
    hide Passed, Plausible, WorldAfter, Caused, LiveRun, Sitting;
    TheySitDown(ladder);
    HeMonitors(ladder);
    Onward(ladder, 11, Sitting(ladder, CONFIGURED, [SHE, HE]), Sitting(ladder, REMEMBERING, [SHE, HE_MONITORS]));
    SheArms(ladder);
    var armed := Sitting(ladder, REMEMBERING, [SHE_IS_ARMED, HE_MONITORS]);
    Onward(ladder, 12, Sitting(ladder, REMEMBERING, [SHE, HE_MONITORS]), armed);
  }

  lemma {:induction false} OneHearsTheOther(ladder: Ladder)
    ensures
      var w := WorldAfter(ladder, Opening(14));
      && HasComeTo(ladder, 14, w) && |w.live.sessions| == 2 && w.live.ladder == ladder
      && w.tables == REMEMBERING && w.sockets == SOCKETS
      && w.live.sessions[0] == SHE_IS_ARMED
      && SamePerson(HE, w.live.sessions[1]) && w.live.sessions[1].Hears(FLIGHT)
  {
    hide Passed, Plausible, WorldAfter, Caused, AnswersStaffing, SamePerson, LiveRun, Opening;
    TheyAreReady(ladder);
    HeIsShown(ladder);
    NobodyStaffs(REMEMBERING);
    var armed := Sitting(ladder, REMEMBERING, [SHE_IS_ARMED, HE_MONITORS]);
    MayBeShown(ladder, Opening(13), Turn(TheTurn(13), 0));
    Onward(ladder, 13, armed, Passed(armed, Turn(TheTurn(13), 0)));
  }

  lemma {:induction false} SheIsHeard(ladder: Ladder)
    requires ladder.Accepted()
    ensures
      var w := WorldAfter(ladder, Opening(14));
      && Plausible(ladder, Opening(14)) && TimeAfter(Opening(14)) == 0 && |w.live.sessions| == 2
      && w.live.sessions[0] == SHE_IS_ARMED && SamePerson(HE, w.live.sessions[1])
      && Heard(LISTENER, FLIGHT) in Audience(w.live, SHE_IS_ARMED, 0)
  {
    hide Passed, Plausible, WorldAfter, Opening, StoreOk, Audience, After, Legal;
    AcceptedExactly(ladder);
    OneHearsTheOther(ladder);
    var w := WorldAfter(ladder, Opening(14));
    EveryStoryIsALegalRun(ladder, Opening(14));
    assert w.live.sessions[1] in w.live.sessions;
    AudienceIsExact(w.live, SHE_IS_ARMED, 0);
  }

  // ---- A role is deleted ------------------------------------------------------------------------------

  /** The role deleted, and then a tick of whoever was in it. */
  function DeletedUnder(gone: RoleId, held: SessionId): Story {
    Opening(14) + [Turn(Edits(DropRole(gone)), 0)] + [Turn(IsShown(held, []), 0)]
  }

  ghost predicate IsEitherSide(gone: RoleId, held: SessionId) {
    (gone == CAPCOM && held == TALKER) || (gone == OBSERVER && held == LISTENER)
  }

  /** Whichever role goes, the story is one the driver can tell, and the voice is still carried on a
      loop that role holds nothing of, to or from a session no socket holds any more. */
  lemma {:induction false} TheVoiceOutlastsTheRole(ladder: Ladder, gone: RoleId, held: SessionId)
    requires ladder.Accepted() && IsEitherSide(gone, held)
    ensures
      var story := DeletedUnder(gone, held);
      var w := WorldAfter(ladder, story);
      && Plausible(ladder, story) && TimeAfter(story) == 0
      && HeldBy(w.tables, gone, FLIGHT) == Nothing
      && held !in w.sockets && (held == LISTENER ==> TALKER in w.sockets && w.sockets[TALKER] == HERS)
      && w.tables.users == REMEMBERING.users && w.tables.signIns == REMEMBERING.signIns
      && w.live.sessions == WorldAfter(ladder, Opening(14)).live.sessions && w.live.ladder == ladder
      && Heard(LISTENER, FLIGHT) in Audience(w.live, SHE_IS_ARMED, 0)
  {
    hide Passed, Plausible, WorldAfter, Opening, StoreOk, Audience, HeldBy, AnswersStaffing, After, Legal, TombstonesOk;
    SheIsHeard(ladder);
    OneHearsTheOther(ladder);
    var w, drop := WorldAfter(ladder, Opening(14)), Turn(Edits(DropRole(gone)), 0);
    var he := w.live.sessions[1];
    assert SHE_IS_ARMED in w.live.sessions && he in w.live.sessions;
    ADeletedRoleStaysOnTheAir(ladder, Opening(14), 0, SHE_IS_ARMED, he, gone, FLIGHT, 0);
    OneTurnMore(ladder, Opening(14), drop);
    RoleDropped(w, gone, 0);
    var dropped, tick := Opening(14) + [drop], Turn(IsShown(held, []), 0);
    NobodyStaffs(WorldAfter(ladder, dropped).tables);
    MayBeShown(ladder, dropped, tick);
    OneTurnMore(ladder, dropped, tick);
    EveryStoryIsALegalRun(ladder, dropped);
    var theirs := if held == TALKER then SHE_IS_ARMED else he;
    AskedInVain(WorldAfter(ladder, dropped), MintedIn(LiveRun(ladder, dropped)), tick, theirs);
    SameAudience(w.live, WorldAfter(ladder, DeletedUnder(gone, held)).live, SHE_IS_ARMED, 0);
  }

  lemma {:induction false} SameAudience(l: Live, m: Live, talker: Session, now: Instant)
    requires l.sessions == m.sessions && l.ladder == m.ladder
    ensures Audience(l, talker, now) == Audience(m, talker, now)
  {
  }

  /** Where it is the talker's role that went, nobody hears them from `disconnected` after their last
      answer, whatever else happens. */
  lemma {:induction false} TheTalkerFallsSilent(ladder: Ladder, more: Story, now: Instant)
    requires ladder.Accepted() && Plausible(ladder, DeletedUnder(CAPCOM, TALKER) + more)
    requires IsLive(WorldAfter(ladder, DeletedUnder(CAPCOM, TALKER) + more).live.sessions, TALKER)
    requires now >= ladder.disconnected * SECOND
    ensures
      var l := WorldAfter(ladder, DeletedUnder(CAPCOM, TALKER) + more).live;
      Audience(l, LiveState.Held(l.sessions, TALKER), now) == []
  {
    hide WorldAfter, Plausible, Opening, Audience, DeletedUnder, HeldBy, StoreOk;
    TheVoiceOutlastsTheRole(ladder, CAPCOM, TALKER);
    OneHearsTheOther(ladder);
    var story := DeletedUnder(CAPCOM, TALKER);
    var l := WorldAfter(ladder, story + more).live;
    assert SHE_IS_ARMED in WorldAfter(ladder, story).live.sessions;
    HowLongASessionLetGoIsCarried(ladder, story, more, SHE_IS_ARMED, LiveState.Held(l.sessions, TALKER), FLIGHT, now);
  }

  /** Where it is the listener's, there is no such end: at any later instant the talker need only
      answer one more heartbeat to be carried to them still. */
  lemma {:induction false} TheListenerGoesOnHearing(ladder: Ladder, now: Instant)
    requires ladder.Accepted()
    ensures
      var story := DeletedUnder(OBSERVER, LISTENER) + [Turn(Says(TALKER, AnswerTheHeartbeat), now)];
      var l := WorldAfter(ladder, story).live;
      && Plausible(ladder, story) && IsLive(l.sessions, TALKER)
      && Heard(LISTENER, FLIGHT) in Audience(l, LiveState.Held(l.sessions, TALKER), now)
  {
    hide WorldAfter, Plausible, Opening, Audience, DeletedUnder, HeldBy, StoreOk, Passed, After, Legal, TombstonesOk;
    AcceptedExactly(ladder);
    TheVoiceOutlastsTheRole(ladder, OBSERVER, LISTENER);
    OneHearsTheOther(ladder);
    var story, beat := DeletedUnder(OBSERVER, LISTENER), Turn(Says(TALKER, AnswerTheHeartbeat), now);
    var w := WorldAfter(ladder, story);
    OneTurnMore(ladder, story, beat);
    TheTalkerAnswers(w, now);
    EveryStoryIsALegalRun(ladder, story + [beat]);
    var l := WorldAfter(ladder, story + [beat]).live;
    var she := l.sessions[0];
    FoundWhereItIs(l.sessions, 0);
    assert she in l.sessions && l.sessions[1] in l.sessions && SessionOk(she);
    AudienceIsExact(l, she, now);
  }

  lemma {:induction false} TheTalkerAnswers(w: World, now: Instant)
    requires |w.live.sessions| == 2 && w.live.sessions[0] == SHE_IS_ARMED && SamePerson(HE, w.live.sessions[1])
    requires TALKER in w.sockets && w.sockets[TALKER] == HERS
    requires w.tables.users == REMEMBERING.users && w.tables.signIns == REMEMBERING.signIns
    ensures
      var after := Passed(w, Turn(Says(TALKER, AnswerTheHeartbeat), now)).live;
      && after.ladder == w.live.ladder && |after.sessions| == 2 && after.sessions[1] == w.live.sessions[1]
      && after.sessions[0].id == TALKER && after.sessions[0].arms == [FLIGHT]
      && after.sessions[0].heardFrom == now && !after.sessions[0].channelIsGone
  {
    hide Done, At, IsHeldBy, TheRoleOf, Passed;
    TheySitThere();
    TheirSeats(w.live.sessions);
    AMessagePasses(w, Turn(Says(TALKER, AnswerTheHeartbeat), now), ALICE, HERS, 0);
    SheAnswers(w.live.ladder, now);
  }

  lemma {:induction false} SheAnswers(ladder: Ladder, now: Instant)
    ensures
      var s := Done(SHE_IS_ARMED, ladder, AnswerTheHeartbeat, now);
      s.id == TALKER && s.arms == [FLIGHT] && s.heardFrom == now && !s.channelIsGone
  {
  }
}
