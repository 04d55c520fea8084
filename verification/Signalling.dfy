/** The driver that joins the two seams: every message checked against its requirement and then
    carried out on the live side, every subscription and volume written down behind the act, and
    every document projected within the reach read afresh (`src/transport/signalling.rs`). */
module Signalling {
  import opened Basics
  import opened Names
  import opened Deployment
  import opened Sessions
  import opened LiveState
  import opened Invariants
  import opened Documents
  import opened Tables
  import opened BaseOrders
  import opened Grid
  import opened RoleOrders
  import opened GridCoherence
  import opened Personalisation
  import opened SignIns
  import opened StoreRuns
  import opened Store
  import opened Authorisation

  /** The two seams, and the sessions some socket still holds with the sign-in that socket was
      opened on. A session outlives its socket and no other socket ever takes it up. */
  datatype World = World(tables: Tables, live: Live, sockets: map<SessionId, SignInToken>)

  datatype Doing =
    | Edits(edit: Edit)
    | KeepsSignIns(happening: Happening, clock: int)
    | AsksToAssume(token: SignInToken, role: RoleId, eligible: bool, minted: SessionId)
    | AsksToRelinquish(left: SessionId)
    | Says(session: SessionId, deed: Deed)
    | IsShown(shown: SessionId, staffing: seq<StaffedLoop>)
    | ChannelGoes(silent: SessionId)
    | Otherwise(act: Act)

  datatype Turn = Turn(what: Doing, at: Instant)

  type Story = seq<Turn>

  // ---- One turn ---------------------------------------------------------------------------

  /** What each message demands. Arming needs `emit` on the loop and monitoring needs `monitor`;
      nothing else a session does reaches anybody. */
  function RequirementOf(deed: Deed): Requirement {
    match deed
    case Arm(on) => OnTheGrid(Emit, on)
    case Disarm(on) => OnTheGrid(Emit, on)
    case Subscribe(on) => OnTheGrid(Monitor, on)
    case Unsubscribe(on) => OnTheGrid(Monitor, on)
    case AnswerTheHeartbeat => SignedIn
    case ActDeliberately => SignedIn
    case _ => InASession
  }

  function FromTheLobby(token: SignInToken): Presented {
    Presented(Some(token), None, None, None)
  }

  function InTheSeat(token: SignInToken, session: SessionId): Presented {
    Presented(Some(token), None, Some(session), None)
  }

  /** What a message from the socket holding that session is answered: nothing reaches a session
      but through its own socket. */
  function Asked(w: World, requirement: Requirement, session: SessionId): Outcome {
    if session in w.sockets
    then Evaluate(requirement, InTheSeat(w.sockets[session], session), w.tables, w.live.sessions)
    else Refused
  }

  function AsInReach(reach: seq<Reachable>): (r: seq<InReach>)
    ensures |r| == |reach|
    ensures forall i :: 0 <= i < |r| ==> r[i] == InReach(reach[i].heldOn.id, reach[i].heldOn.name, reach[i].permission)
  {
    seq(|reach|, i requires 0 <= i < |reach| =>
      InReach(reach[i].heldOn.id, reach[i].heldOn.name, reach[i].permission))
  }

  /** What a session in that role is projected within. */
  function WithinFor(t: Tables, role: RoleId): seq<InReach> {
    AsInReach(TheReachOf(t, role, Monitor))
  }

  function AsStaffed(staffing: seq<StaffedLoop>): (r: seq<StaffedBy>)
    ensures |r| == |staffing|
    ensures forall i :: 0 <= i < |r| ==> r[i] == StaffedBy(staffing[i].heldOn.id, staffing[i].roles)
  {
    seq(|staffing|, i requires 0 <= i < |staffing| => StaffedBy(staffing[i].heldOn.id, staffing[i].roles))
  }

  /** The seat as it is asked for: the limit and everything remembered read with the role. */
  function SeatAskedFor(t: Tables, token: SignInToken, user: UserId, row: RoleRow): Assuming {
    Assuming(token, user, row.id, row.maxOccupants, TheSubscriptionsOf(t, user, row.id), TheVolumesOf(t, user, row.id))
  }

  /** The live event a turn causes, where it causes one. */
  function Caused(w: World, turn: Turn): Option<Event> {
    match turn.what
    case AsksToAssume(token, role, eligible, minted) =>
      match (Evaluate(SignedIn, FromTheLobby(token), w.tables, w.live.sessions), ARole(w.tables.roles, role)) {
        case (Permitted(Somebody(user, _)), Some(row)) =>
          if eligible then Some(Event(Assume(SeatAskedFor(w.tables, token, user, row), minted), turn.at)) else None
        case _ => None
      }
    case AsksToRelinquish(session) =>
      if Asked(w, InASession, session).Permitted? then Some(Event(EndedByItsOwnHolder(session), turn.at)) else None
    case Says(session, deed) =>
      if Asked(w, RequirementOf(deed), session).Permitted? then Some(Event(Do(session, deed), turn.at)) else None
    case IsShown(session, staffing) =>
      if session !in w.sockets then None
      else
        (match TheRoleOf(w.live.sessions, session)
         case Some(role) =>
           if IsRole(w.tables.roles, role)
           then Some(Event(Project(session, WithinFor(w.tables, role), AsStaffed(staffing)), turn.at))
           else Some(Event(WhyItEnded(session), turn.at))
         case None => Some(Event(WhyItEnded(session), turn.at)))
    case ChannelGoes(session) =>
      if session in w.sockets then Some(Event(Do(session, LoseTheChannel), turn.at)) else None
    case Otherwise(act) => Some(Event(act, turn.at))
    case Edits(_) => None
    case KeepsSignIns(_, _) => None
  }

  /** What an act leaves behind it: a subscription and a volume are remembered, an arm, a mute
      and a key are not. */
  function WrittenDown(t: Tables, user: UserId, role: RoleId, deed: Deed): Tables {
    match deed
    case Subscribe(on) => SubscriptionRemembered(t, Keepsake(user, role, on))
    case Unsubscribe(on) => SubscriptionForgotten(t, Keepsake(user, role, on))
    case SetVolume(on, volume) => VolumeRemembered(t, Keepsake(user, role, on), volume)
    case _ => t
  }

  function TablesAfter(w: World, turn: Turn): Tables {
    match turn.what
    case Edits(edit) => Edited(w.tables, edit)
    case KeepsSignIns(happening, clock) =>
      w.tables.(signIns := Happened(w.tables.signIns, Moment(happening, clock)))
    case Says(session, deed) =>
      (match (Asked(w, RequirementOf(deed), session), TheRoleOf(w.live.sessions, session))
       case (Permitted(Somebody(user, _)), Some(role)) => WrittenDown(w.tables, user, role, deed)
       case _ => w.tables)
    case _ => w.tables
  }

  /** The deeds that are remembered. */
  predicate IsRemembered(deed: Deed) {
    deed.Subscribe? || deed.Unsubscribe? || deed.SetVolume?
  }

  /** The write a deed rides with, where it rides with one. */
  function Keeping(user: UserId, role: RoleId, deed: Deed): Option<Write> {
    match deed
    case Subscribe(on) => Some(KeepsSubscription(Keepsake(user, role, on)))
    case Unsubscribe(on) => Some(DropsSubscription(Keepsake(user, role, on)))
    case SetVolume(on, volume) => Some(KeepsVolume(Keepsake(user, role, on), volume))
    case _ => None
  }

  /** The write a turn makes to the store, where it makes one. Only a write to the sign-ins reads the
      clock it is made at. */
  function WriteOf(w: World, turn: Turn): Option<Written> {
    match turn.what
    case Edits(edit) => Some(Written(Administers(edit), turn.at))
    case KeepsSignIns(happening, clock) => Some(Written(ToSignIns(happening), clock))
    case Says(session, deed) =>
      (match (Asked(w, RequirementOf(deed), session), TheRoleOf(w.live.sessions, session))
       case (Permitted(Somebody(user, _)), Some(role)) =>
         (match Keeping(user, role, deed)
          case Some(write) => Some(Written(write, turn.at))
          case None => None)
       case _ => None)
    case _ => None
  }

  /** The turn is a projection that issues a document. */
  predicate Projects(w: World, turn: Turn) {
    turn.what.IsShown? && Caused(w, turn).Some? && Caused(w, turn).value.act.Project?
  }

  /** A seat taken is on the socket that asked for it; a session given up, one a tick finds no role
      for, and one whose channel went, are on no socket from then on. */
  function SocketsAfter(w: World, turn: Turn): map<SessionId, SignInToken> {
    match turn.what
    case AsksToAssume(token, _, _, minted) =>
      var caused := Caused(w, turn);
      if caused.Some? && caused.value.act.Assume? && !IsFull(w.live.sessions, caused.value.act.assuming)
      then w.sockets[minted := token] else w.sockets
    case AsksToRelinquish(session) => if Caused(w, turn).Some? then w.sockets - {session} else w.sockets
    case IsShown(session, _) => if Projects(w, turn) then w.sockets else w.sockets - {session}
    case ChannelGoes(session) => w.sockets - {session}
    case _ => w.sockets
  }

  function LiveAfter(l: Live, caused: Option<Event>): Live {
    if caused.Some? then Step(l, caused.value) else l
  }

  /** Check, act and write down as one turn. */
  function Passed(w: World, turn: Turn): World {
    World(TablesAfter(w, turn), LiveAfter(w.live, Caused(w, turn)), SocketsAfter(w, turn))
  }

  // ---- Whole stories ------------------------------------------------------------------------

  function Earlier(story: Story): Story
    requires story != []
  {
    story[..|story| - 1]
  }

  function Last(story: Story): Turn
    requires story != []
  {
    story[|story| - 1]
  }

  ghost function WorldAfter(ladder: Ladder, story: Story): World {
    if story == [] then World(NOTHING_CONFIGURED, Empty(ladder), map[])
    else Passed(WorldAfter(ladder, Earlier(story)), Last(story))
  }

  /** The run of the state authority a story amounts to. */
  ghost function LiveRun(ladder: Ladder, story: Story): History {
    if story == [] then []
    else
      var before, caused := LiveRun(ladder, Earlier(story)), Caused(WorldAfter(ladder, Earlier(story)), Last(story));
      if caused.Some? then before + [caused.value] else before
  }

  /** The run of writes a story amounts to. */
  ghost function StoreRun(ladder: Ladder, story: Story): Writes {
    if story == [] then []
    else
      var before, made := StoreRun(ladder, Earlier(story)), WriteOf(WorldAfter(ladder, Earlier(story)), Last(story));
      if made.Some? then before + [made.value] else before
  }

  ghost function TimeAfter(story: Story): Instant {
    if story == [] then 0 else Last(story).at
  }

  /** What reaches the state authority with no socket behind it: an ending taken back, a reason
      asked for, the media plane's readings and the answers handed down. */
  predicate NeedsNoMessage(act: Act) {
    match act
    case Do(_, deed) => deed.SeeMediaPath?
    case Assume(_, _) => false
    case Project(_, _, _) => false
    case _ => true
  }

  /** No session has ever had anything to do with that record. */
  ghost predicate NeverTouched(ladder: Ladder, story: Story, edit: Edit) {
    forall k, s :: 0 <= k <= |story| && s in WorldAfter(ladder, story[..k]).live.sessions ==>
      match edit
      case MakeLoop(id, _) => id !in s.subscriptions && id !in LoopsSet(s.volumes)
      case MakeRole(row) => s.role != row.id
      case MakeUser(id, _) => s.occupant != id
      case _ => true
  }

  /** What one turn demands of the outside world: the clock does not go back, an id minted was
      never used before, and a projection is handed the staffing the grid answers. */
  ghost predicate MayPass(ladder: Ladder, story: Story, turn: Turn) {
    && TimeAfter(story) <= turn.at
    && match turn.what
       case Edits(edit) => MayEdit(WorldAfter(ladder, story).tables, edit) && NeverTouched(ladder, story, edit)
       case AsksToAssume(_, _, _, minted) => minted !in MintedIn(LiveRun(ladder, story))
       case IsShown(_, staffing) => AnswersStaffing(WorldAfter(ladder, story).tables, staffing)
       case Says(_, deed) => !deed.LoseTheChannel? && !deed.SeeMediaPath?
       case Otherwise(act) => NeedsNoMessage(act)
       case _ => true
  }

  ghost predicate Plausible(ladder: Ladder, story: Story) {
    story == [] || (Plausible(ladder, Earlier(story)) && MayPass(ladder, Earlier(story), Last(story)))
  }

  lemma {:induction false} OneTurnMore(ladder: Ladder, story: Story, turn: Turn)
    ensures WorldAfter(ladder, story + [turn]) == Passed(WorldAfter(ladder, story), turn)
    ensures Plausible(ladder, story + [turn]) <==> Plausible(ladder, story) && MayPass(ladder, story, turn)
    ensures Earlier(story + [turn]) == story && Last(story + [turn]) == turn
  {
    assert (story + [turn])[..|story|] == story;
  }

  lemma {:induction false} AnEditPasses(w: World, turn: Turn)
    requires turn.what.Edits?
    ensures Caused(w, turn).None? && Passed(w, turn) == w.(tables := Edited(w.tables, turn.what.edit))
  {
    hide Edited;
  }

  lemma {:induction false} ASignInPasses(w: World, turn: Turn)
    requires turn.what.KeepsSignIns?
    ensures Caused(w, turn).None?
    ensures WriteOf(w, turn) == Some(Written(ToSignIns(turn.what.happening), turn.what.clock))
    ensures Passed(w, turn) == w.(tables := w.tables.(
      signIns := Happened(w.tables.signIns, Moment(turn.what.happening, turn.what.clock))))
  {
  }

  // ---- The driver only ever makes legal runs --------------------------------------------------

  lemma {:induction false} WrittenDownKeepsTheStore(t: Tables, user: UserId, role: RoleId, deed: Deed)
    requires StoreOk(t)
    ensures StoreOk(WrittenDown(t, user, role, deed))
    ensures var after := WrittenDown(t, user, role, deed);
      after.loops == t.loops && after.cells == t.cells && after.roles == t.roles && after.users == t.users
  {
  }

  lemma {:induction false} ATurnKeepsTheStore(w: World, turn: Turn)
    requires StoreOk(w.tables) && (turn.what.Edits? ==> MayEdit(w.tables, turn.what.edit))
    ensures StoreOk(TablesAfter(w, turn))
  {
    hide StoreOk, Edited, Evaluate, WrittenDown;
    match turn.what
    case Edits(edit) => EveryEditKeepsTheStore(w.tables, edit);
    case KeepsSignIns(happening, clock) => SignInsAside(w.tables, Happened(w.tables.signIns, Moment(happening, clock)));
    case Says(session, deed) =>
      forall user, role ensures StoreOk(WrittenDown(w.tables, user, role, deed)) {
        WrittenDownKeepsTheStore(w.tables, user, role, deed);
      }
    case _ =>
  }

  lemma {:induction false} SignInsAside(t: Tables, signIns: map<SignInToken, SignIn>)
    requires StoreOk(t)
    ensures StoreOk(t.(signIns := signIns))
  {
  }

  /** A seat asked for names each remembered loop once, which is all the state authority demands
      of a caller besides the clock and fresh ids. */
  lemma {:induction false} ATurnMayFollow(ladder: Ladder, story: Story, turn: Turn)
    requires MayPass(ladder, story, turn) && StoreOk(WorldAfter(ladder, story).tables)
    requires Clock(LiveRun(ladder, story)) <= TimeAfter(story)
    ensures
      var caused := Caused(WorldAfter(ladder, story), turn);
      caused.Some? ==> caused.value.at == turn.at && MayFollow(LiveRun(ladder, story), caused.value)
  {
    hide WithinFor, AsStaffed, TheSubscriptionsOf, TheVolumesOf, AnswersStaffing, CellsOk, KeepsakesOk;
    var w := WorldAfter(ladder, story);
    var caused := Caused(w, turn);
    if caused.Some? && turn.what.AsksToAssume? {
      var a := caused.value.act.assuming;
      RemembersExactly(w.tables, a.occupant, a.role, LoopId(""));
    }
  }

  /** Every story the driver takes part in is a legal run of the state authority over a store in
      order, so every theorem about runs holds of it. */
  lemma {:induction false} EveryStoryIsALegalRun(ladder: Ladder, story: Story)
    requires Plausible(ladder, story)
    ensures StoreOk(WorldAfter(ladder, story).tables)
    ensures WorldAfter(ladder, story).live == After(ladder, LiveRun(ladder, story))
    ensures Legal(LiveRun(ladder, story)) && Clock(LiveRun(ladder, story)) <= TimeAfter(story)
    ensures Coherent(WorldAfter(ladder, story).live, MintedIn(LiveRun(ladder, story)))
  {
    if story != [] {
      hide StoreOk, Caused, TablesAfter, SocketsAfter, Step, Coherent, MayFollow, NeverTouched;
      var w, turn, run := WorldAfter(ladder, Earlier(story)), Last(story), LiveRun(ladder, Earlier(story));
      EveryStoryIsALegalRun(ladder, Earlier(story));
      ATurnKeepsTheStore(w, turn);
      ATurnMayFollow(ladder, Earlier(story), turn);
      var caused := Caused(w, turn);
      if caused.Some? { OneMore(ladder, run, caused.value); }
    } else {
      assert After(ladder, []) == Empty(ladder);
    }
    EveryRunIsCoherent(ladder, LiveRun(ladder, story));
  }

  lemma {:induction false} ATurnIsItsWrite(w: World, turn: Turn)
    ensures TablesAfter(w, turn)
         == match WriteOf(w, turn) case Some(made) => Wrote(w.tables, made) case None => w.tables
  {
    hide Edited, Happened, SubscriptionRemembered, SubscriptionForgotten, VolumeRemembered, Asked, TheRoleOf;
  }

  lemma {:induction false} AWriteMayBeMade(ladder: Ladder, story: Story, turn: Turn)
    requires MayPass(ladder, story, turn)
    ensures
      var made := WriteOf(WorldAfter(ladder, story), turn);
      made.Some? && made.value.what.Administers? ==> MayEdit(WorldAfter(ladder, story).tables, made.value.what.edit)
  {
    hide Asked, TheRoleOf, MayEdit, NeverTouched, AnswersStaffing;
  }

  /** Every story is also a legal run of writes, so every theorem about those holds of the tables it
      comes to. */
  lemma {:induction false} EveryStoryIsALegalRunOfWrites(ladder: Ladder, story: Story)
    requires Plausible(ladder, story)
    ensures WorldAfter(ladder, story).tables == LeftBy(StoreRun(ladder, story))
    ensures LegalWrites(StoreRun(ladder, story)) && NamesApart(WorldAfter(ladder, story).tables)
  {
    if story != [] {
      hide TablesAfter, Caused, SocketsAfter, WriteOf, Wrote, MayPass, MayEdit, NamesApart;
      var w, turn, run := WorldAfter(ladder, Earlier(story)), Last(story), StoreRun(ladder, Earlier(story));
      EveryStoryIsALegalRunOfWrites(ladder, Earlier(story));
      ATurnIsItsWrite(w, turn);
      AWriteMayBeMade(ladder, Earlier(story), turn);
      var made := WriteOf(w, turn);
      if made.Some? { OneMoreWrite(run, made.value); }
    }
    EveryRunKeepsTheStore(StoreRun(ladder, story));
  }

  // ---- What the driver hands the state authority ----------------------------------------------

  lemma {:induction false} AmongTheOrder(t: Tables, role: RoleId, rung: Permission, order: seq<LoopRow>)
    ensures forall r :: r in ReachAmong(t, role, rung, order) ==> r.heldOn in order
  {
    if order != [] { AmongTheOrder(t, role, rung, order[1..]); }
  }

  lemma {:induction false} ReachNamesEachLoopOnce(t: Tables, role: RoleId, rung: Permission, order: seq<LoopRow>)
    requires LoopsApart(order)
    ensures Documents.OnceEach(AsInReach(ReachAmong(t, role, rung, order)))
  {
    if order != [] {
      hide Enforced;
      ReachNamesEachLoopOnce(t, role, rung, order[1..]);
      AmongTheOrder(t, role, rung, order[1..]);
      var rest := ReachAmong(t, role, rung, order[1..]);
      forall i | 0 <= i < |rest| ensures rest[i].heldOn.id != order[0].id {
        assert rest[i] in rest && rest[i].heldOn in order[1..];
      }
      OneReachedFirst(Reachable(order[0], Enforced(t, role, order[0])), rest);
      assert [] + rest == rest;
    }
  }

  lemma {:induction false} OneReachedFirst(first: Reachable, rest: seq<Reachable>)
    requires Documents.OnceEach(AsInReach(rest))
    requires forall i :: 0 <= i < |rest| ==> rest[i].heldOn.id != first.heldOn.id
    ensures Documents.OnceEach(AsInReach([first] + rest))
  {
    hide AsInReach;
    var all, others := AsInReach([first] + rest), AsInReach(rest);
    forall j | 0 < j < |all| ensures all[j] == others[j - 1] && all[j].id != all[0].id {
      assert ([first] + rest)[j] == rest[j - 1];
    }
    forall i, j | 0 <= i < j < |all| ensures all[i].id != all[j].id {
      if i > 0 { assert others[i - 1].id != others[j - 1].id; }
    }
  }

  lemma {:induction false} StaffedOnceEach(t: Tables, staffing: seq<StaffedLoop>)
    requires LoopsApart(t.loops) && AnswersStaffing(t, staffing)
    ensures OnceStaffed(AsStaffed(staffing))
  {
    forall i, j | 0 <= i < j < |staffing| ensures staffing[i].heldOn.id != staffing[j].heldOn.id {
      assert staffing[i] in staffing && staffing[j] in staffing;
      assert StaffedExactly(t, staffing[i]) && StaffedExactly(t, staffing[j]);
      if staffing[i].heldOn.id == staffing[j].heldOn.id {
        OneRowToAnId(t.loops, staffing[i].heldOn, staffing[j].heldOn);
      }
    }
  }

  /** Every document a socket is ever sent is whole: what the driver hands in names each loop
      once, so nothing it sends can be torn. */
  lemma {:induction false} EveryDocumentSentIsWhole(ladder: Ladder, story: Story, turn: Turn)
    requires Plausible(ladder, story) && MayPass(ladder, story, turn) && turn.what.IsShown?
    requires Projects(WorldAfter(ladder, story), turn)
    ensures
      var w, caused := WorldAfter(ladder, story), Caused(WorldAfter(ladder, story), turn).value;
      var issued := Told(w.live, caused).issued;
      issued.Some? && Whole(issued.value.document)
  {
    hide Told, Step, After, Whole, ReachAmong, AsInReach, AsStaffed, AnswersStaffing, BaseOrder, CellsOk, KeepsakesOk;
    var w, caused := WorldAfter(ladder, story), Caused(WorldAfter(ladder, story), turn).value;
    EveryStoryIsALegalRun(ladder, story);
    BaseOrderApart(w.tables.loops);
    var role := TheRoleOf(w.live.sessions, turn.what.shown).value;
    ReachNamesEachLoopOnce(w.tables, role, Monitor, BaseOrder(w.tables.loops));
    StaffedOnceEach(w.tables, turn.what.staffing);
    NoDocumentIsTorn(ladder, LiveRun(ladder, story), caused);
  }
}
