/** A socket's conversation, acting in place on the two objects it is between (`Conversation` of
    `src/transport/signalling.rs`). Whatever it does is one story's turns, so every theorem about
    stories, about runs and about writes is a theorem about those objects. */
module Conversations {
  import opened Basics
  import opened Names
  import opened Deployment
  import opened Sessions
  import opened LiveState
  import opened Invariants
  import opened Tables
  import opened Grid
  import opened GridCoherence
  import opened SignIns
  import opened StoreRuns
  import opened Store
  import opened Authorisation
  import opened Signalling
  import opened Authority

  // ---- Messages ---------------------------------------------------------------------------

  datatype Incoming =
    | Hello
    | Heartbeat
    | Subscribe(to: LoopId)
    | Unsubscribe(from: LoopId)
    | Arm(armed: LoopId)
    | Disarm(disarmed: LoopId)
    | Mute(muted: LoopId)
    | Unmute(unmuted: LoopId)
    | SetVolume(setOn: LoopId, level: nat)
    | Key
    | Unkey
    | KeyPriority
    | UnkeyPriority
    | OffConsole
    | OnConsole
    | MediaPath(state: string)
    | BeaconsCounted(counted: seq<Total>)

  function Demanded(message: Incoming): Requirement {
    match message
    case Hello => SignedIn
    case Heartbeat => SignedIn
    case Arm(on) => OnTheGrid(Emit, on)
    case Disarm(on) => OnTheGrid(Emit, on)
    case Subscribe(on) => OnTheGrid(Monitor, on)
    case Unsubscribe(on) => OnTheGrid(Monitor, on)
    case _ => InASession
  }

  /** The demand made of a message is the one its deed makes. */
  lemma {:induction false} TheDoorIsTheDeeds(message: Incoming, wallClock: nat)
    ensures DeedOf(message, wallClock).Some? ==> Demanded(message) == RequirementOf(DeedOf(message, wallClock).value)
    ensures DeedOf(message, wallClock).Some? ==>
      !DeedOf(message, wallClock).value.LoseTheChannel? && !DeedOf(message, wallClock).value.SeeMediaPath?
  {
  }

  lemma {:induction false} NothingIsPublic(message: Incoming)
    ensures Demanded(message) != Public
  {
  }

  /** Whether a person did it, or the machine on its own account. */
  predicate WasADeliberateAct(message: Incoming) {
    !message.Heartbeat? && !message.MediaPath? && !message.BeaconsCounted?
  }

  /** What the message does to the session, where it does anything: a level that is no volume and a
      rung nobody has heard of do nothing. */
  function DeedOf(message: Incoming, wallClock: nat): Option<Deed> {
    match message
    case Hello => None
    case OnConsole => None
    case Heartbeat => Some(AnswerTheHeartbeat)
    case Subscribe(on) => Some(Deed.Subscribe(on))
    case Unsubscribe(on) => Some(Deed.Unsubscribe(on))
    case Arm(on) => Some(Deed.Arm(on))
    case Disarm(on) => Some(Deed.Disarm(on))
    case Mute(on) => Some(Deed.Mute(on))
    case Unmute(on) => Some(Deed.Unmute(on))
    case SetVolume(on, level) =>
      (match VolumePresented(level)
       case Some(volume) => Some(Deed.SetVolume(on, volume))
       case None => None)
    case Key => Some(Deed.Key)
    case Unkey => Some(Deed.Unkey)
    case KeyPriority => Some(Deed.KeyPriority(wallClock))
    case UnkeyPriority => Some(Deed.UnkeyPriority)
    case OffConsole => Some(StepAway)
    case MediaPath(state) =>
      (match PathPresented(state)
       case Some(path) => Some(SayMediaPath(path))
       case None => None)
    case BeaconsCounted(counted) => Some(CountBeacons(counted))
  }

  function PathPresented(state: string): Option<Sessions.MediaPath> {
    if state == "connected" then Some(Connected)
    else if state == "impaired" then Some(Impaired)
    else if state == "lost" then Some(Lost)
    else None
  }

  /** Whether the message is answered with the document. */
  predicate IsAnswered(message: Incoming, wallClock: nat) {
    !message.Heartbeat? && (message.Hello? || message.OnConsole? || DeedOf(message, wallClock).Some?)
  }

  /** The turns a permitted message is: the act noted on both clocks, what it does, and the document. */
  function Turns(message: Incoming, session: Option<SessionId>, signIn: SignInToken, wallClock: nat,
      staffing: seq<StaffedLoop>, clock: int, now: Instant): Story
  {
    Noting(message, session, signIn, clock, now)
    + Doings(message, session, wallClock, now)
    + Showing(message, session, wallClock, staffing, now)
  }

  /** Noted first, and then done and shown. */
  lemma {:induction false} NotedAndThen(before: Story, message: Incoming, session: Option<SessionId>,
      signIn: SignInToken, wallClock: nat, staffing: seq<StaffedLoop>, clock: int, now: Instant)
    ensures
      before + Turns(message, session, signIn, wallClock, staffing, clock, now)
        == (before + Noting(message, session, signIn, clock, now))
           + (Doings(message, session, wallClock, now) + Showing(message, session, wallClock, staffing, now))
  {
    hide Noting, Doings, Showing;
  }

  function Noting(message: Incoming, session: Option<SessionId>, signIn: SignInToken, clock: int, now: Instant): Story {
    if !WasADeliberateAct(message) then []
    else InTheChair(session, now) + [Turn(KeepsSignIns(SignIns.Act(signIn), clock), now)]
  }

  function InTheChair(session: Option<SessionId>, now: Instant): Story {
    if session.Some? then [Turn(Says(session.value, ActDeliberately), now)] else []
  }

  function Doings(message: Incoming, session: Option<SessionId>, wallClock: nat, now: Instant): Story {
    if session.None? || DeedOf(message, wallClock).None? then []
    else [Turn(Says(session.value, DeedOf(message, wallClock).value), now)]
  }

  function Showing(message: Incoming, session: Option<SessionId>, wallClock: nat, staffing: seq<StaffedLoop>,
      now: Instant): Story
  {
    if session.None? || !IsAnswered(message, wallClock) then [] else [Turn(IsShown(session.value, staffing), now)]
  }

  /** A sign-in whose session has ended starts its clock. */
  function BackInTheLobby(token: Option<SignInToken>, clock: int, now: Instant): Story {
    if token.Some? then [Turn(KeepsSignIns(ClockStarts(token.value), clock), now)] else []
  }

  /** Whose seat an assume took, where it took one. */
  function WhoseSeatWent(r: Option<Result<Assumed, Occupied>>): Option<SignInToken> {
    if r.Some? && r.value.Ok? && r.value.value.displaced.Some? then Some(r.value.value.displaced.value.signIn)
    else None
  }

  // ---- The two seams ------------------------------------------------------------------------

  function Listed<T>(o: Option<T>): seq<T> {
    if o.Some? then [o.value] else []
  }

  class Api {
    const state: StateAuthority
    const store: Transaction
    ghost var sockets: map<SessionId, SignInToken>
    ghost var story: Story

    ghost function Now(): World
      reads this, state, store
    {
      World(store.Rows(), state.Snapshot(), sockets)
    }

    /** The objects are where the story comes to, along its own run and its own writes. */
    ghost predicate AtItsStory()
      reads this, state, store
    {
      && Plausible(state.ladder, story)
      && Now() == WorldAfter(state.ladder, story)
      && state.history == LiveRun(state.ladder, story)
      && store.writes == StoreRun(state.ladder, story)
    }

    constructor StartedWith(ladder: Ladder)
      ensures AtItsStory() && fresh(state) && fresh(store) && story == [] && state.ladder == ladder
    {
      state := new StateAuthority.KeepingTimeBy(ladder);
      store := new Transaction.Empty();
      sockets, story := map[], [];
    }

    /** Whatever is proved of every legal run, of every legal run of writes and of every story holds
        of these objects. */
    lemma {:induction false} EveryTheoremHolds()
      requires AtItsStory()
      ensures state.LeftByARun() && store.LeftByWrites()
      ensures StoreOk(store.Rows()) && Coherent(state.Snapshot(), MintedIn(state.history))
    {
      EveryStoryIsALegalRun(state.ladder, story);
      EveryStoryIsALegalRunOfWrites(state.ladder, story);
    }

    /** Exactly one turn was taken since. */
    twostate predicate Took(turn: Turn)
      reads this, state, store
    {
      && story == old(story) + [turn]
      && Now() == Passed(old(Now()), turn)
      && state.history == old(state.history) + Listed(Caused(old(Now()), turn))
      && store.writes == old(store.writes) + Listed(WriteOf(old(Now()), turn))
    }

    twostate lemma {:induction false} StaysAtItsStory(turn: Turn)
      requires old(AtItsStory()) && Took(turn) && MayPass(state.ladder, old(story), turn)
      ensures AtItsStory() && TimeAfter(story) == turn.at
    {
      hide Passed, Caused, WriteOf, MayPass, Plausible;
      OneTurnMore(state.ladder, old(story), turn);
    }
  }

  // ---- One message, as a value --------------------------------------------------------------

  function Brought(signIn: SignInToken, session: Option<SessionId>): Presented {
    Presented(Some(signIn), None, session, None)
  }

  /** The sign-in a conversation was opened on names the person it was opened for, or nobody any more. */
  predicate IsTheirs(t: Tables, signIn: SignInToken, user: UserId) {
    signIn in t.signIns ==> t.signIns[signIn].user == user
  }

  /** What a permitted message writes down, as the conversation's own person in the role of its session. */
  function Remembered(sessions: seq<Session>, session: SessionId, user: UserId, deed: Deed): Option<Write> {
    match TheRoleOf(sessions, session)
    case Some(role) => Keeping(user, role, deed)
    case None => None
  }

  lemma {:induction false} ASaying(w: World, turn: Turn, signIn: SignInToken, user: UserId)
    requires turn.what.Says? && turn.what.session in w.sockets && w.sockets[turn.what.session] == signIn
    requires Asked(w, RequirementOf(turn.what.deed), turn.what.session).Permitted? && IsTheirs(w.tables, signIn, user)
    ensures
      var session, deed := turn.what.session, turn.what.deed;
      var made := Remembered(w.live.sessions, session, user, deed);
      && Caused(w, turn) == Some(Event(Do(session, deed), turn.at)) && SocketsAfter(w, turn) == w.sockets
      && WriteOf(w, turn) == (if made.Some? then Some(Written(made.value, turn.at)) else None)
  {
    hide Evaluate, TheRoleOf;
    var session := turn.what.session;
    ACallerIsSomebody(RequirementOf(turn.what.deed), InTheSeat(signIn, session), w.tables, w.live.sessions);
  }

  /** One turn over, from what it causes and what it writes. */
  lemma {:induction false} PassedInParts(w: World, turn: Turn)
    ensures
      var caused, made := Caused(w, turn), WriteOf(w, turn);
      Passed(w, turn) == World(
        if made.Some? then Wrote(w.tables, made.value) else w.tables,
        if caused.Some? then Step(w.live, caused.value) else w.live,
        SocketsAfter(w, turn))
  {
    hide Caused, WriteOf, TablesAfter, SocketsAfter, Step, Wrote;
    ATurnIsItsWrite(w, turn);
  }

  lemma {:induction false} ADeedLeavesTheRole(l: Live, session: SessionId, deed: Deed, now: Instant)
    ensures TheRoleOf(Step(l, Event(Do(session, deed), now)).sessions, session) == TheRoleOf(l.sessions, session)
  {
    if IsLive(l.sessions, session) {
      var k := At(l.sessions, session);
      DoneKeepsWho(l.sessions[k], l.ladder, deed, now);
      SamePlace(l.sessions, Step(l, Event(Do(session, deed), now)).sessions, session);
    }
  }

  lemma {:induction false} DoneKeepsWho(s: Session, ladder: Ladder, deed: Deed, now: Instant)
    ensures Done(s, ladder, deed, now).id == s.id && Done(s, ladder, deed, now).role == s.role
    ensures Done(s, ladder, deed, now).occupant == s.occupant
  {
    hide Without, WithoutBeacon, With, VolumeSet, NamesWithin, AllAgain, CountAll;
  }

  lemma {:induction false} SamePlace(a: seq<Session>, b: seq<Session>, id: SessionId)
    requires |a| == |b| && forall i :: 0 <= i < |a| ==> a[i].id == b[i].id
    ensures At(a, id) == At(b, id)
  {
    if a != [] && a[0].id != id { SamePlace(a[1..], b[1..], id); }
  }

  ghost predicate SamePeople(a: seq<Session>, b: seq<Session>) {
    && |a| == |b|
    && forall i :: 0 <= i < |a| ==> a[i].id == b[i].id && a[i].occupant == b[i].occupant && a[i].role == b[i].role
  }

  /** The same people in the same seats hold the same sessions. */
  lemma {:induction false} SamePeopleHoldTheSame(a: seq<Session>, b: seq<Session>, id: SessionId, user: UserId)
    requires SamePeople(a, b)
    ensures IsHeldBy(a, id, user) <==> IsHeldBy(b, id, user)
    ensures TheRoleOf(a, id) == TheRoleOf(b, id)
  {
    SamePlace(a, b, id);
    assert forall i :: 0 <= i < |a| ==> a[i] in a && b[i] in b;
  }

  /** A deliberate act noted moves nobody's permission, so what was checked before it stands after. */
  lemma {:induction false} NotingMovesNoPermission(
    r: Requirement, presented: Presented, t: Tables, signIn: SignInToken, at: int, a: seq<Session>, b: seq<Session>)
    requires SamePeople(a, b) && presented.actingRole.None?
    ensures Evaluate(r, presented, t.(signIns := Noted(t.signIns, signIn, at)), b) == Evaluate(r, presented, t, a)
  {
    hide SamePeople, TheRoleOf, IsHeldBy, HeldBy;
    var u := t.(signIns := Noted(t.signIns, signIn, at));
    assert forall role, on :: HeldBy(u, role, on) == HeldBy(t, role, on) by { SignInsHoldNothing(t, u); }
    if presented.session.Some? {
      forall user
        ensures IsHeldBy(a, presented.session.value, user) <==> IsHeldBy(b, presented.session.value, user)
        ensures TheRoleOf(a, presented.session.value) == TheRoleOf(b, presented.session.value)
      {
        SamePeopleHoldTheSame(a, b, presented.session.value, user);
      }
      assert TheRoleOf(a, presented.session.value) == TheRoleOf(b, presented.session.value) by {
        SamePeopleHoldTheSame(a, b, presented.session.value, UserId(""));
      }
    }
  }

  lemma {:induction false} SignInsHoldNothing(t: Tables, u: Tables)
    requires u.loops == t.loops && u.cells == t.cells
    ensures forall role, on :: HeldBy(u, role, on) == HeldBy(t, role, on)
  {
  }

  lemma {:induction false} InTheSameSeats(l: Live, session: SessionId, deed: Deed, now: Instant)
    ensures SamePeople(l.sessions, Step(l, Event(Do(session, deed), now)).sessions)
  {
    hide Done;
    if IsLive(l.sessions, session) { DoneKeepsWho(LiveState.Held(l.sessions, session), l.ladder, deed, now); }
  }

  lemma {:induction false} SameQuery(t: Tables, u: Tables, rows: seq<MarkedPair>)
    requires IsTheStaffingQuery(t, rows) && u.loops == t.loops && u.cells == t.cells
    ensures IsTheStaffingQuery(u, rows)
  {
  }

  lemma {:induction false} AShowing(w: World, turn: Turn)
    requires turn.what.IsShown? && turn.what.shown in w.sockets
    ensures
      var shown, role := turn.what.shown, TheRoleOf(w.live.sessions, turn.what.shown);
      var there := role.Some? && IsRole(w.tables.roles, role.value);
      && Caused(w, turn) == Some(Event(
           if there then Project(shown, WithinFor(w.tables, role.value), AsStaffed(turn.what.staffing))
           else WhyItEnded(shown), turn.at))
      && SocketsAfter(w, turn) == (if there then w.sockets else w.sockets - {shown})
      && WriteOf(w, turn).None? && (Projects(w, turn) <==> there)
  {
    hide WithinFor, AsStaffed, TheRoleOf, IsRole;
  }

  lemma {:induction false} AnAsking(w: World, turn: Turn, user: UserId)
    requires turn.what.AsksToAssume? && IsTheirs(w.tables, turn.what.token, user)
    requires Evaluate(SignedIn, FromTheLobby(turn.what.token), w.tables, w.live.sessions).Permitted?
    ensures
      var row := ARole(w.tables.roles, turn.what.role);
      var asks := row.Some? && turn.what.eligible;
      && Caused(w, turn) == (if !asks then None else Some(Event(
           Assume(SeatAskedFor(w.tables, turn.what.token, user, row.value), turn.what.minted), turn.at)))
      && SocketsAfter(w, turn) ==
           (if asks && !IsFull(w.live.sessions, SeatAskedFor(w.tables, turn.what.token, user, row.value))
            then w.sockets[turn.what.minted := turn.what.token] else w.sockets)
      && WriteOf(w, turn).None?
  {
    hide SeatAskedFor, ARole, IsFull;
  }

  lemma {:induction false} HowASeatIsAnswered(l: Live, a: Assuming, minted: SessionId, now: Instant)
    ensures
      var e := Event(LiveState.Assume(a, minted), now);
      && Told(l, e).Seat? && (Told(l, e).assumed.Ok? <==> !IsFull(l.sessions, a))
      && (Told(l, e).assumed.Ok? ==> Told(l, e).assumed.value.session == minted)
      && (Told(l, e).assumed.Err? ==> Step(l, e) == l)
  {
    hide Seated, Displaced, IsFull;
  }

  lemma {:induction false} AGivingUp(w: World, turn: Turn)
    requires turn.what.AsksToRelinquish? && Asked(w, InASession, turn.what.left).Permitted?
    ensures Caused(w, turn) == Some(Event(EndedByItsOwnHolder(turn.what.left), turn.at))
    ensures SocketsAfter(w, turn) == w.sockets - {turn.what.left} && WriteOf(w, turn).None?
  {
    hide Asked;
  }

  lemma {:induction false} AChannelGoing(w: World, turn: Turn)
    requires turn.what.ChannelGoes? && turn.what.silent in w.sockets
    ensures Caused(w, turn) == Some(Event(Do(turn.what.silent, LoseTheChannel), turn.at))
    ensures SocketsAfter(w, turn) == w.sockets - {turn.what.silent} && WriteOf(w, turn).None?
  {
  }

  /** Whatever a caller on a sign-in is permitted, they are signed in. */
  lemma {:induction false} SignedInAtLeast(r: Requirement, presented: Presented, t: Tables, sessions: seq<Session>)
    requires r != Public && Evaluate(r, presented, t, sessions).Permitted?
    ensures Evaluate(SignedIn, presented, t, sessions).Permitted?
  {
    ACallerIsSomebody(r, presented, t, sessions);
  }

  lemma {:induction false} SittingThere(t: Tables, sessions: seq<Session>, session: SessionId, signIn: SignInToken)
    requires Evaluate(InASession, Brought(signIn, Some(session)), t, sessions).Permitted?
    ensures IsLive(sessions, session)
  {
    var s :| s in sessions && s.id == session;
    var k :| 0 <= k < |sessions| && sessions[k] == s;
  }

  // ---- The conversation ----------------------------------------------------------------------

  class Conversation {
    const api: Api
    const user: UserId
    const signIn: SignInToken
    var session: Option<SessionId>

    ghost predicate Valid()
      reads this, api, api.state, api.store
    {
      && api.AtItsStory()
      && IsTheirs(api.store.Rows(), signIn, user)
      && (session.Some? ==> session.value in api.sockets && api.sockets[session.value] == signIn)
    }

    constructor Opened(api: Api, user: UserId, signIn: SignInToken)
      requires api.AtItsStory() && IsTheirs(api.store.Rows(), signIn, user)
      ensures Valid() && this.api == api && this.user == user && this.signIn == signIn && session == None
    {
      this.api, this.user, this.signIn, session := api, user, signIn, None;
    }

    /** The evaluator asked with what this socket holds, against both objects at this moment. */
    method Permitted(requirement: Requirement) returns (ok: bool)
      ensures ok == Evaluate(requirement, Brought(signIn, session), api.store.Rows(), api.state.sessions).Permitted?
    {
      hide Evaluate;
      ok := Evaluate(requirement, Brought(signIn, session), api.store.Rows(), api.state.sessions).Permitted?;
    }

    /** Each deed is its own operation of the state authority. */
    method Lands(id: SessionId, deed: Deed, now: Instant) returns (took: bool)
      requires !deed.LoseTheChannel? && !deed.SeeMediaPath?
      modifies api.state
      ensures api.state.Advanced(Event(Do(id, deed), now))
      ensures IsRemembered(deed) ==> took == old(IsLive(api.state.sessions, id))
    {
      hide Step, Done, HandedBack;
      took := false;
      match deed
      case Subscribe(to) => took := api.state.Subscribe(id, to, now);
      case Unsubscribe(from) => took := api.state.Unsubscribe(id, from, now);
      case SetVolume(on, volume) => took := api.state.SetTheVolume(id, on, volume, now);
      case Mute(on) => took := api.state.Mute(id, on, now);
      case Unmute(on) => took := api.state.Unmute(id, on, now);
      case Arm(on) => took := api.state.Arm(id, on, now);
      case Disarm(on) => took := api.state.Disarm(id, on, now);
      case StepAway => took := api.state.OffConsole(id, now);
      case Key => took := api.state.TheClientKeys(id, now);
      case Unkey => took := api.state.TheClientUnkeys(id, now);
      case KeyPriority(wallClock) => took := api.state.TheClientKeysPriority(id, wallClock, now);
      case UnkeyPriority => var pressed := api.state.TheClientUnkeysPriority(id, now);
      case ActDeliberately => api.state.ADeliberateAct(id, now);
      case AnswerTheHeartbeat => api.state.TheClientIsThere(id, now);
      case CountBeacons(totals) => api.state.TheClientCounted(id, totals, now);
      case SayMediaPath(path) => api.state.TheClientSays(id, path, now);
    }

    /** Remembered against the role the session is bound to, and by this conversation's person. */
    method Remember(id: SessionId, deed: Deed, now: Instant)
      modifies api.store`subscriptions, api.store`volumes, api.store`writes
      ensures
        var made := Remembered(api.state.sessions, id, user, deed);
        if made.Some? then api.store.Made(Written(made.value, now)) else unchanged(api.store)
    {
      hide Wrote;
      var role := TheRoleOf(api.state.sessions, id);
      if role.None? { return; }
      match deed
      case Subscribe(on) => api.store.RememberASubscription(Keepsake(user, role.value, on), now);
      case Unsubscribe(on) => api.store.ForgetASubscription(Keepsake(user, role.value, on), now);
      case SetVolume(on, volume) => api.store.RememberAVolume(Keepsake(user, role.value, on), volume, now);
      case _ =>
    }

    /** One deed of a message already checked: done live, and then written where it took. */
    method Does(deed: Deed, now: Instant)
      requires Valid() && session.Some? && TimeAfter(api.story) <= now
      requires !deed.LoseTheChannel? && !deed.SeeMediaPath?
      requires Evaluate(RequirementOf(deed), Brought(signIn, session), api.store.Rows(), api.state.sessions).Permitted?
      modifies api, api.state, api.store`subscriptions, api.store`volumes, api.store`writes
      ensures Valid() && TimeAfter(api.story) == now
      ensures api.story == old(api.story) + [Turn(Says(session.value, deed), now)]
      ensures api.state.Snapshot() == Step(old(api.state.Snapshot()), Event(Do(session.value, deed), now))
      ensures !IsRemembered(deed) ==> api.store.Rows() == old(api.store.Rows())
    {
      hide Evaluate, Step, Wrote, Passed, Plausible, WorldAfter, LiveRun, StoreRun, Caused, WriteOf;
      ghost var turn := Turn(Says(session.value, deed), now);
      ASaying(api.Now(), turn, signIn, user);
      PassedInParts(api.Now(), turn);
      ADeedLeavesTheRole(api.state.Snapshot(), session.value, deed, now);
      var took := Lands(session.value, deed, now);
      if took { Remember(session.value, deed, now); }
      api.story := api.story + [turn];
      assert api.state.history == old(api.state.history) + Listed(Caused(old(api.Now()), turn));
      assert api.store.writes == old(api.store.writes) + Listed(WriteOf(old(api.Now()), turn));
      assert api.state.Snapshot() == Passed(old(api.Now()), turn).live;
      assert api.store.Rows() == Passed(old(api.Now()), turn).tables;
      assert api.Now() == Passed(old(api.Now()), turn);
      api.StaysAtItsStory(turn);
    }

    method NoteOnTheSignIn(clock: int, now: Instant)
      requires Valid() && TimeAfter(api.story) <= now
      modifies api`story, api.store`signIns, api.store`writes
      ensures Valid() && TimeAfter(api.story) == now
      ensures api.story == old(api.story) + [Turn(KeepsSignIns(SignIns.Act(signIn), clock), now)]
      ensures api.store.Rows() == old(api.store.Rows().(signIns := Noted(api.store.signIns, signIn, clock)))
    {
      hide Passed, Plausible, WorldAfter, LiveRun, StoreRun, Caused, WriteOf;
      ghost var turn := Turn(KeepsSignIns(SignIns.Act(signIn), clock), now);
      ASignInPasses(api.Now(), turn);
      api.store.NoteADeliberateAct(signIn, clock);
      api.story := api.story + [turn];
      api.StaysAtItsStory(turn);
    }

    /** The act noted on both clocks: the session's own, where there is one, and the sign-in's. */
    method NoteADeliberateAct(clock: int, now: Instant)
      requires Valid() && TimeAfter(api.story) <= now
      requires Evaluate(SignedIn, Brought(signIn, session), api.store.Rows(), api.state.sessions).Permitted?
      modifies api, api.state, api.store`subscriptions, api.store`volumes, api.store`signIns, api.store`writes
      ensures Valid() && TimeAfter(api.story) == now
      ensures
        api.story
          == old(api.story) + (InTheChair(session, now) + [Turn(KeepsSignIns(SignIns.Act(signIn), clock), now)])
      ensures forall r ::
        Evaluate(r, Brought(signIn, session), api.store.Rows(), api.state.sessions)
          == old(Evaluate(r, Brought(signIn, session), api.store.Rows(), api.state.sessions))
    {
      hide Evaluate, Step, Plausible, WorldAfter, LiveRun, StoreRun, Api.AtItsStory, IsTheirs, Noted;
      ghost var rows, seats := api.store.Rows(), api.state.sessions;
      if session.Some? {
        Does(ActDeliberately, now);
        InTheSameSeats(old(api.state.Snapshot()), session.value, ActDeliberately, now);
      }
      assert api.store.Rows() == rows;
      NoteOnTheSignIn(clock, now);
      forall r
        ensures Evaluate(r, Brought(signIn, session), api.store.Rows(), api.state.sessions)
             == Evaluate(r, Brought(signIn, session), rows, seats)
      {
        NotingMovesNoPermission(r, Brought(signIn, session), rows, signIn, clock, seats, api.state.sessions);
      }
    }

    /** The reason is taken from where the ending left it, and no socket holds the session any more. */
    method TheSessionEnded(now: Instant) returns (why: Option<Ended>)
      requires session.Some?
      modifies this`session, api`sockets, api.state
      ensures session == None && api.sockets == old(api.sockets) - {old(session).value}
      ensures api.state.Advanced(Event(Act.WhyItEnded(old(session).value), now))
    {
      why := api.state.WhyItEnded(session.value, now);
      api.sockets := api.sockets - {session.value};
      session := None;
    }

    /** The document, within the reach and with the staffing read afresh; or the reason there is none. */
    method Presence(rows: seq<MarkedPair>, now: Instant) returns (issued: Option<Issued>, staffing: seq<StaffedLoop>)
      requires Valid() && session.Some? && TimeAfter(api.story) <= now
      requires IsTheStaffingQuery(api.store.Rows(), rows)
      modifies this`session, api, api.state
      ensures Valid() && TimeAfter(api.story) == now && AnswersStaffing(api.store.Rows(), staffing)
      ensures api.story == old(api.story) + [Turn(IsShown(old(session).value, staffing), now)]
      ensures
        session == if Projects(old(api.Now()), Turn(IsShown(old(session).value, staffing), now)) then old(session)
                   else None
    {
      hide Step, Told, Passed, Plausible, WorldAfter, LiveRun, StoreRun, Caused, WriteOf, Projects, TheRoleOf;
      hide WithinFor, AsStaffed, AnswersStaffing, StoreOk, ARole;
      api.EveryTheoremHolds();
      staffing := api.store.TheStaffingRoles(rows);
      issued := None;
      ghost var turn := Turn(IsShown(session.value, staffing), now);
      AShowing(api.Now(), turn);
      PassedInParts(api.Now(), turn);
      var role := TheRoleOf(api.state.sessions, session.value);
      if role.None? || ARole(api.store.roles, role.value).None? {
        var why := TheSessionEnded(now);
      } else {
        var within := WithinFor(api.store.Rows(), role.value);
        issued := api.state.PresenceFor(session.value, within, AsStaffed(staffing), now);
      }
      api.story := api.story + [turn];
      api.StaysAtItsStory(turn);
    }

    /** An ended session's sign-in is in the lobby from now on. */
    method StartTheClock(token: SignInToken, clock: int, now: Instant)
      requires Valid() && TimeAfter(api.story) <= now
      modifies api`story, api.store`signIns, api.store`writes
      ensures Valid() && TimeAfter(api.story) == now
      ensures api.story == old(api.story) + BackInTheLobby(Some(token), clock, now)
    {
      hide Passed, Plausible, WorldAfter, LiveRun, StoreRun, Caused, WriteOf;
      ghost var turn := Turn(KeepsSignIns(ClockStarts(token), clock), now);
      ASignInPasses(api.Now(), turn);
      api.store.TheClockStartsNow(token, clock);
      api.story := api.story + [turn];
      api.StaysAtItsStory(turn);
    }

    /** Take a role up: the row, the set and the levels read together, and the seat asked for. Whoever
        it displaces is back in the lobby. */
    method Assume(role: RoleId, eligible: bool, minted: SessionId, clock: int, now: Instant)
      returns (r: Option<Result<Assumed, Occupied>>)
      requires Valid() && TimeAfter(api.story) <= now && minted !in MintedIn(api.state.history)
      requires Evaluate(SignedIn, Brought(signIn, session), api.store.Rows(), api.state.sessions).Permitted?
      modifies this`session, api, api.state, api.store`signIns, api.store`writes
      ensures Valid() && TimeAfter(api.story) == now
      ensures
        api.story
          == old(api.story) + [Turn(AsksToAssume(signIn, role, eligible, minted), now)]
             + BackInTheLobby(WhoseSeatWent(r), clock, now)
      ensures r.None? <==> !eligible || !IsRole(api.store.roles, role)
      ensures session == if r.Some? && r.value.Ok? then Some(minted) else old(session)
      ensures r.Some? && r.value.Err? ==> api.state.Snapshot() == old(api.state.Snapshot())
    {
      hide Passed, Plausible, WorldAfter, LiveRun, StoreRun, Caused, WriteOf, SeatAskedFor, IsFull, ARole, Step, Told;
      ghost var turn := Turn(AsksToAssume(signIn, role, eligible, minted), now);
      AnAsking(api.Now(), turn, user);
      PassedInParts(api.Now(), turn);
      var row := ARole(api.store.roles, role);
      if row.None? || !eligible {
        r := None;
      } else {
        var seat := SeatAskedFor(api.store.Rows(), signIn, user, row.value);
        HowASeatIsAnswered(api.state.Snapshot(), seat, minted, now);
        var assumed := api.state.Assume(seat, minted, now);
        if assumed.Ok? {
          session := Some(assumed.value.session);
          api.sockets := api.sockets[minted := signIn];
        }
        r := Some(assumed);
      }
      api.story := api.story + [turn];
      api.StaysAtItsStory(turn);
      if WhoseSeatWent(r).Some? { StartTheClock(WhoseSeatWent(r).value, clock, now); }
    }

    /** Give the role up, and be back in the lobby. */
    method Relinquish(clock: int, now: Instant) returns (ended: Option<Relinquished>)
      requires Valid() && session.Some? && TimeAfter(api.story) <= now
      requires Evaluate(InASession, Brought(signIn, session), api.store.Rows(), api.state.sessions).Permitted?
      modifies this`session, api, api.state, api.store`signIns, api.store`writes
      ensures Valid() && TimeAfter(api.story) == now && session == None && ended.Some?
      ensures
        api.story
          == old(api.story) + [Turn(AsksToRelinquish(old(session).value), now)]
             + BackInTheLobby(Some(ended.value.signIn), clock, now)
      ensures ended.value.session == old(session).value && ended.value.why == ByRelinquishing
    {
      hide Evaluate, Passed, Plausible, WorldAfter, LiveRun, StoreRun, Caused, WriteOf;
      ghost var turn := Turn(AsksToRelinquish(session.value), now);
      AGivingUp(api.Now(), turn);
      PassedInParts(api.Now(), turn);
      SittingThere(api.store.Rows(), api.state.sessions, session.value, signIn);
      ended := api.state.EndedByItsOwnHolder(session.value, now);
      api.sockets := api.sockets - {session.value};
      session := None;
      api.story := api.story + [turn];
      api.StaysAtItsStory(turn);
      StartTheClock(ended.value.signIn, clock, now);
    }

    /** The socket has gone: its session's channel with it, and any press held on it handed back. */
    method TheChannelWent(now: Instant) returns (pressed: Option<Pressed>)
      requires Valid() && TimeAfter(api.story) <= now
      modifies this`session, api, api.state
      ensures Valid() && session == None
      ensures api.story
           == old(api.story) + if old(session).Some? then [Turn(ChannelGoes(old(session).value), now)] else []
    {
      hide Step, Told, Passed, Plausible, WorldAfter, LiveRun, StoreRun, Caused, WriteOf;
      if session.None? { return None; }
      ghost var turn := Turn(ChannelGoes(session.value), now);
      AChannelGoing(api.Now(), turn);
      PassedInParts(api.Now(), turn);
      pressed := api.state.TheChannelIsGone(session.value, now);
      api.sockets := api.sockets - {session.value};
      session := None;
      api.story := api.story + [turn];
      api.StaysAtItsStory(turn);
    }

    /** What a permitted message does, and the document it is answered with. */
    method CarriesOut(message: Incoming, wallClock: nat, rows: seq<MarkedPair>, now: Instant)
      returns (staffing: seq<StaffedLoop>)
      requires Valid() && TimeAfter(api.story) <= now && IsTheStaffingQuery(api.store.Rows(), rows)
      requires Evaluate(Demanded(message), Brought(signIn, session), api.store.Rows(), api.state.sessions).Permitted?
      modifies this`session, api, api.state, api.store`subscriptions, api.store`volumes, api.store`writes
      ensures Valid()
      ensures api.story == old(api.story)
                + (Doings(message, old(session), wallClock, now)
                   + Showing(message, old(session), wallClock, staffing, now))
    {
      hide Evaluate, Plausible, WorldAfter, LiveRun, StoreRun, Passed, IsTheStaffingQuery, AnswersStaffing, Step;
      hide Api.AtItsStory, IsTheirs, Demanded, RequirementOf, DeedOf, IsAnswered, Projects;
      staffing := [];
      if session.None? { return; }
      ghost var before := api.store.Rows();
      var deed := DeedOf(message, wallClock);
      if deed.Some? {
        TheDoorIsTheDeeds(message, wallClock);
        Does(deed.value, now);
      }
      if IsAnswered(message, wallClock) {
        SameQuery(before, api.store.Rows(), rows);
        var issued;
        issued, staffing := Presence(rows, now);
      }
    }

    /** Answer one message. Refused, it changes nothing anywhere; permitted, it is exactly its turns,
        and what was checked at the door still holds when they are taken. */
    method Received(message: Incoming, wallClock: nat, rows: seq<MarkedPair>, clock: int, now: Instant)
      returns (permitted: bool, staffing: seq<StaffedLoop>)
      requires Valid() && TimeAfter(api.story) <= now && IsTheStaffingQuery(api.store.Rows(), rows)
      modifies this`session, api, api.state
      modifies api.store`subscriptions, api.store`volumes, api.store`signIns, api.store`writes
      ensures Valid()
      ensures permitted == old(
        Evaluate(Demanded(message), Brought(signIn, session), api.store.Rows(), api.state.sessions).Permitted?)
      ensures !permitted ==> api.story == old(api.story) && api.Now() == old(api.Now()) && session == old(session)
      ensures permitted ==>
        api.story == old(api.story) + Turns(message, old(session), signIn, wallClock, staffing, clock, now)
    {
      hide Evaluate, Plausible, WorldAfter, LiveRun, StoreRun, Passed, IsTheStaffingQuery, Doings, Showing, Step;
      hide Demanded, WasADeliberateAct, Turns, InTheChair, IsTheirs, Api.AtItsStory;
      staffing := [];
      ghost var before := api.store.Rows();
      permitted := Permitted(Demanded(message));
      if !permitted { return; }
      NothingIsPublic(message);
      SignedInAtLeast(Demanded(message), Brought(signIn, session), api.store.Rows(), api.state.sessions);
      if WasADeliberateAct(message) { NoteADeliberateAct(clock, now); }
      SameQuery(before, api.store.Rows(), rows);
      assert api.story == old(api.story) + Noting(message, session, signIn, clock, now);
      staffing := CarriesOut(message, wallClock, rows, now);
      NotedAndThen(old(api.story), message, old(session), signIn, wallClock, staffing, clock, now);
    }
  }
}
