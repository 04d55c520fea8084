/** One requirement evaluated against a caller and answered permitted or refused
    (`src/authorisation.rs`). A caller brings credentials only: who they
    are and where they sit is looked up afresh in the tables and the live sessions. */
module Authorisation {
  import opened Basics
  import opened Names
  import opened Sessions
  import opened LiveState
  import opened Invariants
  import opened Runs
  import opened Tables
  import opened Grid

  datatype Requirement =
    | Public
    | SignedIn
    | InASession
    | SystemAdministration
    | ByServiceToken
    | OnTheGrid(rung: Permission, on: LoopId)

  datatype Presented = Presented(
    signIn: Option<SignInToken>, serviceToken: Option<string>, session: Option<SessionId>,
    actingRole: Option<RoleId>)
  {
    predicate MixesCredentials() {
      signIn.Some? && serviceToken.Some?
    }
  }

  datatype Caller = Nobody | Somebody(id: UserId, signIn: SignInToken)

  datatype Outcome = Permitted(caller: Caller) | Refused

  /** Whose sign-in it is, where that user still exists. */
  function WhoeverHolds(t: Tables, token: SignInToken): Option<UserId> {
    if token in t.signIns && t.signIns[token].user in t.users then Some(t.signIns[token].user) else None
  }

  function WhereTheUser(t: Tables, presented: Option<SignInToken>, holds: User -> bool): Outcome {
    match presented
    case None => Refused
    case Some(token) =>
      match WhoeverHolds(t, token)
      case Some(id) => if holds(t.users[id]) then Permitted(Somebody(id, token)) else Refused
      case None => Refused
  }

  /** The role handed over, or the one the session presented is bound to where it is this
      user's. */
  function ActingRole(sessions: seq<Session>, presented: Presented, user: UserId): Option<RoleId> {
    if presented.actingRole.Some? then presented.actingRole
    else if presented.session.Some? && IsHeldBy(sessions, presented.session.value, user)
    then TheRoleOf(sessions, presented.session.value)
    else None
  }

  function CarriesOn(rung: Permission, on: LoopId, presented: Presented, t: Tables, sessions: seq<Session>): Outcome {
    match presented.signIn
    case None => Refused
    case Some(token) =>
      match WhoeverHolds(t, token)
      case None => Refused
      case Some(user) =>
        match ActingRole(sessions, presented, user)
        case None => Refused
        case Some(role) => if HeldBy(t, role, on).Carries(rung) then Permitted(Somebody(user, token)) else Refused
  }

  function Evaluate(requirement: Requirement, presented: Presented, t: Tables, sessions: seq<Session>): Outcome {
    if presented.MixesCredentials() then Refused
    else
      match requirement
      case Public => Permitted(Nobody)
      case SignedIn => WhereTheUser(t, presented.signIn, _ => true)
      case SystemAdministration =>
        WhereTheUser(t, presented.signIn, (user: User) => user.isSystemAdministrator && !user.isLocked)
      case InASession =>
        if presented.session.None? then Refused
        else
          var outcome := WhereTheUser(t, presented.signIn, _ => true);
          if && outcome.Permitted? && outcome.caller.Somebody?
             && IsHeldBy(sessions, presented.session.value, outcome.caller.id)
          then outcome else Refused
      case OnTheGrid(rung, on) => CarriesOn(rung, on, presented, t, sessions)
      case ByServiceToken => Refused
  }

  // ---- Who is ever permitted ----------------------------------------------------------------

  /** Nobody is permitted anything but a public call, and only on one credential, unless a
      sign-in they presented is in the store and names a user who is. */
  lemma {:induction false} ACallerIsSomebody(requirement: Requirement, presented: Presented, t: Tables,
      sessions: seq<Session>)
    requires Evaluate(requirement, presented, t, sessions).Permitted?
    ensures presented.signIn.None? || presented.serviceToken.None?
    ensures
      match Evaluate(requirement, presented, t, sessions).caller
      case Nobody => requirement == Public
      case Somebody(id, signIn) =>
        requirement != Public && presented.signIn == Some(signIn)
        && signIn in t.signIns && t.signIns[signIn].user == id && id in t.users
  {
  }

  /** The session is live, it is the one presented, and whoever presented it is in its seat. */
  ghost predicate Occupying(s: Session, sessions: seq<Session>, presented: Presented, t: Tables) {
    && s in sessions
    && presented.session == Some(s.id)
    && presented.signIn.Some? && WhoeverHolds(t, presented.signIn.value) == Some(s.occupant)
  }

  lemma {:induction false} HeldIsTheOne(sessions: seq<Session>, s: Session, id: SessionId, user: UserId)
    requires SeatsApart(sessions) && s in sessions && s.id == id
    ensures IsHeldBy(sessions, id, user) <==> s.occupant == user
    ensures TheRoleOf(sessions, id) == Some(s.role)
  {
    FoundAmong(sessions, s);
    if IsHeldBy(sessions, id, user) {
      var other :| other in sessions && other.id == id && other.occupant == user;
      FoundAmong(sessions, other);
    }
  }

  /** A user's call on a loop is permitted exactly when they are sitting in a live session whose
      own role holds the rung there: never the person's other roles, and never somebody else's
      session. */
  lemma {:induction false} OnlyTheSeatSpeaks(rung: Permission, on: LoopId, presented: Presented, t: Tables,
      sessions: seq<Session>)
    requires SeatsApart(sessions) && presented.actingRole.None?
    ensures Evaluate(OnTheGrid(rung, on), presented, t, sessions).Permitted? <==>
      && presented.serviceToken.None?
      && exists s :: Occupying(s, sessions, presented, t) && HeldBy(t, s.role, on).Carries(rung)
    ensures Evaluate(InASession, presented, t, sessions).Permitted? <==>
      && presented.serviceToken.None?
      && exists s :: Occupying(s, sessions, presented, t)
  {
    hide HeldBy, TheRoleOf;
    if presented.session.Some? && presented.signIn.Some? && WhoeverHolds(t, presented.signIn.value).Some? {
      var id, user := presented.session.value, WhoeverHolds(t, presented.signIn.value).value;
      if IsHeldBy(sessions, id, user) {
        var s :| s in sessions && s.id == id && s.occupant == user;
        HeldIsTheOne(sessions, s, id, user);
        assert Occupying(s, sessions, presented, t);
      }
      forall s | Occupying(s, sessions, presented, t)
        ensures IsHeldBy(sessions, id, user) && TheRoleOf(sessions, id) == Some(s.role)
      {
        HeldIsTheOne(sessions, s, id, user);
      }
    }
  }

  /** Permitted on one rung is permitted on every rung below it, as the same caller. */
  lemma {:induction false} TheRungBelowIsPermittedToo(
    rung: Permission, lower: Permission, on: LoopId, presented: Presented, t: Tables, sessions: seq<Session>)
    requires rung.Carries(lower)
    requires Evaluate(OnTheGrid(rung, on), presented, t, sessions).Permitted?
    ensures Evaluate(OnTheGrid(lower, on), presented, t, sessions)
         == Evaluate(OnTheGrid(rung, on), presented, t, sessions)
  {
  }

  /** A loop nobody has ruled on, or that is not there, refuses every rung that asks anything. */
  lemma {:induction false} AnUnruledLoopRefusesEverybody(rung: Permission, on: LoopId, presented: Presented,
      t: Tables, sessions: seq<Session>)
    requires !IsLoop(t.loops, on) || ALoop(t.loops, on).value.isUnreviewed
    ensures rung != Nothing ==> Evaluate(OnTheGrid(rung, on), presented, t, sessions) == Refused
  {
  }
}
