/** Sign-ins and the clock that runs on them in the lobby (`src/configuration/sign_ins.rs`,
    `src/lifetimes.rs`): a stamp kept to the minute and a sweep with exceptions. Times are
    milliseconds of the store's clock. */
module SignIns {
  import opened Basics
  import opened Names
  import opened Sessions
  import opened LiveState
  import opened Tables

  const TO_THE_MINUTE: int := 60_000
  const THE_WINDOW: int := 24 * 60 * 60 * 1000

  type Held = map<SignInToken, SignIn>

  function Opened(held: Held, token: SignInToken, user: UserId, now: int): Held {
    held[token := SignIn(user, now, now)]
  }

  /** The stamp moves only once it has fallen more than a minute behind. */
  function Noted(held: Held, token: SignInToken, now: int): Held {
    if token in held && held[token].lastActive < now - TO_THE_MINUTE
    then held[token := held[token].(lastActive := now)]
    else held
  }

  function EndedEvery(held: Held, user: UserId): Held {
    map token | token in held && held[token].user != user :: held[token]
  }

  predicate IsAbandoned(held: Held, token: SignInToken, idleFor: int, spared: seq<SignInToken>, now: int) {
    token in held && held[token].lastActive <= now - idleFor && token !in spared
  }

  function Abandoned(held: Held, idleFor: int, spared: seq<SignInToken>, now: int): set<SignInToken> {
    set token | token in held && IsAbandoned(held, token, idleFor, spared, now)
  }

  // ---- Any run ----------------------------------------------------------------------------

  datatype Happening =
    | Open(token: SignInToken, user: UserId)
    | Act(acting: SignInToken)
    | ClockStarts(back: SignInToken)
    | End(ending: SignInToken)
    | EndEvery(locked: UserId)
    | Sweep(idleFor: int, spared: seq<SignInToken>)

  datatype Moment = Moment(what: Happening, at: int)

  type Days = seq<Moment>

  function Happened(held: Held, m: Moment): Held {
    match m.what
    case Open(token, user) => Opened(held, token, user, m.at)
    case Act(token) => Noted(held, token, m.at)
    case ClockStarts(token) => Noted(held, token, m.at)
    case End(token) => held - {token}
    case EndEvery(user) => EndedEvery(held, user)
    case Sweep(idleFor, spared) => held - Abandoned(held, idleFor, spared, m.at)
  }

  ghost function HeldAfter(days: Days): Held {
    if days == [] then map[]
    else Happened(HeldAfter(days[..|days| - 1]), days[|days| - 1])
  }

  /** The clock does not go back. */
  ghost predicate Forward(days: Days) {
    forall i, j :: 0 <= i < j < |days| ==> days[i].at <= days[j].at
  }

  /** When whoever holds this sign-in last did something deliberate, or its clock last started:
      the fact the stamp is a coarse record of. */
  ghost function TrulyActive(days: Days, token: SignInToken): Option<int> {
    if days == [] then None
    else
      var before, m := days[..|days| - 1], days[|days| - 1];
      if m.what == Act(token) || m.what == ClockStarts(token) then
        if token in HeldAfter(before) then Some(m.at) else None
      else if m.what.Open? && m.what.token == token then Some(m.at)
      else if token in Happened(HeldAfter(before), m) then TrulyActive(before, token)
      else None
  }

  /** The stamp lags the truth by no more than a minute, and never leads it. */
  lemma {:induction false} TheStampLagsByAMinute(days: Days, token: SignInToken)
    requires Forward(days)
    ensures token in HeldAfter(days) <==> TrulyActive(days, token).Some?
    ensures token in HeldAfter(days) ==>
      0 <= TrulyActive(days, token).value - HeldAfter(days)[token].lastActive <= TO_THE_MINUTE
    ensures token in HeldAfter(days) ==> TrulyActive(days, token).value <= days[|days| - 1].at
  {
    if days != [] {
      var before, m := days[..|days| - 1], days[|days| - 1];
      TheStampLagsByAMinute(before, token);
      if before != [] { assert days[|before| - 1].at <= m.at; }
    }
  }

  /** A sweep ends every unspared sign-in idle for the whole window, ends none that was active
      within the window less a minute, none that is spared, and touches nothing else. */
  lemma {:induction false} ASweepEndsTheAbandoned(days: Days, idleFor: int, spared: seq<SignInToken>, now: int,
      token: SignInToken)
    requires Forward(days + [Moment(Sweep(idleFor, spared), now)])
    requires TrulyActive(days, token).Some?
    ensures
      var after := Happened(HeldAfter(days), Moment(Sweep(idleFor, spared), now));
      var idle := now - TrulyActive(days, token).value;
      && (token in spared ==> token in after)
      && (token !in spared && idle >= idleFor ==> token !in after)
      && (idle < idleFor - TO_THE_MINUTE ==> token in after)
      && token in HeldAfter(days) && (token in after ==> after[token] == HeldAfter(days)[token])
      && after.Keys <= HeldAfter(days).Keys
  {
    var more := days + [Moment(Sweep(idleFor, spared), now)];
    forall i, j | 0 <= i < j < |days| ensures days[i].at <= days[j].at {
      assert more[i].at <= more[j].at;
    }
    TheStampLagsByAMinute(days, token);
  }

  /** Holding a session is what spares a sign-in: handed the snapshot of live sessions, a sweep
      ends no sign-in any of them was assumed from. */
  lemma {:induction false} WhoeverIsOnShiftIsSpared(days: Days, idleFor: int, sessions: seq<Session>, now: int,
      s: Session)
    requires s in sessions && s.signIn in HeldAfter(days)
    ensures s.signIn in Happened(HeldAfter(days), Moment(Sweep(idleFor, SignInsHoldingASession(sessions)), now))
  {
    var i :| 0 <= i < |sessions| && sessions[i] == s;
    assert SignInsHoldingASession(sessions)[i] == s.signIn;
  }

  /** The minute is not slack in the proof: an act exactly that much inside the window can be
      swept away. */
  lemma {:induction false} TheMinuteIsTight(token: SignInToken, user: UserId)
    ensures
      var days := [Moment(Open(token, user), 0), Moment(Act(token), TO_THE_MINUTE)];
      && Forward(days + [Moment(Sweep(THE_WINDOW, []), THE_WINDOW)])
      && token in HeldAfter(days)
      && THE_WINDOW - TrulyActive(days, token).value == THE_WINDOW - TO_THE_MINUTE
      && token !in Happened(HeldAfter(days), Moment(Sweep(THE_WINDOW, []), THE_WINDOW))
  {
    var days := [Moment(Open(token, user), 0), Moment(Act(token), TO_THE_MINUTE)];
    assert days[..1] == [Moment(Open(token, user), 0)];
    assert days[..1][..0] == [];
    assert HeldAfter(days[..1][..0]) == map[];
    assert HeldAfter(days[..1]) == map[token := SignIn(user, 0, 0)];
    assert HeldAfter(days) == HeldAfter(days[..1]);
  }
}
