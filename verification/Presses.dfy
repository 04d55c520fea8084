/** Every priority press begun is handed back to be audited exactly once, or is still held. */
module Presses {
  import opened Basics
  import opened Names
  import opened Deployment
  import opened Sessions
  import opened LiveState
  import opened Invariants

  /** A press, by everything the audit entry is about: who pressed, in which role, over which
      arms as they stood at key-down, and when. */
  datatype Press = Press(occupant: UserId, role: RoleId, armedOn: seq<string>, at: nat, began: Instant)

  type Ledger = multiset<Press>

  ghost function PressHeld(s: Session): Ledger {
    match s.pressing
    case None => multiset{}
    case Some(p) => multiset{Press(s.occupant, s.role, p.armedOn, p.at, p.began)}
  }

  ghost function HeldIn(sessions: seq<Session>): Ledger {
    if sessions == [] then multiset{} else PressHeld(sessions[0]) + HeldIn(sessions[1..])
  }

  /** The press one deed begins on the session it is done to: a key-down where none is held,
      over the arms as they stand, by name. */
  ghost function BegunOn(s: Session, deed: Deed, now: Instant): Ledger {
    if deed.KeyPriority? && s.pressing.None?
    then multiset{Press(s.occupant, s.role, NamesWithin(s.reach, s.arms), deed.wallClock, now)}
    else multiset{}
  }

  /** The press one event begins, where it begins one. */
  ghost function BegunBy(l: Live, e: Event): Ledger {
    if e.act.Do? && IsLive(l.sessions, e.act.session)
    then BegunOn(Held(l.sessions, e.act.session), e.act.deed, e.at)
    else multiset{}
  }

  ghost function AsPressed(pressed: Option<Pressed>, now: Instant): Ledger {
    match pressed
    case None => multiset{}
    case Some(p) => multiset{Press(p.occupant, p.role, p.armedOn, p.at, Since(now, p.lasted))}
  }

  /** The presses an answer hands back, whichever kind of ending it is the answer to. */
  ghost function Returning(answer: Answer, now: Instant): Ledger {
    match answer
    case Taken(_, pressed) => AsPressed(pressed, now)
    case Gone(Some(ended)) => AsPressed(ended.pressed, now)
    case Seat(Ok(assumed)) =>
      if assumed.displaced.Some? then AsPressed(assumed.displaced.value.pressed, now) else multiset{}
    case _ => multiset{}
  }

  ghost function Begun(ladder: Ladder, h: History): Ledger {
    if h == [] then multiset{}
    else Begun(ladder, Before(h)) + BegunBy(After(ladder, Before(h)), Latest(h))
  }

  ghost function Returned(ladder: Ladder, h: History): Ledger {
    if h == [] then multiset{}
    else Returned(ladder, Before(h)) + Returning(Told(After(ladder, Before(h)), Latest(h)), Latest(h).at)
  }

  // ---- The presses held, as the sessions move ----------------------------------------------

  lemma {:induction false} HeldAddUp(a: seq<Session>, b: seq<Session>)
    ensures HeldIn(a + b) == HeldIn(a) + HeldIn(b)
  {
    if a == [] {
      assert a + b == b;
    } else {
      assert (a + b)[1..] == a[1..] + b;
      HeldAddUp(a[1..], b);
    }
  }

  lemma {:induction false} HeldByOne(s: Session)
    ensures HeldIn([s]) == PressHeld(s)
  {
    assert HeldIn([s]) == PressHeld(s) + HeldIn([]);
  }

  lemma {:induction false} HeldAround(sessions: seq<Session>, k: nat)
    requires k < |sessions|
    ensures HeldIn(sessions) == HeldIn(Removed(sessions, k)) + PressHeld(sessions[k])
  {
    var front, back := sessions[..k], sessions[k + 1..];
    assert sessions == front + ([sessions[k]] + back);
    HeldAddUp(front, [sessions[k]] + back);
    HeldAddUp([sessions[k]], back);
    HeldByOne(sessions[k]);
    HeldAddUp(front, back);
  }

  lemma {:induction false} HeldOnceChanged(sessions: seq<Session>, k: nat, s: Session)
    requires k < |sessions|
    ensures HeldIn(sessions[k := s]) + PressHeld(sessions[k]) == HeldIn(sessions) + PressHeld(s)
  {
    HeldAround(sessions, k);
    HeldAround(sessions[k := s], k);
    assert Removed(sessions[k := s], k) == Removed(sessions, k);
  }

  lemma {:induction false} HeldAlike(a: seq<Session>, b: seq<Session>)
    requires |a| == |b| && forall i :: 0 <= i < |a| ==> PressHeld(a[i]) == PressHeld(b[i])
    ensures HeldIn(a) == HeldIn(b)
  {
    if a != [] { HeldAlike(a[1..], b[1..]); }
  }

  // ---- One step ---------------------------------------------------------------------------

  /** No press began after the clock. */
  ghost predicate BegunBefore(sessions: seq<Session>, now: Instant) {
    forall s :: s in sessions && s.pressing.Some? ==> s.pressing.value.began <= now
  }

  lemma {:induction false} LettingGoReturnsIt(s: Session, now: Instant)
    requires s.pressing.Some? ==> s.pressing.value.began <= now
    ensures AsPressed(s.LetGo(now), now) == PressHeld(s)
  {
  }

  lemma {:induction false} DeedLeavesThePress(s: Session, ladder: Ladder, deed: Deed, now: Instant)
    requires !deed.KeyPriority? && !deed.UnkeyPriority? && !deed.LoseTheChannel?
    ensures PressHeld(Done(s, ladder, deed, now)) == PressHeld(s) && HandedBack(s, deed, now) == None
  {
  }

  lemma {:induction false} DeedConserves(s: Session, ladder: Ladder, deed: Deed, now: Instant)
    requires s.pressing.Some? ==> s.pressing.value.began <= now
    ensures PressHeld(s) + BegunOn(s, deed, now)
         == AsPressed(HandedBack(s, deed, now), now) + PressHeld(Done(s, ladder, deed, now))
  {
    if deed.UnkeyPriority? || deed.LoseTheChannel? {
      LettingGoReturnsIt(s, now);
    } else if !deed.KeyPriority? {
      DeedLeavesThePress(s, ladder, deed, now);
    }
  }

  lemma {:induction false} Balanced(before: Ledger, after: Ledger, was: Ledger, became: Ledger, begun: Ledger,
      returned: Ledger)
    requires after + was == before + became
    requires was + begun == returned + became
    ensures before + begun == returned + after
  {
    forall p ensures (before + begun)[p] == (returned + after)[p] {
      assert (after + was)[p] == (before + became)[p];
      assert (was + begun)[p] == (returned + became)[p];
    }
  }

  lemma {:induction false} CarriedForward(begun: Ledger, returned: Ledger, held: Ledger, b: Ledger, r: Ledger,
      after: Ledger)
    requires begun == returned + held && held + b == r + after
    ensures begun + b == returned + r + after
  {
    forall p ensures (begun + b)[p] == (returned + r + after)[p] {
      assert (held + b)[p] == (r + after)[p];
    }
  }

  lemma {:induction false} SeatingHolds(others: seq<Session>, a: Assuming, id: SessionId, now: Instant)
    ensures HeldIn(others + [Seated(a, id, now)]) == HeldIn(others)
  {
    HeldAddUp(others, [Seated(a, id, now)]);
    HeldByOne(Seated(a, id, now));
  }

  lemma {:induction false} AssumeConserves(l: Live, e: Event)
    requires BegunBefore(l.sessions, e.at) && e.act.Assume?
    ensures HeldIn(l.sessions) + BegunBy(l, e) == Returning(Told(l, e), e.at) + HeldIn(Step(l, e).sessions)
  {
    hide HeldIn, IsFull, Seated, OfOthers, Recent;
    var a, id := e.act.assuming, e.act.minted;
    if !IsFull(l.sessions, a) {
      var held := SeatOf(l.sessions, a.occupant);
      if held < |l.sessions| {
        HeldAround(l.sessions, held);
        SeatingHolds(Removed(l.sessions, held), a, id, e.at);
        LettingGoReturnsIt(l.sessions[held], e.at);
      } else {
        SeatingHolds(l.sessions, a, id, e.at);
      }
    }
  }

  lemma {:induction false} DoingStep(l: Live, e: Event)
    requires e.act.Do? && IsLive(l.sessions, e.act.session)
    ensures
      var k, deed := At(l.sessions, e.act.session), e.act.deed;
      && Step(l, e).sessions == l.sessions[k := Done(l.sessions[k], l.ladder, deed, e.at)]
      && Returning(Told(l, e), e.at) == AsPressed(HandedBack(l.sessions[k], deed, e.at), e.at)
      && BegunBy(l, e) == BegunOn(l.sessions[k], deed, e.at)
  {
    hide Done, HandedBack, BegunOn, AsPressed;
  }

  lemma {:induction false} DoingNothing(l: Live, e: Event)
    requires e.act.Do? && !IsLive(l.sessions, e.act.session)
    ensures Step(l, e).sessions == l.sessions
    ensures Returning(Told(l, e), e.at) == multiset{} && BegunBy(l, e) == multiset{}
  {
    hide Done, HandedBack, BegunOn;
  }

  lemma {:induction false} DoingConserves(l: Live, e: Event)
    requires BegunBefore(l.sessions, e.at) && e.act.Do?
    ensures HeldIn(l.sessions) + BegunBy(l, e) == Returning(Told(l, e), e.at) + HeldIn(Step(l, e).sessions)
  {
    hide Step, Told, Returning, HeldIn, PressHeld, BegunBy, BegunOn, Done, HandedBack, AsPressed;
    if IsLive(l.sessions, e.act.session) {
      var k := At(l.sessions, e.act.session);
      var s, deed := l.sessions[k], e.act.deed;
      var after := Done(s, l.ladder, deed, e.at);
      DoingStep(l, e);
      DeedConserves(s, l.ladder, deed, e.at);
      HeldOnceChanged(l.sessions, k, after);
      var begun, returned := BegunOn(s, deed, e.at), AsPressed(HandedBack(s, deed, e.at), e.at);
      var held, next := HeldIn(l.sessions), HeldIn(l.sessions[k := after]);
      Balanced(held, next, PressHeld(s), PressHeld(after), begun, returned);
    } else {
      DoingNothing(l, e);
    }
  }

  lemma {:induction false} EndingConserves(l: Live, e: Event)
    requires BegunBefore(l.sessions, e.at) && e.act.EndedByItsOwnHolder?
    ensures HeldIn(l.sessions) + BegunBy(l, e) == Returning(Told(l, e), e.at) + HeldIn(Step(l, e).sessions)
  {
    hide HeldIn;
    if IsLive(l.sessions, e.act.ending) {
      var k := At(l.sessions, e.act.ending);
      HeldAround(l.sessions, k);
      LettingGoReturnsIt(l.sessions[k], e.at);
    }
  }

  lemma {:induction false} RestHandsNothingBack(l: Live, e: Event)
    requires !e.act.Assume? && !e.act.Do? && !e.act.EndedByItsOwnHolder?
    ensures BegunBy(l, e) == multiset{} && Returning(Told(l, e), e.at) == multiset{}
  {
    hide Projected, Recent, FanOut, BeaconCarriage;
  }

  lemma {:induction false} RestLeavesThePresses(l: Live, e: Event, i: nat)
    requires !e.act.Assume? && !e.act.Do? && !e.act.EndedByItsOwnHolder? && i < |l.sessions|
    ensures |Step(l, e).sessions| == |l.sessions| && PressHeld(Step(l, e).sessions[i]) == PressHeld(l.sessions[i])
  {
    hide Projected, Recent, FanOut, BeaconCarriage, StillRouted;
  }

  lemma {:induction false} RestConserves(l: Live, e: Event)
    requires !e.act.Assume? && !e.act.Do? && !e.act.EndedByItsOwnHolder?
    ensures HeldIn(l.sessions) + BegunBy(l, e) == Returning(Told(l, e), e.at) + HeldIn(Step(l, e).sessions)
  {
    RestHandsNothingBack(l, e);
    SeatsStand(l, e);
    hide *;
    forall i | 0 <= i < |l.sessions| ensures PressHeld(Step(l, e).sessions[i]) == PressHeld(l.sessions[i]) {
      RestLeavesThePresses(l, e, i);
    }
    HeldAlike(l.sessions, Step(l, e).sessions);
  }

  lemma {:induction false} StepConserves(l: Live, e: Event)
    requires BegunBefore(l.sessions, e.at)
    ensures HeldIn(l.sessions) + BegunBy(l, e) == Returning(Told(l, e), e.at) + HeldIn(Step(l, e).sessions)
  {
    hide *;
    if e.act.Assume? {
      AssumeConserves(l, e);
    } else if e.act.Do? {
      DoingConserves(l, e);
    } else if e.act.EndedByItsOwnHolder? {
      EndingConserves(l, e);
    } else {
      RestConserves(l, e);
    }
  }

  lemma {:induction false} DeedBegunBefore(s: Session, ladder: Ladder, deed: Deed, now: Instant)
    requires s.pressing.Some? ==> s.pressing.value.began <= now
    ensures Done(s, ladder, deed, now).pressing.Some? ==> Done(s, ladder, deed, now).pressing.value.began <= now
  {
  }

  lemma {:induction false} UncarriedBegunBefore(sessions: seq<Session>, now: Instant)
    requires BegunBefore(sessions, now)
    ensures BegunBefore(AllUncarried(sessions), now)
  {
    forall s | s in AllUncarried(sessions) && s.pressing.Some?
      ensures s.pressing.value.began <= now
    {
      var i :| 0 <= i < |sessions| && AllUncarried(sessions)[i] == s;
      assert sessions[i] in sessions;
    }
  }

  lemma {:induction false} OthersBegunBefore(l: Live, e: Event)
    requires BegunBefore(l.sessions, e.at) && !e.act.Assume? && !e.act.EndedByItsOwnHolder?
    ensures BegunBefore(Step(l, e).sessions, e.at)
  {
    hide Done;
    match e.act
    case Do(id, deed) =>
      if IsLive(l.sessions, id) { DeedBegunBefore(Held(l.sessions, id), l.ladder, deed, e.at); }
    case NothingIsCarried => UncarriedBegunBefore(l.sessions, e.at);
    case _ =>
  }

  lemma {:induction false} StepBegunBefore(l: Live, e: Event)
    requires BegunBefore(l.sessions, e.at)
    ensures BegunBefore(Step(l, e).sessions, e.at)
  {
    if e.act.Assume? {
      var held := SeatOf(l.sessions, e.act.assuming.occupant);
      if held < |l.sessions| { RemovedHolds(l.sessions, held); }
    } else if e.act.EndedByItsOwnHolder? {
      if IsLive(l.sessions, e.act.ending) { RemovedHolds(l.sessions, At(l.sessions, e.act.ending)); }
    } else {
      OthersBegunBefore(l, e);
    }
  }

  lemma {:induction false} EarlierBegunBefore(sessions: seq<Session>, earlier: Instant, now: Instant)
    requires BegunBefore(sessions, earlier) && earlier <= now
    ensures BegunBefore(sessions, now)
  {
  }

  lemma {:induction false} EveryPressBeganBefore(ladder: Ladder, h: History)
    requires Legal(h)
    ensures BegunBefore(After(ladder, h).sessions, Clock(h))
  {
    if h != [] {
      hide Step;
      EveryPressBeganBefore(ladder, Before(h));
      StepBegunBefore(After(ladder, Before(h)), Latest(h));
    }
  }

  /** Over any run the presses begun are the presses handed back together with those still
      held: each comes back exactly once, whether by release, channel loss, relinquishing or
      displacement, with the arms it was keyed over however they have moved since. */
  lemma {:induction false} EveryPressComesBackOnce(ladder: Ladder, h: History)
    requires Legal(h)
    ensures Begun(ladder, h) == Returned(ladder, h) + HeldIn(After(ladder, h).sessions)
  {
    if h != [] {
      hide Step, Told, HeldIn, BegunBy, Returning, BegunBefore;
      var l, e := After(ladder, Before(h)), Latest(h);
      EveryPressComesBackOnce(ladder, Before(h));
      EveryPressBeganBefore(ladder, Before(h));
      EarlierBegunBefore(l.sessions, Clock(Before(h)), e.at);
      StepConserves(l, e);
      var begun, returned := Begun(ladder, Before(h)), Returned(ladder, Before(h));
      var held, next := HeldIn(l.sessions), HeldIn(Step(l, e).sessions);
      CarriedForward(begun, returned, held, BegunBy(l, e), Returning(Told(l, e), e.at), next);
    }
  }

  /** Nobody on the system means nothing outstanding: every press begun has been handed back. */
  lemma {:induction false} NothingOutstandingWhenEmpty(ladder: Ladder, h: History)
    requires Legal(h) && forall s :: s in After(ladder, h).sessions ==> s.pressing.None?
    ensures Begun(ladder, h) == Returned(ladder, h)
  {
    EveryPressComesBackOnce(ladder, h);
    NoneHeld(After(ladder, h).sessions);
  }

  lemma {:induction false} NoneHeld(sessions: seq<Session>)
    requires forall s :: s in sessions ==> s.pressing.None?
    ensures HeldIn(sessions) == multiset{}
  {
    if sessions != [] { NoneHeld(sessions[1..]); }
  }
}
