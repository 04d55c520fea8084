/** The single holder of live state. Every method does in place what `LiveState.Step` says one
    event does, answers what `LiveState.Told` says it is told, and adds that event to the
    ghost history. */
module Authority {
  import opened Basics
  import opened Names
  import opened Deployment
  import opened Sessions
  import opened LiveState
  import opened StaffingFold

  class StateAuthority {
    const ladder: Ladder
    var sessions: seq<Session>
    var tombstones: seq<Tombstone>
    var lastRouting: Option<seq<WhoHears>>
    var lastBeacons: Option<seq<WhoCounts>>
    ghost var history: History

    ghost function Snapshot(): Live
      reads this
    {
      Live(ladder, sessions, tombstones, lastRouting, lastBeacons)
    }

    /** Some legal run leaves this state behind. */
    ghost predicate LeftByARun()
      reads this
    {
      Legal(history) && Snapshot() == After(ladder, history)
    }

    /** Exactly one event happened since: the new state and the new history both say so. */
    twostate predicate Advanced(e: Event)
      reads this
    {
      && history == old(history) + [e]
      && Snapshot() == Step(old(Snapshot()), e)
    }

    /** An authority some legal run leaves behind is still one after any event that may follow,
        so every theorem about runs is a theorem about this object. */
    twostate lemma StaysLeftByARun(e: Event)
      requires old(LeftByARun()) && Advanced(e) && MayFollow(old(history), e)
      ensures LeftByARun()
    {
      OneMore(ladder, old(history), e);
    }

    constructor KeepingTimeBy(ladder: Ladder)
      ensures LeftByARun() && history == [] && this.ladder == ladder
    {
      this.ladder := ladder;
      sessions, tombstones, lastRouting, lastBeacons := [], [], None, None;
      history := [];
    }

    // ---- Seats ----------------------------------------------------------------------------

    method Assume(assuming: Assuming, minted: SessionId, now: Instant) returns (r: Result<Assumed, Occupied>)
      modifies this
      ensures Advanced(Event(Act.Assume(assuming, minted), now))
      ensures Seat(r) == Told(old(Snapshot()), Event(Act.Assume(assuming, minted), now))
    {
      history := history + [Event(Act.Assume(assuming, minted), now)];

      // The limit is ruled on before anything is ended, so a refusal costs the caller nothing.
      var heldAlready := SeatOf(sessions, assuming.occupant);
      if assuming.limit.Some? {
        var occupied := OthersIn(sessions, assuming.role, assuming.occupant);
        if occupied >= assuming.limit.value {
          return Err(Occupied(assuming.limit.value));
        }
      }

      tombstones := OfOthers(tombstones, assuming.occupant);
      var displaced := None;
      if heldAlready < |sessions| {
        var relinquished := LiveState.Ending(sessions[heldAlready], AssumedElsewhere, now);
        sessions := Removed(sessions, heldAlready);
        Remember(relinquished, now);
        displaced := Some(relinquished);
      }
      sessions := sessions + [Seated(assuming, minted, now)];
      r := Ok(Assumed(minted, displaced));
    }

    /** Keep a session's ending, dropping the tombstones nobody came back for. */
    method Remember(relinquished: Relinquished, now: Instant)
      modifies this`tombstones
      ensures tombstones == Recent(old(tombstones), now)
                + [Tombstone(relinquished.session, relinquished.occupant, relinquished.why, now)]
    {
      tombstones := Recent(tombstones, now);
      tombstones := tombstones
        + [Tombstone(relinquished.session, relinquished.occupant, relinquished.why, now)];
    }

    method EndedByItsOwnHolder(session: SessionId, now: Instant) returns (r: Option<Relinquished>)
      modifies this
      ensures Advanced(Event(Act.EndedByItsOwnHolder(session), now))
      ensures Gone(r) == Told(old(Snapshot()), Event(Act.EndedByItsOwnHolder(session), now))
    {
      history := history + [Event(Act.EndedByItsOwnHolder(session), now)];

      var held := At(sessions, session);
      if held == |sessions| {
        return None;
      }
      r := Some(LiveState.Ending(sessions[held], ByRelinquishing, now));
      sessions := Removed(sessions, held);
    }

    method WhyItEnded(session: SessionId, now: Instant) returns (r: Option<Ended>)
      modifies this
      ensures Advanced(Event(Act.WhyItEnded(session), now))
      ensures Reason(r) == Told(old(Snapshot()), Event(Act.WhyItEnded(session), now))
    {
      history := history + [Event(Act.WhyItEnded(session), now)];

      tombstones := Recent(tombstones, now);
      var kept := TombstoneAt(tombstones, session);
      if kept == |tombstones| {
        return None;
      }
      r := Some(tombstones[kept].why);
      tombstones := Removed(tombstones, kept);
    }

    // ---- Deeds ----------------------------------------------------------------------------

    /** Put a session back as the deed leaves it: the one write every deed ends in. */
    method PutBack(session: SessionId, at: nat, held: Session, ghost deed: Deed, now: Instant)
      requires at == At(sessions, session) < |sessions|
      requires held == Done(sessions[at], ladder, deed, now)
      modifies this`sessions, this`history
      ensures Advanced(Event(Do(session, deed), now))
    {
      history := history + [Event(Do(session, deed), now)];
      sessions := sessions[at := held];
    }

    /** A deed on a session that is not there changes nothing, and still happened. */
    ghost method Missed(session: SessionId, deed: Deed, now: Instant)
      requires !IsLive(sessions, session)
      modifies this`history
      ensures Advanced(Event(Do(session, deed), now))
    {
      history := history + [Event(Do(session, deed), now)];
    }

    method Subscribe(session: SessionId, to: LoopId, now: Instant) returns (took: bool)
      modifies this
      ensures Advanced(Event(Do(session, Deed.Subscribe(to)), now))
      ensures Taken(took, None) == Told(old(Snapshot()), Event(Do(session, Deed.Subscribe(to)), now))
    {
      var at := At(sessions, session);
      if at == |sessions| {
        Missed(session, Deed.Subscribe(to), now);
        return false;
      }
      var held := sessions[at];
      if to !in held.subscriptions {
        held := held.(subscriptions := held.subscriptions + [to]);
        held := held.(beacons := held.beacons + [Counting.Starting(to, now)]);
      }
      PutBack(session, at, held, Deed.Subscribe(to), now);
      took := true;
    }

    method Unsubscribe(session: SessionId, from: LoopId, now: Instant) returns (took: bool)
      modifies this
      ensures Advanced(Event(Do(session, Deed.Unsubscribe(from)), now))
      ensures Taken(took, None) == Told(old(Snapshot()), Event(Do(session, Deed.Unsubscribe(from)), now))
    {
      var at := At(sessions, session);
      if at == |sessions| {
        Missed(session, Deed.Unsubscribe(from), now);
        return false;
      }
      var held := sessions[at];
      held := held.(subscriptions := Without(held.subscriptions, from));
      held := held.(beacons := WithoutBeacon(held.beacons, from));
      held := held.(mutes := Without(held.mutes, from));
      PutBack(session, at, held, Deed.Unsubscribe(from), now);
      took := true;
    }

    method Mute(session: SessionId, heldOn: LoopId, now: Instant) returns (took: bool)
      modifies this
      ensures Advanced(Event(Do(session, Deed.Mute(heldOn)), now))
      ensures Taken(took, None) == Told(old(Snapshot()), Event(Do(session, Deed.Mute(heldOn)), now))
    {
      var at := At(sessions, session);
      if at == |sessions| {
        Missed(session, Deed.Mute(heldOn), now);
        return false;
      }
      var held := sessions[at];
      if heldOn in held.subscriptions && heldOn !in held.mutes {
        held := held.(mutes := held.mutes + [heldOn]);
      }
      PutBack(session, at, held, Deed.Mute(heldOn), now);
      took := true;
    }

    method Unmute(session: SessionId, heldOn: LoopId, now: Instant) returns (took: bool)
      modifies this
      ensures Advanced(Event(Do(session, Deed.Unmute(heldOn)), now))
      ensures Taken(took, None) == Told(old(Snapshot()), Event(Do(session, Deed.Unmute(heldOn)), now))
    {
      var at := At(sessions, session);
      if at == |sessions| {
        Missed(session, Deed.Unmute(heldOn), now);
        return false;
      }
      PutBack(session, at, sessions[at].(mutes := Without(sessions[at].mutes, heldOn)), Deed.Unmute(heldOn), now);
      took := true;
    }

    method OffConsole(session: SessionId, now: Instant) returns (took: bool)
      modifies this
      ensures Advanced(Event(Do(session, StepAway), now))
      ensures Taken(took, None) == Told(old(Snapshot()), Event(Do(session, StepAway), now))
    {
      var at := At(sessions, session);
      if at == |sessions| {
        Missed(session, StepAway, now);
        return false;
      }
      PutBack(session, at, sessions[at].(offConsole := true), StepAway, now);
      took := true;
    }

    method ADeliberateAct(session: SessionId, now: Instant)
      modifies this
      ensures Advanced(Event(Do(session, ActDeliberately), now))
    {
      var at := At(sessions, session);
      if at < |sessions| {
        PutBack(session, at, sessions[at].(offConsole := false, lastActive := now), ActDeliberately, now);
      } else {
        Missed(session, ActDeliberately, now);
      }
    }

    method SetTheVolume(session: SessionId, heldOn: LoopId, volume: Volume, now: Instant) returns (took: bool)
      modifies this
      ensures Advanced(Event(Do(session, SetVolume(heldOn, volume)), now))
      ensures Taken(took, None) == Told(old(Snapshot()), Event(Do(session, SetVolume(heldOn, volume)), now))
    {
      var at := At(sessions, session);
      if at == |sessions| {
        Missed(session, SetVolume(heldOn, volume), now);
        return false;
      }
      var held := sessions[at].(volumes := VolumeSet(sessions[at].volumes, heldOn, volume));
      PutBack(session, at, held, SetVolume(heldOn, volume), now);
      took := true;
    }

    method Arm(session: SessionId, to: LoopId, now: Instant) returns (took: bool)
      modifies this
      ensures Advanced(Event(Do(session, Deed.Arm(to)), now))
      ensures Taken(took, None) == Told(old(Snapshot()), Event(Do(session, Deed.Arm(to)), now))
    {
      var at := At(sessions, session);
      if at == |sessions| {
        Missed(session, Deed.Arm(to), now);
        return false;
      }
      var held := sessions[at];
      if to !in held.arms {
        held := held.(arms := held.arms + [to]);
      }
      PutBack(session, at, held, Deed.Arm(to), now);
      took := true;
    }

    method Disarm(session: SessionId, from: LoopId, now: Instant) returns (took: bool)
      modifies this
      ensures Advanced(Event(Do(session, Deed.Disarm(from)), now))
      ensures Taken(took, None) == Told(old(Snapshot()), Event(Do(session, Deed.Disarm(from)), now))
    {
      var at := At(sessions, session);
      if at == |sessions| {
        Missed(session, Deed.Disarm(from), now);
        return false;
      }
      PutBack(session, at, sessions[at].(arms := Without(sessions[at].arms, from)), Deed.Disarm(from), now);
      took := true;
    }

    method TheClientKeys(session: SessionId, now: Instant) returns (took: bool)
      modifies this
      ensures Advanced(Event(Do(session, Key), now))
      ensures Taken(took, None) == Told(old(Snapshot()), Event(Do(session, Key), now))
    {
      var at := At(sessions, session);
      if at == |sessions| {
        Missed(session, Key, now);
        return false;
      }
      PutBack(session, at, sessions[at].(keyed := true), Key, now);
      took := true;
    }

    method TheClientUnkeys(session: SessionId, now: Instant) returns (took: bool)
      modifies this
      ensures Advanced(Event(Do(session, Unkey), now))
      ensures Taken(took, None) == Told(old(Snapshot()), Event(Do(session, Unkey), now))
    {
      var at := At(sessions, session);
      if at == |sessions| {
        Missed(session, Unkey, now);
        return false;
      }
      PutBack(session, at, sessions[at].(keyed := false), Unkey, now);
      took := true;
    }

    method TheClientKeysPriority(session: SessionId, wallClock: nat, now: Instant) returns (took: bool)
      modifies this
      ensures Advanced(Event(Do(session, KeyPriority(wallClock)), now))
      ensures Taken(took, None) == Told(old(Snapshot()), Event(Do(session, KeyPriority(wallClock)), now))
    {
      var at := At(sessions, session);
      if at == |sessions| {
        Missed(session, KeyPriority(wallClock), now);
        return false;
      }
      var held := sessions[at];
      if held.pressing.None? {
        held := held.(pressing := Some(Pressing(now, wallClock, NamesWithin(held.reach, held.arms))));
      }
      PutBack(session, at, held, KeyPriority(wallClock), now);
      took := true;
    }

    method TheClientUnkeysPriority(session: SessionId, now: Instant) returns (r: Option<Pressed>)
      modifies this
      ensures Advanced(Event(Do(session, UnkeyPriority), now))
      ensures Told(old(Snapshot()), Event(Do(session, UnkeyPriority), now)).pressed == r
    {
      var at := At(sessions, session);
      if at == |sessions| {
        Missed(session, UnkeyPriority, now);
        return None;
      }
      r := sessions[at].LetGo(now);
      PutBack(session, at, sessions[at].(pressing := None), UnkeyPriority, now);
    }

    method TheChannelIsGone(session: SessionId, now: Instant) returns (r: Option<Pressed>)
      modifies this
      ensures Advanced(Event(Do(session, LoseTheChannel), now))
      ensures Told(old(Snapshot()), Event(Do(session, LoseTheChannel), now)).pressed == r
    {
      var at := At(sessions, session);
      if at == |sessions| {
        Missed(session, LoseTheChannel, now);
        return None;
      }
      r := sessions[at].LetGo(now);
      PutBack(session, at, sessions[at].(channelIsGone := true, pressing := None), LoseTheChannel, now);
    }

    method TheClientIsThere(session: SessionId, now: Instant)
      modifies this
      ensures Advanced(Event(Do(session, AnswerTheHeartbeat), now))
    {
      var at := At(sessions, session);
      if at < |sessions| {
        var held := sessions[at];
        if held.ConnectionAt(ladder, now) != Confirmed {
          var beacons := held.beacons;
          for i := 0 to |beacons|
            invariant |beacons| == |held.beacons|
            invariant forall j :: 0 <= j < i ==> beacons[j] == held.beacons[j].Again(now)
            invariant forall j :: i <= j < |beacons| ==> beacons[j] == held.beacons[j]
          {
            beacons := beacons[i := beacons[i].Again(now)];
          }
          assert beacons == AllAgain(held.beacons, now);
          held := held.(beacons := beacons);
        }
        PutBack(session, at, held.(heardFrom := now, channelIsGone := false), AnswerTheHeartbeat, now);
      } else {
        Missed(session, AnswerTheHeartbeat, now);
      }
    }

    method TheClientCounted(session: SessionId, totals: seq<Total>, now: Instant)
      modifies this
      ensures Advanced(Event(Do(session, CountBeacons(totals)), now))
    {
      var at := At(sessions, session);
      if at == |sessions| {
        Missed(session, CountBeacons(totals), now);
        return;
      }
      var beacons := sessions[at].beacons;
      for i := 0 to |totals|
        invariant beacons == CountAll(sessions[at].beacons, totals[..i], now)
      {
        assert totals[..i + 1][..i] == totals[..i];
        beacons := CountOne(beacons, totals[i], now);
      }
      assert totals[..|totals|] == totals;
      PutBack(session, at, sessions[at].(beacons := beacons), CountBeacons(totals), now);
    }

    method TheClientSays(session: SessionId, path: MediaPath, now: Instant)
      modifies this
      ensures Advanced(Event(Do(session, SayMediaPath(path)), now))
    {
      var at := At(sessions, session);
      if at < |sessions| {
        PutBack(session, at, sessions[at].(saidByTheClient := path), SayMediaPath(path), now);
      } else {
        Missed(session, SayMediaPath(path), now);
      }
    }

    method TheServerSees(session: SessionId, path: MediaPath, now: Instant)
      modifies this
      ensures Advanced(Event(Do(session, SeeMediaPath(path)), now))
    {
      var at := At(sessions, session);
      if at < |sessions| {
        PutBack(session, at, sessions[at].(seenByTheServer := path), SeeMediaPath(path), now);
      } else {
        Missed(session, SeeMediaPath(path), now);
      }
    }

    method NothingIsCarried(now: Instant)
      modifies this
      ensures Advanced(Event(Act.NothingIsCarried, now))
    {
      ghost var before := sessions;
      for i := 0 to |sessions|
        modifies this`sessions
        invariant |sessions| == |before|
        invariant forall j :: 0 <= j < i ==> sessions[j] == before[j].(seenByTheServer := Lost)
        invariant forall j :: i <= j < |sessions| ==> sessions[j] == before[j]
      {
        sessions := sessions[i := sessions[i].(seenByTheServer := Lost)];
      }
      assert sessions == AllUncarried(before);
      history := history + [Event(Act.NothingIsCarried, now)];
    }

    // ---- Answers handed down ----------------------------------------------------------------

    method TheRoutingIfItMoved(now: Instant) returns (moved: Option<seq<WhoHears>>)
      modifies this
      ensures Advanced(Event(TakeTheRouting, now))
      ensures Routing(moved) == Told(old(Snapshot()), Event(TakeTheRouting, now))
    {
      history := history + [Event(TakeTheRouting, now)];

      var routing := FanOut(Live(ladder, sessions, tombstones, lastRouting, lastBeacons), now);
      if lastRouting == Some(routing) {
        return None;
      }
      lastRouting := Some(routing);
      moved := Some(routing);
    }

    method TheBeaconsIfTheyMoved(now: Instant) returns (moved: Option<seq<WhoCounts>>)
      modifies this
      ensures Advanced(Event(TakeTheBeacons, now))
      ensures Beacons(moved) == Told(old(Snapshot()), Event(TakeTheBeacons, now))
    {
      history := history + [Event(TakeTheBeacons, now)];

      var counting := BeaconCarriage(Live(ladder, sessions, tombstones, lastRouting, lastBeacons));
      if lastBeacons == Some(counting) {
        return None;
      }
      lastBeacons := Some(counting);
      moved := Some(counting);
    }

    // ---- Staffing and the document -----------------------------------------------------------

    /** One loop's staffing state, counted over the sessions in turn and answered at once where
        one of them is hearing it. */
    method StaffingOn(staffing: StaffedBy, now: Instant) returns (r: Staffing)
      ensures r == StaffingOf(Snapshot(), staffing, now)
    {
      hide Occupies, NonZero, CountFor, AwayFrom;
      var counted := new nat[|FURTHEST_UPSTREAM_FIRST|](_ => 0);
      var anybody := false;
      CountNothing(staffing, ladder, now);
      assert sessions[..0] == [];
      for i := 0 to |sessions|
        invariant anybody <==> exists j :: 0 <= j < i && Occupies(sessions[j], staffing)
        invariant forall j :: 0 <= j < i && Occupies(sessions[j], staffing) ==>
          !Hearing(sessions[j], staffing.heldOn, ladder, now)
        invariant forall n :: 0 <= n < counted.Length ==>
          counted[n] == CountFor(sessions[..i], staffing, ladder, now, FURTHEST_UPSTREAM_FIRST[n])
      {
        forall n | 0 <= n < counted.Length { CountNext(sessions, i, staffing, ladder, now, n); }
        var occupant := sessions[i];
        if Occupies(occupant, staffing) {
          anybody := true;
          match occupant.WhyNotHearing(staffing.heldOn, ladder, now)
          case None => return Staffed;
          case Some(reason) =>
            var at := reason.Order();
            counted[at] := counted[at] + 1;
        }
      }
      assert sessions[..|sessions|] == sessions;
      if !anybody {
        return Vacant;
      }
      assert counted[..] == CountsFor(sessions, staffing, ladder, now);
      r := Away(NonZero(FURTHEST_UPSTREAM_FIRST, counted[..]));
    }

    method TheStaffing(staffed: seq<StaffedBy>, now: Instant) returns (r: seq<Covered>)
      ensures r == TheStaffingOf(Snapshot(), staffed, now)
    {
      r := [];
      for i := 0 to |staffed|
        invariant |r| == i
        invariant forall j :: 0 <= j < i ==>
          r[j] == Covered(staffed[j].heldOn, StaffingOf(Snapshot(), staffed[j], now))
      {
        var staffing := StaffingOn(staffed[i], now);
        r := r + [Covered(staffed[i].heldOn, staffing)];
      }
    }

    /** The document this session is shown, worked out over every session as things stand. */
    method Compose(held: Session, staffed: seq<StaffedBy>, now: Instant) returns (r: Presence)
      ensures r == DocumentOf(Snapshot(), held, staffed, now)
    {
      var spokenOn := SpokenOn(sessions, ladder, now);
      var atPriority := SpokenOnAtPriority(sessions, ladder, now);
      var staffing := TheStaffing(staffed, now);
      var loops := StandingsOn(held, spokenOn, atPriority, staffing, staffed, ladder, now);
      r := Presence(
        held.id, held.role, held.Path(), held.ConnectionAt(ladder, now), held.IsTransmitting(ladder, now),
        held.IsAtPriority(ladder, now), held.AssertedAt(now), loops);
    }

    method PresenceFor(session: SessionId, within: seq<InReach>, staffed: seq<StaffedBy>, now: Instant)
      returns (r: Option<Issued>)
      modifies this
      ensures Advanced(Event(Project(session, within, staffed), now))
      ensures Document(r) == Told(old(Snapshot()), Event(Project(session, within, staffed), now))
    {
      history := history + [Event(Project(session, within, staffed), now)];

      var at := At(sessions, session);
      if at == |sessions| { return None; }
      // The reach is recorded, and the arms narrowed to it, before anything is projected.
      var held := sessions[at].Within(within);
      sessions := sessions[at := held];
      assert Snapshot() == Reached(old(Snapshot()), at, within);
      var presence := Compose(held, staffed, now);
      var issued := Moved(held, presence);
      sessions := sessions[at := issued];
      assert sessions == old(sessions)[at := issued];
      r := Some(Issued(issued.version, presence));
    }

    /** The version moves where the document has, and the document is kept to be compared with. */
    static method Moved(held: Session, presence: Presence) returns (r: Session)
      ensures r == held.Shown(presence)
    {
      r := held;
      if held.last != Some(presence) {
        r := r.(version := r.version + 1);
        r := r.(last := Some(presence));
      }
    }

    // ---- Reads ------------------------------------------------------------------------------

    /** Of the reasons standing between that session and the loop, the furthest upstream. */
    method WhyNotHearing(session: SessionId, heldOn: LoopId, now: Instant) returns (r: Option<NotHearing>)
      ensures r.None? <==>
        !IsLive(sessions, session) || NothingStands(Held(sessions, session), heldOn, ladder, now)
      ensures r.Some? ==>
        && Stands(r.value, Held(sessions, session), heldOn, ladder, now)
        && forall other: NotHearing ::
             other.Order() < r.value.Order() ==> !Stands(other, Held(sessions, session), heldOn, ladder, now)
    {
      var at := At(sessions, session);
      if at == |sessions| { return None; }
      TheReasonIsFurthestUpstream(sessions[at], heldOn, ladder, now);
      r := sessions[at].WhyNotHearing(heldOn, ladder, now);
    }
  }
}
