/** What a session is, read off the messages alone: about every fact of it the latest message
    that bears on that fact has the last word, whatever came between. */
module LastWords {
  import opened Basics
  import opened Names
  import opened Deployment
  import opened Sessions
  import opened LiveState
  import opened Invariants
  import opened Runs
  import opened Health

  datatype Fact =
    | IsMonitored(on: LoopId)
    | IsMuted(on: LoopId)
    | IsArmed(on: LoopId)
    | IsAsLoudAs(on: LoopId, volume: Volume)
    | IsKeyed
    | IsPressing
    | IsAway
    | WasActiveAt(at: Instant)
    | ReadsItself(path: MediaPath)
    | IsSeenAs(path: MediaPath)
    | IsWithin(reach: seq<InReach>)
    | SitsIn(role: RoleId)

  /** How a session answers for a fact. */
  ghost predicate Stands(s: Session, fact: Fact) {
    match fact
    case IsMonitored(on) => on in s.subscriptions
    case IsMuted(on) => on in s.mutes
    case IsArmed(on) => on in s.arms
    case IsAsLoudAs(on, volume) => VolumeOn(s.volumes, on) == Some(volume)
    case IsKeyed => s.keyed
    case IsPressing => s.pressing.Some?
    case IsAway => s.offConsole
    case WasActiveAt(at) => s.lastActive == at
    case ReadsItself(path) => s.saidByTheClient == path
    case IsSeenAs(path) => s.seenByTheServer == path
    case IsWithin(reach) => s.reach == reach
    case SitsIn(role) => s.role == role
  }

  /** What taking the seat says of a fact: the remembered set and volumes, and otherwise a
      console nobody has touched on a path nobody has seen. */
  ghost predicate SeatSays(fact: Fact, a: Assuming, now: Instant) {
    match fact
    case IsMonitored(on) => on in a.subscribedTo
    case IsAsLoudAs(on, volume) => VolumeOn(a.volumes, on) == Some(volume)
    case WasActiveAt(at) => at == now
    case ReadsItself(path) => path == Lost
    case IsSeenAs(path) => path == Lost
    case IsWithin(reach) => reach == []
    case SitsIn(role) => role == a.role
    case _ => false
  }

  /** What a deed says of a fact, where it bears on it. A mute is the one deed that says nothing
      by itself: it lands only on a loop that is monitored. */
  ghost function DeedSays(fact: Fact, deed: Deed, now: Instant): Option<bool> {
    match (fact, deed)
    case (IsMonitored(on), Subscribe(to)) => if to == on then Some(true) else None
    case (IsMonitored(on), Unsubscribe(from)) => if from == on then Some(false) else None
    case (IsMuted(on), Unmute(un)) => if un == on then Some(false) else None
    case (IsMuted(on), Unsubscribe(from)) => if from == on then Some(false) else None
    case (IsArmed(on), Arm(to)) => if to == on then Some(true) else None
    case (IsArmed(on), Disarm(from)) => if from == on then Some(false) else None
    case (IsAsLoudAs(on, volume), SetVolume(to, level)) => if to == on then Some(level == volume) else None
    case (IsKeyed, Key) => Some(true)
    case (IsKeyed, Unkey) => Some(false)
    case (IsPressing, KeyPriority(_)) => Some(true)
    case (IsPressing, UnkeyPriority) => Some(false)
    case (IsPressing, LoseTheChannel) => Some(false)
    case (IsAway, StepAway) => Some(true)
    case (IsAway, ActDeliberately) => Some(false)
    case (WasActiveAt(at), ActDeliberately) => Some(at == now)
    case (ReadsItself(path), SayMediaPath(said)) => Some(said == path)
    case (IsSeenAs(path), SeeMediaPath(seen)) => Some(seen == path)
    case _ => None
  }

  ghost function ProjectionSays(fact: Fact, within: seq<InReach>): Option<bool> {
    match fact
    case IsArmed(on) => if EmitsOn(within, on) then None else Some(false)
    case IsWithin(reach) => Some(reach == within)
    case _ => None
  }

  /** What one event says of a fact about one session. */
  ghost function Says(fact: Fact, id: SessionId, e: Event): Option<bool> {
    match e.act
    case Assume(a, minted) => if minted == id then Some(SeatSays(fact, a, e.at)) else None
    case Do(session, deed) => if session == id then DeedSays(fact, deed, e.at) else None
    case Project(projected, within, _) => if projected == id then ProjectionSays(fact, within) else None
    case NothingIsCarried => if fact.IsSeenAs? then Some(fact.path == Lost) else None
    case _ => None
  }

  /** The last word on a fact, and for a mute whether it landed. */
  ghost predicate Holds(h: History, id: SessionId, fact: Fact)
    decreases |h|
  {
    if h == [] then false
    else if fact.IsMuted? && Latest(h).act == Do(id, Mute(fact.on)) then
      Holds(Before(h), id, fact) || Holds(Before(h), id, IsMonitored(fact.on))
    else match Says(fact, id, Latest(h))
      case Some(said) => said
      case None => Holds(Before(h), id, fact)
  }

  // ---- One event ----------------------------------------------------------------------------------

  lemma {:induction false} ASeatStandsAsSaid(a: Assuming, id: SessionId, now: Instant, fact: Fact)
    ensures Stands(Seated(a, id, now), fact) == SeatSays(fact, a, now)
  {
  }

  lemma {:induction false} OneDeedSetsVolumes(s: Session, ladder: Ladder, deed: Deed, now: Instant)
    ensures Done(s, ladder, deed, now).volumes
         == if deed.SetVolume? then VolumeSet(s.volumes, deed.setOn, deed.volume) else s.volumes
  {
    hide CountAll, AllAgain, WithoutBeacon, NamesWithin, With, Without, VolumeSet;
  }

  lemma {:induction false} OnlyVolumesMoveVolumes(s: Session, ladder: Ladder, deed: Deed, now: Instant, on: LoopId)
    ensures VolumeOn(Done(s, ladder, deed, now).volumes, on)
         == if deed.SetVolume? && deed.setOn == on then Some(deed.volume) else VolumeOn(s.volumes, on)
  {
    hide Done, VolumeOn, VolumeSet;
    OneDeedSetsVolumes(s, ladder, deed, now);
    if deed.SetVolume? { VolumeSetExactly(s.volumes, deed.setOn, deed.volume, on); }
  }

  lemma {:induction false} WhatIsHeardStandsAsSaid(s: Session, ladder: Ladder, deed: Deed, now: Instant, fact: Fact)
    requires SessionOk(s) && (fact.IsMonitored? || fact.IsMuted?)
    ensures
      var after := Done(s, ladder, deed, now);
      Stands(after, fact) ==
        if fact.IsMuted? && deed == Mute(fact.on) then Stands(s, fact) || Stands(s, IsMonitored(fact.on))
        else match DeedSays(fact, deed, now) case Some(said) => said case None => Stands(s, fact)
  {
    hide CountAll, AllAgain, WithoutBeacon, VolumeOn, VolumeSet, NamesWithin, With, Without;
  }

  lemma {:induction false} TheRestStandsAsSaid(s: Session, ladder: Ladder, deed: Deed, now: Instant, fact: Fact)
    requires !fact.IsMonitored? && !fact.IsMuted? && !fact.IsAsLoudAs?
    ensures Stands(Done(s, ladder, deed, now), fact)
         == match DeedSays(fact, deed, now) case Some(said) => said case None => Stands(s, fact)
  {
    hide CountAll, AllAgain, WithoutBeacon, VolumeOn, VolumeSet, NamesWithin, With, Without;
  }

  lemma {:induction false} ADeedStandsAsSaid(s: Session, ladder: Ladder, deed: Deed, now: Instant, fact: Fact)
    requires SessionOk(s)
    ensures
      var after := Done(s, ladder, deed, now);
      Stands(after, fact) ==
        if fact.IsMuted? && deed == Mute(fact.on) then Stands(s, fact) || Stands(s, IsMonitored(fact.on))
        else match DeedSays(fact, deed, now) case Some(said) => said case None => Stands(s, fact)
  {
    hide Done, VolumeOn;
    if fact.IsAsLoudAs? {
      OnlyVolumesMoveVolumes(s, ladder, deed, now, fact.on);
    } else {
      hide Stands, DeedSays;
      if fact.IsMonitored? || fact.IsMuted? {
        WhatIsHeardStandsAsSaid(s, ladder, deed, now, fact);
      } else {
        TheRestStandsAsSaid(s, ladder, deed, now, fact);
      }
    }
  }

  lemma {:induction false} AProjectionStandsAsSaid(s: Session, within: seq<InReach>, document: Presence, fact: Fact)
    ensures Stands(s.Within(within).Shown(document), fact)
         == match ProjectionSays(fact, within) case Some(said) => said case None => Stands(s, fact)
  {
    hide StillRouted;
  }

  lemma {:induction false} OneEventStandsAsSaid(l: Live, s: Session, e: Event, fact: Fact)
    requires IsLive(l.sessions, s.id) && SessionOk(s)
    requires !(e.act.Assume? && e.act.minted == s.id)
    ensures Stands(Changed(l, s, e), fact) ==
      if fact.IsMuted? && e.act == Do(s.id, Mute(fact.on)) then Stands(s, fact) || Stands(s, IsMonitored(fact.on))
      else match Says(fact, s.id, e) case Some(said) => said case None => Stands(s, fact)
  {
    hide Done, Projected, DeedSays, ProjectionSays;
    if e.act.Do? && e.act.session == s.id {
      hide Stands;
      ADeedStandsAsSaid(s, l.ladder, e.act.deed, e.at, fact);
    } else if e.act.Project? && e.act.projected == s.id {
      hide Stands;
      var document := Projected(l, At(l.sessions, s.id), e.act.within, e.act.staffed, e.at);
      AProjectionStandsAsSaid(s, e.act.within, document, fact);
    }
  }

  // ---- Every run ------------------------------------------------------------------------------------

  lemma {:induction false} ANewSessionStandsAsSaid(ladder: Ladder, before: History, e: Event, fact: Fact)
    requires Legal(before) && e.act.Assume? && MayFollow(before, e)
    requires IsLive(Step(After(ladder, before), e).sessions, e.act.minted)
    ensures Stands(Held(Step(After(ladder, before), e).sessions, e.act.minted), fact)
         == SeatSays(fact, e.act.assuming, e.at)
  {
    hide After, Stands, SeatSays, Seated, MayFollow;
    EveryRunIsCoherent(ladder, before);
    var l := After(ladder, before);
    ASeatStandsAsSaid(e.act.assuming, e.act.minted, e.at, fact);
    if IsFull(l.sessions, e.act.assuming) {
      FreshIsNotLive(ladder, before, e);
    } else {
      FreshIsNotMinted(before, e);
      WhoIsSeated(l, MintedIn(before), e.act.assuming, e.act.minted, e.at);
    }
  }

  lemma {:induction false} FreshIsNotMinted(before: History, e: Event)
    requires e.act.Assume? && MayFollow(before, e)
    ensures e.act.minted !in MintedIn(before)
  {
  }

  lemma {:induction false} FreshIsNotLive(ladder: Ladder, before: History, e: Event)
    requires Legal(before) && e.act.Assume? && MayFollow(before, e)
    ensures !IsLive(After(ladder, before).sessions, e.act.minted)
  {
    NeverMinted(ladder, before, e.act.minted);
  }

  /** In every state any run reaches, every fact of every live session is what its last word left
      it: nothing said about one loop or one session moves another, nothing is lost, and nothing
      is undone that was not said. */
  lemma {:induction false} TheLastWordStands(ladder: Ladder, h: History, id: SessionId, fact: Fact)
    requires Legal(h) && IsLive(After(ladder, h).sessions, id)
    ensures Stands(Held(After(ladder, h).sessions, id), fact) == Holds(h, id, fact)
    decreases |h|
  {
    hide Step, Changed, Ends, Stands, Says, Coherent, SeatSays;
    if h != [] {
      var l, e, before := After(ladder, Before(h)), Latest(h), Before(h);
      EveryRunIsCoherent(ladder, before);
      if e.act.Assume? && e.act.minted == id {
        ANewSessionStandsAsSaid(ladder, before, e, fact);
        TheSeatSpeaks(fact, id, e);
      } else if id in MintedIn(before) {
        OneSessionAlong(l, MintedIn(before), e, id);
        var s := Held(l.sessions, id);
        InOrderAmong(l, MintedIn(before), s);
        OneEventStandsAsSaid(l, s, e, fact);
        TheLastWordStands(ladder, before, id, fact);
        if fact.IsMuted? { TheLastWordStands(ladder, before, id, IsMonitored(fact.on)); }
      } else {
        NeverMinted(ladder, h, id);
      }
    }
  }

  lemma {:induction false} TheSeatSpeaks(fact: Fact, id: SessionId, e: Event)
    requires e.act.Assume? && e.act.minted == id
    ensures Says(fact, id, e) == Some(SeatSays(fact, e.act.assuming, e.at))
  {
  }

  lemma {:induction false} InOrderAmong(l: Live, minted: set<SessionId>, s: Session)
    requires Coherent(l, minted) && s in l.sessions
    ensures SessionOk(s)
  {
  }
}
