/** Loop health refines the history of reports: what `Counting` keeps in three fields is read
    off everything that happened to the beacon since its loop was taken up. */
module Health {
  import opened Basics
  import opened Names
  import opened Deployment
  import opened Sessions
  import opened LiveState
  import opened Invariants
  import opened Runs

  /** What bears on one loop's health in one session, in the order it happened. */
  datatype Mark =
    | TakenUp(at: Instant)
    | CameBack(at: Instant)
    | Reported(total: nat, at: Instant)

  type Log = seq<Mark>

  // ---- What a log says, without any counter ------------------------------------------------

  /** Where the measurement began: the loop taken up, or the channel last back. */
  ghost function Began(log: Log): nat
    requires log != []
    ensures Began(log) < |log|
  {
    if |log| == 1 || !log[|log| - 1].Reported? then |log| - 1 else Began(log[..|log| - 1])
  }

  /** The running total as it stood before the k-th mark: the latest one reported, or nothing. */
  ghost function TotalBefore(log: Log, k: nat): nat
    requires k <= |log|
  {
    if k == 0 then 0
    else if log[k - 1].Reported? then log[k - 1].total
    else TotalBefore(log, k - 1)
  }

  /** The k-th mark is a report that moved the running total to something. */
  ghost predicate Arrival(log: Log, k: nat)
    requires k < |log|
  {
    log[k].Reported? && log[k].total > 0 && log[k].total != TotalBefore(log, k)
  }

  ghost predicate HeardLately(log: Log, now: Instant)
    requires log != []
  {
    exists k :: Began(log) < k < |log| && Arrival(log, k) && Since(now, log[k].at) < A_BEACON_IS_LOST_AFTER
  }

  ghost predicate NothingHeard(log: Log)
    requires log != []
  {
    forall k :: Began(log) < k < |log| ==> !Arrival(log, k)
  }

  ghost predicate JustBegun(log: Log, now: Instant)
    requires log != []
  {
    Since(now, log[Began(log)].at) < A_BEACON_IS_LOST_AFTER
  }

  ghost function HealthFrom(log: Log, now: Instant): LoopHealth
    requires log != []
  {
    if HeardLately(log, now) then Receiving
    else if NothingHeard(log) && JustBegun(log, now) then Checking
    else LoopHealth.NotReceiving
  }

  // ---- The log of a run -------------------------------------------------------------------

  /** One message's totals for one loop, in the order it gave them. */
  ghost function ReportsFor(totals: seq<Total>, on: LoopId, at: Instant): Log {
    if totals == [] then []
    else ReportsFor(totals[..|totals| - 1], on, at)
         + if totals[|totals| - 1].heldOn == on then [Reported(totals[|totals| - 1].packets, at)] else []
  }

  /** What one deed adds to the log. An empty log is a loop nobody is measuring. */
  ghost function Noted(log: Log, rung: Connection, deed: Deed, on: LoopId, at: Instant): Log {
    match deed
    case Subscribe(to) => if to == on && log == [] then [TakenUp(at)] else log
    case Unsubscribe(from) => if from == on then [] else log
    case AnswerTheHeartbeat => if log != [] && rung != Confirmed then log + [CameBack(at)] else log
    case CountBeacons(totals) => if log != [] then log + ReportsFor(totals, on, at) else log
    case _ => log
  }

  /** The log of one loop on one session, one event on. */
  ghost function LogNext(l: Live, log: Log, e: Event, id: SessionId, on: LoopId): Log {
    if e.act.Assume? && e.act.minted == id then
      if !IsFull(l.sessions, e.act.assuming) && on in e.act.assuming.subscribedTo then [TakenUp(e.at)] else []
    else if !IsLive(l.sessions, id) || Ends(l, Held(l.sessions, id), e) then []
    else if e.act.Do? && e.act.session == id then
      Noted(log, Held(l.sessions, id).ConnectionAt(l.ladder, e.at), e.act.deed, on, e.at)
    else log
  }

  ghost function LogOf(ladder: Ladder, h: History, id: SessionId, on: LoopId): Log {
    if h == [] then []
    else LogNext(After(ladder, Before(h)), LogOf(ladder, Before(h), id, on), Latest(h), id, on)
  }

  // ---- The counter a log amounts to --------------------------------------------------------

  ghost function LastArrival(log: Log): Option<Instant>
    requires log != []
    decreases |log|
  {
    if |log| == 1 || !log[|log| - 1].Reported? then None
    else if Arrival(log, |log| - 1) then Some(log[|log| - 1].at)
    else LastArrival(log[..|log| - 1])
  }

  ghost function Measured(log: Log, on: LoopId): Counting
    requires log != []
  {
    Counting(on, TotalBefore(log, |log|), LastArrival(log), log[Began(log)].at)
  }

  ghost predicate InOrder(log: Log, now: Instant) {
    && (forall i, j :: 0 <= i < j < |log| ==> log[i].at <= log[j].at)
    && (forall i :: 0 <= i < |log| ==> log[i].at <= now)
  }

  lemma {:induction false} TotalOfPrefix(log: Log, mark: Mark, k: nat)
    requires k <= |log|
    ensures TotalBefore(log + [mark], k) == TotalBefore(log, k)
  {
    if k > 0 { TotalOfPrefix(log, mark, k - 1); }
  }

  lemma {:induction false} ArrivalsSoFar(log: Log)
    requires log != []
    ensures forall k :: 0 <= k < |log| - 1 ==> (Arrival(log, k) <==> Arrival(log[..|log| - 1], k))
  {
    var front, last := log[..|log| - 1], |log| - 1;
    assert log == front + [log[last]];
    forall k | 0 <= k < last ensures Arrival(log, k) <==> Arrival(front, k) {
      TotalOfPrefix(front, log[last], k);
    }
  }

  lemma {:induction false} OneReportOn(log: Log)
    requires |log| > 1 && log[|log| - 1].Reported?
    ensures Began(log) == Began(log[..|log| - 1])
    ensures LastArrival(log)
         == if Arrival(log, |log| - 1) then Some(log[|log| - 1].at) else LastArrival(log[..|log| - 1])
  {
    hide Arrival;
  }

  /** The last arrival is the latest of them all since the measurement began. */
  lemma {:induction false} LastArrivalIsLatest(log: Log)
    requires log != []
    ensures LastArrival(log).None? <==> NothingHeard(log)
    ensures LastArrival(log).Some? ==>
      exists k :: Began(log) < k < |log| && Arrival(log, k) && log[k].at == LastArrival(log).value
        && forall i :: k < i < |log| ==> !Arrival(log, i)
  {
    if |log| > 1 && log[|log| - 1].Reported? {
      hide Arrival, LastArrival, Began;
      var front, last := log[..|log| - 1], |log| - 1;
      ArrivalsSoFar(log);
      OneReportOn(log);
      LastArrivalIsLatest(front);
      if !Arrival(log, last) && LastArrival(front).Some? {
        var k :| Began(front) < k < |front| && Arrival(front, k) && front[k].at == LastArrival(front).value
          && forall i :: k < i < |front| ==> !Arrival(front, i);
        assert Arrival(log, k) && log[k].at == LastArrival(log).value;
      }
    }
  }

  /** Three fields are enough: the counter's health is what the whole log says. */
  lemma {:induction false} CounterReadsTheLog(log: Log, on: LoopId, now: Instant)
    requires log != [] && InOrder(log, now)
    ensures Measured(log, on).Health(now) == HealthFrom(log, now)
  {
    LastArrivalIsLatest(log);
    if LastArrival(log).Some? {
      var k :| Began(log) < k < |log| && Arrival(log, k) && log[k].at == LastArrival(log).value
        && forall i :: k < i < |log| ==> !Arrival(log, i);
      forall j | Began(log) < j < |log| && Arrival(log, j)
        ensures log[j].at <= log[k].at
      {
        assert j <= k;
      }
    }
  }

  // ---- The counter keeps up with the log ---------------------------------------------------

  lemma {:induction false} MeasuredOneMore(log: Log, on: LoopId, total: nat, at: Instant)
    requires log != []
    ensures Measured(log + [Reported(total, at)], on) == Measured(log, on).Counted(total, at)
  {
    var more := log + [Reported(total, at)];
    assert more[..|log|] == log;
    TotalOfPrefix(log, Reported(total, at), |log|);
  }

  lemma {:induction false} BeaconAfterOne(beacons: seq<Counting>, total: Total, now: Instant, on: LoopId)
    ensures BeaconFor(CountOne(beacons, total, now), on)
         == if BeaconFor(beacons, on).Some? && total.heldOn == on
            then Some(BeaconFor(beacons, on).value.Counted(total.packets, now))
            else BeaconFor(beacons, on)
  {
    if beacons != [] && beacons[0].heldOn != total.heldOn {
      BeaconAfterOne(beacons[1..], total, now, on);
    }
  }

  lemma {:induction false} BeaconAfterAll(beacons: seq<Counting>, totals: seq<Total>, now: Instant, on: LoopId,
      log: Log)
    requires log != [] && BeaconFor(beacons, on) == Some(Measured(log, on))
    ensures log + ReportsFor(totals, on, now) != []
    ensures BeaconFor(CountAll(beacons, totals, now), on) == Some(Measured(log + ReportsFor(totals, on, now), on))
  {
    if totals == [] {
      assert log + ReportsFor(totals, on, now) == log;
    } else {
      var front, last := totals[..|totals| - 1], totals[|totals| - 1];
      BeaconAfterAll(beacons, front, now, on, log);
      BeaconAfterOne(CountAll(beacons, front, now), last, now, on);
      var before := log + ReportsFor(front, on, now);
      if last.heldOn == on {
        MeasuredOneMore(before, on, last.packets, now);
        assert log + ReportsFor(totals, on, now) == before + [Reported(last.packets, now)];
      } else {
        assert log + ReportsFor(totals, on, now) == before;
      }
    }
  }

  lemma {:induction false} BeaconAgain(beacons: seq<Counting>, now: Instant, on: LoopId)
    ensures BeaconFor(AllAgain(beacons, now), on)
         == if BeaconFor(beacons, on).Some? then Some(BeaconFor(beacons, on).value.Again(now)) else None
  {
    if beacons != [] {
      assert AllAgain(beacons, now)[1..] == AllAgain(beacons[1..], now);
      BeaconAgain(beacons[1..], now, on);
    }
  }

  lemma {:induction false} BeaconWithout(beacons: seq<Counting>, from: LoopId, on: LoopId)
    ensures BeaconFor(WithoutBeacon(beacons, from), on) == if from == on then None else BeaconFor(beacons, on)
  {
    if beacons != [] {
      var front, last := beacons[..|beacons| - 1], beacons[|beacons| - 1];
      assert beacons == front + [last];
      BeaconWithout(front, from, on);
      BeaconAppended(front, last, on);
      BeaconAppended(WithoutBeacon(front, from), last, on);
    }
  }

  lemma {:induction false} BeaconAppended(beacons: seq<Counting>, last: Counting, on: LoopId)
    ensures BeaconFor(beacons + [last], on)
         == if BeaconFor(beacons, on).Some? then BeaconFor(beacons, on)
            else if last.heldOn == on then Some(last) else None
  {
    if beacons != [] {
      assert (beacons + [last])[1..] == beacons[1..] + [last];
      BeaconAppended(beacons[1..], last, on);
    }
  }

  lemma {:induction false} BeaconStarting(loops: seq<LoopId>, now: Instant, on: LoopId)
    ensures BeaconFor(AllStarting(loops, now), on) == if on in loops then Some(Counting.Starting(on, now)) else None
  {
    if loops != [] {
      assert AllStarting(loops, now)[1..] == AllStarting(loops[1..], now);
      BeaconStarting(loops[1..], now, on);
    }
  }

  /** The session's counter for the loop is the one its log amounts to, and there is one
      exactly while there is a log. */
  ghost predicate Tracks(s: Session, log: Log, on: LoopId) {
    BeaconFor(s.beacons, on) == if log == [] then None else Some(Measured(log, on))
  }

  lemma {:induction false} FreshLog(on: LoopId, at: Instant)
    ensures Measured([TakenUp(at)], on) == Counting.Starting(on, at)
  {
    assert TotalBefore([TakenUp(at)], 1) == TotalBefore([TakenUp(at)], 0);
  }

  lemma {:induction false} SubscribingTracks(s: Session, ladder: Ladder, to: LoopId, now: Instant, on: LoopId, log: Log)
    requires SessionOk(s) && Tracks(s, log, on)
    ensures Tracks(Done(s, ladder, Subscribe(to), now), if to == on && log == [] then [TakenUp(now)] else log, on)
  {
    SubscribedIsMeasured(s, to);
    FreshLog(on, now);
    if to !in s.subscriptions { BeaconAppended(s.beacons, Counting.Starting(to, now), on); }
  }

  lemma {:induction false} ComingBackTracks(s: Session, now: Instant, on: LoopId, log: Log)
    requires Tracks(s, log, on)
    ensures Tracks(s.(beacons := AllAgain(s.beacons, now)), if log != [] then log + [CameBack(now)] else log, on)
  {
    BeaconAgain(s.beacons, now, on);
    if log != [] {
      var more := log + [CameBack(now)];
      assert more[..|log|] == log;
      TotalOfPrefix(log, CameBack(now), |log|);
    }
  }

  lemma {:induction false} CountingTracks(s: Session, totals: seq<Total>, now: Instant, on: LoopId, log: Log)
    requires Tracks(s, log, on)
    ensures
      var counted := if log != [] then log + ReportsFor(totals, on, now) else log;
      Tracks(s.(beacons := CountAll(s.beacons, totals, now)), counted, on)
  {
    if log != [] {
      BeaconAfterAll(s.beacons, totals, now, on, log);
    } else {
      NobodyMeasures(s.beacons, totals, now, on);
    }
  }

  lemma {:induction false} DeedTracks(s: Session, ladder: Ladder, deed: Deed, now: Instant, on: LoopId, log: Log)
    requires SessionOk(s) && Tracks(s, log, on)
    ensures Tracks(Done(s, ladder, deed, now), Noted(log, s.ConnectionAt(ladder, now), deed, on, now), on)
  {
    hide Measured, SessionOk, CountAll, AllAgain, WithoutBeacon;
    match deed
    case Subscribe(to) => SubscribingTracks(s, ladder, to, now, on, log);
    case Unsubscribe(from) => BeaconWithout(s.beacons, from, on);
    case AnswerTheHeartbeat => ComingBackTracks(s, now, on, log);
    case CountBeacons(totals) => CountingTracks(s, totals, now, on, log);
    case _ =>
  }

  lemma {:induction false} SubscribedIsMeasured(s: Session, on: LoopId)
    requires SessionOk(s)
    ensures on in s.subscriptions <==> BeaconFor(s.beacons, on).Some?
  {
    if on in s.subscriptions {
      var i :| 0 <= i < |s.subscriptions| && s.subscriptions[i] == on;
      assert s.beacons[i] in s.beacons && s.beacons[i].heldOn == on;
    }
    if BeaconFor(s.beacons, on).Some? {
      var i :| 0 <= i < |s.beacons| && s.beacons[i] == BeaconFor(s.beacons, on).value;
      assert s.subscriptions[i] == on;
    }
  }

  lemma {:induction false} NobodyMeasures(beacons: seq<Counting>, totals: seq<Total>, now: Instant, on: LoopId)
    requires BeaconFor(beacons, on).None?
    ensures BeaconFor(CountAll(beacons, totals, now), on).None?
  {
    if totals != [] {
      NobodyMeasures(beacons, totals[..|totals| - 1], now, on);
      BeaconAfterOne(CountAll(beacons, totals[..|totals| - 1], now), totals[|totals| - 1], now, on);
    }
  }

  lemma {:induction false} ChangeTracks(l: Live, s: Session, e: Event, on: LoopId, log: Log)
    requires IsLive(l.sessions, s.id) && SessionOk(s) && Tracks(s, log, on)
    ensures
      var next :=
        if e.act.Do? && e.act.session == s.id
        then Noted(log, s.ConnectionAt(l.ladder, e.at), e.act.deed, on, e.at) else log;
      Tracks(Changed(l, s, e), next, on)
  {
    hide Done, Projected, StillRouted, Noted, Measured, SessionOk;
    if e.act.Do? && e.act.session == s.id { DeedTracks(s, l.ladder, e.act.deed, e.at, on, log); }
  }

  lemma {:induction false} SeatTracks(a: Assuming, id: SessionId, now: Instant, on: LoopId)
    ensures Tracks(Seated(a, id, now), if on in a.subscribedTo then [TakenUp(now)] else [], on)
  {
    BeaconStarting(a.subscribedTo, now, on);
    FreshLog(on, now);
  }

  /** Along every run, each counter is what its log amounts to, and a session that is not there
      has no log. */
  lemma {:induction false} CountersTrackTheirLogs(ladder: Ladder, h: History, id: SessionId, on: LoopId)
    requires Legal(h)
    ensures IsLive(After(ladder, h).sessions, id) ==>
      Tracks(Held(After(ladder, h).sessions, id), LogOf(ladder, h, id, on), on)
    ensures !IsLive(After(ladder, h).sessions, id) ==> LogOf(ladder, h, id, on) == []
  {
    if h != [] {
      hide Step;
      var e, before := Latest(h), Before(h);
      CountersTrackTheirLogs(ladder, before, id, on);
      EveryRunIsCoherent(ladder, before);
      LadderStands(ladder, before);
      if e.act.Assume? && e.act.minted == id {
        NewcomerTracks(ladder, before, e, on);
      } else if id in MintedIn(before) {
        CounterTracksOn(After(ladder, before), MintedIn(before), e, id, on, LogOf(ladder, before, id, on));
      } else {
        NeverMinted(ladder, before, id);
        NeverMinted(ladder, h, id);
      }
    }
  }

  lemma {:induction false} NeverMinted(ladder: Ladder, h: History, id: SessionId)
    requires Legal(h) && id !in MintedIn(h)
    ensures !IsLive(After(ladder, h).sessions, id)
  {
    if IsLive(After(ladder, h).sessions, id) { LiveIsMinted(ladder, h, id); }
  }

  lemma {:induction false} CounterTracksOn(l: Live, minted: set<SessionId>, e: Event, id: SessionId, on: LoopId,
      log: Log)
    requires Coherent(l, minted) && id in minted
    requires e.act.Assume? ==> e.act.minted !in minted
    requires IsLive(l.sessions, id) ==> Tracks(Held(l.sessions, id), log, on)
    ensures IsLive(Step(l, e).sessions, id) ==>
      && IsLive(l.sessions, id) && !Ends(l, Held(l.sessions, id), e)
      && var next :=
           if e.act.Do? && e.act.session == id
           then Noted(log, Held(l.sessions, id).ConnectionAt(l.ladder, e.at), e.act.deed, on, e.at) else log;
         Tracks(Held(Step(l, e).sessions, id), next, on)
    ensures !IsLive(Step(l, e).sessions, id) ==> !IsLive(l.sessions, id) || Ends(l, Held(l.sessions, id), e)
  {
    hide Step;
    OneSessionAlong(l, minted, e, id);
    if IsLive(l.sessions, id) { ChangeTracks(l, Held(l.sessions, id), e, on, log); }
  }

  lemma {:induction false} NewcomerTracks(ladder: Ladder, before: History, e: Event, on: LoopId)
    requires Legal(before) && e.act.Assume? && MayFollow(before, e)
    ensures
      var l, id := After(ladder, before), e.act.minted;
      && (IsFull(l.sessions, e.act.assuming) <==> !IsLive(Step(l, e).sessions, id))
      && (IsLive(Step(l, e).sessions, id) ==>
            var log := if on in e.act.assuming.subscribedTo then [TakenUp(e.at)] else [];
            Tracks(Held(Step(l, e).sessions, id), log, on))
  {
    var l, id := After(ladder, before), e.act.minted;
    EveryRunIsCoherent(ladder, before);
    SeatTracks(e.act.assuming, id, e.at, on);
    if IsFull(l.sessions, e.act.assuming) {
      NeverMinted(ladder, before, id);
    } else {
      WhoIsSeated(l, MintedIn(before), e.act.assuming, id, e.at);
    }
  }

  // ---- The log is in order ----------------------------------------------------------------

  lemma {:induction false} ReportsAt(totals: seq<Total>, on: LoopId, at: Instant)
    ensures forall i :: 0 <= i < |ReportsFor(totals, on, at)| ==> ReportsFor(totals, on, at)[i].at == at
  {
    if totals != [] { ReportsAt(totals[..|totals| - 1], on, at); }
  }

  lemma {:induction false} NotedInOrder(log: Log, rung: Connection, deed: Deed, on: LoopId, at: Instant,
      before: Instant)
    requires InOrder(log, before) && before <= at
    ensures InOrder(Noted(log, rung, deed, on, at), at)
  {
    if deed.CountBeacons? { ReportsAt(deed.totals, on, at); }
  }

  lemma {:induction false} NextInOrder(l: Live, log: Log, e: Event, id: SessionId, on: LoopId, before: Instant)
    requires InOrder(log, before) && before <= e.at
    ensures InOrder(LogNext(l, log, e, id, on), e.at)
  {
    hide Noted, Ends, IsFull;
    if e.act.Do? && IsLive(l.sessions, id) {
      NotedInOrder(log, Held(l.sessions, id).ConnectionAt(l.ladder, e.at), e.act.deed, on, e.at, before);
    }
  }

  lemma {:induction false} LogsAreInOrder(ladder: Ladder, h: History, id: SessionId, on: LoopId)
    requires Legal(h)
    ensures InOrder(LogOf(ladder, h, id, on), Clock(h))
  {
    if h != [] {
      hide Step, After, LogNext, InOrder;
      LogsAreInOrder(ladder, Before(h), id, on);
      NextInOrder(
        After(ladder, Before(h)), LogOf(ladder, Before(h), id, on), Latest(h), id, on, Clock(Before(h)));
    }
  }

  // ---- The results ------------------------------------------------------------------------

  /** A monitored loop on a confirmed channel reads Receiving exactly when some report since the
      measurement began moved its total to something within the window, Checking exactly when
      none has and the measurement began within it, and NotReceiving otherwise; any other loop
      reads nothing. */
  lemma {:induction false} HealthIsWhatWasReported(ladder: Ladder, h: History, id: SessionId, on: LoopId, now: Instant)
    requires Legal(h) && Clock(h) <= now && IsLive(After(ladder, h).sessions, id)
    ensures
      var s, log := Held(After(ladder, h).sessions, id), LogOf(ladder, h, id, on);
      if s.Monitors(on) && s.ConnectionAt(ladder, now) == Confirmed
      then log != [] && s.HealthOf(on, ladder, now) == Some(HealthFrom(log, now))
      else s.HealthOf(on, ladder, now) == None
  {
    hide Step;
    var s, log := Held(After(ladder, h).sessions, id), LogOf(ladder, h, id, on);
    EveryRunIsCoherent(ladder, h);
    assert s in After(ladder, h).sessions;
    CountersTrackTheirLogs(ladder, h, id, on);
    SubscribedIsMeasured(s, on);
    LogsAreInOrder(ladder, h, id, on);
    if log != [] { CounterReadsTheLog(log, on, now); }
  }

  ghost predicate BeganSince(log: Log, back: Instant) {
    log != [] ==> log[Began(log)].at >= back
  }

  lemma {:induction false} ReportsKeepTheBeginning(log: Log, more: Log)
    requires log != [] && forall i :: 0 <= i < |more| ==> more[i].Reported?
    ensures Began(log + more) == Began(log)
  {
    if more != [] {
      assert (log + more)[..|log + more| - 1] == log + more[..|more| - 1];
      ReportsKeepTheBeginning(log, more[..|more| - 1]);
    } else {
      assert log + more == log;
    }
  }

  lemma {:induction false} ReportsAreReports(totals: seq<Total>, on: LoopId, at: Instant)
    ensures forall i :: 0 <= i < |ReportsFor(totals, on, at)| ==> ReportsFor(totals, on, at)[i].Reported?
  {
    if totals != [] { ReportsAreReports(totals[..|totals| - 1], on, at); }
  }

  lemma {:induction false} NotedBeganSince(log: Log, rung: Connection, deed: Deed, on: LoopId, at: Instant,
      back: Instant)
    requires BeganSince(log, back) && back <= at
    ensures BeganSince(Noted(log, rung, deed, on, at), back)
  {
    if deed.CountBeacons? && log != [] {
      ReportsAreReports(deed.totals, on, at);
      ReportsKeepTheBeginning(log, ReportsFor(deed.totals, on, at));
    }
  }

  /** The i-th event is a heartbeat answered by a live session whose channel was not confirmed. */
  ghost predicate OutageEnds(ladder: Ladder, h: History, i: nat, id: SessionId)
    requires i < |h|
  {
    var l := After(ladder, h[..i]);
    && h[i].act == Do(id, AnswerTheHeartbeat)
    && IsLive(l.sessions, id)
    && Held(l.sessions, id).ConnectionAt(ladder, h[i].at) != Confirmed
  }

  lemma {:induction false} NextBeganSince(l: Live, log: Log, e: Event, id: SessionId, on: LoopId, back: Instant)
    requires BeganSince(log, back) && back <= e.at
    ensures BeganSince(LogNext(l, log, e, id, on), back)
  {
    hide Noted, Ends, IsFull;
    if e.act.Do? && IsLive(l.sessions, id) {
      NotedBeganSince(log, Held(l.sessions, id).ConnectionAt(l.ladder, e.at), e.act.deed, on, e.at, back);
    }
  }

  lemma {:induction false} ComingBackBegins(l: Live, log: Log, e: Event, id: SessionId, on: LoopId)
    requires e.act == Do(id, AnswerTheHeartbeat) && IsLive(l.sessions, id)
    requires Held(l.sessions, id).ConnectionAt(l.ladder, e.at) != Confirmed
    ensures BeganSince(LogNext(l, log, e, id, on), e.at)
  {
  }

  lemma {:induction false} MeasuredSinceTheOutage(ladder: Ladder, h: History, i: nat, n: nat, id: SessionId, on: LoopId)
    requires Legal(h) && i < n <= |h| && OutageEnds(ladder, h, i, id)
    ensures BeganSince(LogOf(ladder, h[..n], id, on), h[i].at)
    ensures h[i].at <= Clock(h[..n])
    decreases n
  {
    hide Step, After, LogNext, BeganSince;
    PrefixStep(ladder, h, n - 1);
    LadderStands(ladder, h[..n - 1]);
    assert Before(h[..n]) == h[..n - 1] && Latest(h[..n]) == h[n - 1];
    var l, log := After(ladder, h[..n - 1]), LogOf(ladder, h[..n - 1], id, on);
    if i < n - 1 {
      MeasuredSinceTheOutage(ladder, h, i, n - 1, id, on);
      NextBeganSince(l, log, h[n - 1], id, on, h[i].at);
    } else {
      ComingBackBegins(l, log, h[n - 1], id, on);
    }
  }

  /** A channel back from an outage gives every loop the whole window: however the run goes on,
      none reads as lost within fifteen seconds of the heartbeat that ended it. */
  lemma {:induction false} NothingIsLostJustAfterAnOutage(ladder: Ladder, h: History, i: nat, id: SessionId,
      on: LoopId, now: Instant)
    requires Legal(h) && i < |h| && OutageEnds(ladder, h, i, id)
    requires IsLive(After(ladder, h).sessions, id)
    requires Clock(h) <= now < h[i].at + A_BEACON_IS_LOST_AFTER
    ensures Held(After(ladder, h).sessions, id).HealthOf(on, ladder, now) != Some(LoopHealth.NotReceiving)
  {
    hide Step, After;
    assert h[..|h|] == h;
    MeasuredSinceTheOutage(ladder, h, i, |h|, id, on);
    HealthIsWhatWasReported(ladder, h, id, on, now);
    var log := LogOf(ladder, h, id, on);
    LogsAreInOrder(ladder, h, id, on);
    if log != [] && !NothingHeard(log) {
      var k :| Began(log) < k < |log| && Arrival(log, k);
      assert log[Began(log)].at <= log[k].at;
      assert HeardLately(log, now);
    }
  }

  /** A client that says nothing is never left being checked: with no report for a loop since
      its measurement began, the loop is lost from the moment the window has run out. */
  lemma {:induction false} ASilentClientIsNotLeftChecking(ladder: Ladder, h: History, id: SessionId, on: LoopId,
      now: Instant)
    requires Legal(h) && Clock(h) <= now
    ensures IsLive(After(ladder, h).sessions, id) ==>
      var s, log := Held(After(ladder, h).sessions, id), LogOf(ladder, h, id, on);
      s.Monitors(on) && s.ConnectionAt(ladder, now) == Confirmed ==>
        && log != []
        && var waited := Since(now, log[Began(log)].at);
           (forall k :: Began(log) < k < |log| ==> !log[k].Reported?) ==>
             s.HealthOf(on, ladder, now)
               == Some(if waited < A_BEACON_IS_LOST_AFTER then Checking else LoopHealth.NotReceiving)
  {
    hide Step, After;
    if IsLive(After(ladder, h).sessions, id) { HealthIsWhatWasReported(ladder, h, id, on, now); }
  }
}
