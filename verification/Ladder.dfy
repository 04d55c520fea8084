/** The four timers of the signalling channel and the check that admits them
    (`src/configuration/deployment.rs`). Every value is in seconds. */
module Deployment {
  import opened Basics

  datatype Setting = HeartbeatTimer | UnconfirmedTimer | LatchTimer | DisconnectedTimer | TheClimb | TheLatch

  datatype LadderError =
    | NotALadder(about: Setting)
    | PastTheCeiling(setting: Setting, said: nat, ceiling: nat)

  datatype Ceiling = Ceiling(setting: Setting, said: nat, ceiling: nat)

  const SECOND: nat := 1_000_000_000

  datatype Ladder = Ladder(heartbeat: nat, unconfirmed: nat, latchDropped: nat, disconnected: nat) {
    function Ceilings(): seq<Ceiling> {
      [Ceiling(HeartbeatTimer, heartbeat, 10),
       Ceiling(UnconfirmedTimer, unconfirmed, 30),
       Ceiling(LatchTimer, latchDropped, 10),
       Ceiling(DisconnectedTimer, disconnected, 30)]
    }

    /** The first setting that is no timer at all or is past its ceiling. */
    static function PastACeiling(settings: seq<Ceiling>): Option<LadderError> {
      if settings == [] then None
      else if settings[0].said == 0 then Some(NotALadder(settings[0].setting))
      else if settings[0].said > settings[0].ceiling then
        Some(PastTheCeiling(settings[0].setting, settings[0].said, settings[0].ceiling))
      else PastACeiling(settings[1..])
    }

    function Check(): Result<(), LadderError> {
      match PastACeiling(Ceilings())
      case Some(error) => Err(error)
      case None =>
        if heartbeat >= unconfirmed || unconfirmed >= disconnected then Err(NotALadder(TheClimb))
        else if unconfirmed + latchDropped >= disconnected then Err(NotALadder(TheLatch))
        else Ok(())
    }

    predicate Accepted() { Check().Ok? }
  }

  const THE_DEFAULT_LADDER := Ladder(2, 5, 2, 12)

  /** The check accepts exactly the ladders whose rungs climb under their ceilings with room
      for a latch to be dropped before emission is withdrawn. */
  lemma {:induction false} AcceptedExactly(l: Ladder)
    ensures l.Accepted() <==>
              && 1 <= l.heartbeat <= 10
              && l.heartbeat < l.unconfirmed < l.disconnected <= 30
              && 1 <= l.latchDropped <= 10
              && l.unconfirmed + l.latchDropped < l.disconnected
  {
    var c := l.Ceilings();
    assert c[1..] == [c[1], c[2], c[3]];
    assert c[1..][1..] == [c[2], c[3]];
    assert c[1..][1..][1..] == [c[3]];
    assert c[1..][1..][1..][1..] == [];
    assert Ladder.PastACeiling([]).None?;
    assert Ladder.PastACeiling([c[3]]).None? <==> 1 <= l.disconnected <= 30;
    assert Ladder.PastACeiling([c[2], c[3]]).None? <==> 1 <= l.latchDropped <= 10 && 1 <= l.disconnected <= 30;
    assert Ladder.PastACeiling([c[1], c[2], c[3]]).None? <==>
      1 <= l.unconfirmed <= 30 && Ladder.PastACeiling([c[2], c[3]]).None?;
  }
}
