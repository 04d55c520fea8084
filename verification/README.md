# VoxLoop: a verified model of its live state and what gives it meaning

VoxLoop seats people in roles, lets each role monitor and speak on loops as a grid of permissions
allows, and tells every console what is true of every loop it may hear. This project models the
parts of it that decide who hears whom and what a console is told, and proves what they keep over
every run.

- **The state authority** (`LiveState.dfy`, `Sessions.dfy`, `StateAuthority.dfy`). Everything live
  is one value, `Live`; `Step` and `Told` say what each event does to it and is answered. The class
  `StateAuthority` holds the same fields and updates them in place, one method to an operation,
  loops and early returns included; every method is proved to do exactly one event of its ghost
  history, so a theorem about legal runs (`After(ladder, history)`) is a theorem about the object.
- **What every run keeps** (`Invariants`, `LastWords`, `Endings`, `Documents`, `Consoles`, `Health`,
  `Presses`, `Versions`, `FanOuts`, `StaffingFold`, `Routes`, `Channel`). Each module has its own reference
  account read off the run itself (a log of reports, a ledger of presses, the last word on a fact,
  the time of the last answer) and proves that the state agrees with it.
- **The store** (`Tables`, `Grid`, `GridCoherence`, `BaseOrders`, `RoleOrders`, `Personalisation`,
  `SignIns`, `StoreRuns`, `Store`). Each table is a sequence, a map or a set and each statement its
  effect; the class `Transaction` writes the rows in place, each write one of its ghost history, so a
  theorem about legal runs of writes (`LeftBy(writes)`) is a theorem about the object.
- **The evaluator** (`Authorisation`) and **the driver** (`Signalling`), which checks each message,
  acts, writes down what is remembered, and projects each session within the reach read afresh. A
  `Story` is any sequence of its turns, and a session is in it only through the socket that holds it.
- **The conversation** (`Conversations`). The class `Conversation` answers messages in place on one
  `StateAuthority` and one `Transaction`; whatever it does is proved to be turns of one story, run and
  writes included, so every theorem of the project holds of the two objects between any two messages.
- **End to end** (`RoutingSafety`, `Memory`, `Administration`, `HandDown`, `OnTheAir`): who is carried
  against what the grid holds, what is remembered against the console last had, what administration
  does to people in their seats, and what the media plane executes against the fan-out.

## How to read it

An `Instant` is a number of nanoseconds and one operation reads the clock once. Legal runs demand
three things of the outside world: the clock does not go back, a minted id was never used, and a
remembered set names each loop once; `Signalling.EveryStoryIsALegalRun` discharges the third for the
driver. A story further demands that a record made has an id no session ever had to do with, and
that a projection is handed what the staffing query answers. A message's check, act and write-down
are one turn; edits, seats, messages and projections interleave freely between turns. Sessions are
values inside a sequence, which is what ownership by one locked vector amounts to: nothing else can
alias one.

## Where the code and what is said of it part

- The comment on the beacon constants (`src/state.rs:202-215`) says connection state always speaks
  before a beacon is read as lost. The ceilings do not promise it: it holds exactly when
  `unconfirmed` + 5 s fits in 15 s (`Channel.SilenceIsNeverDeafnessExactly`), which the default
  ladder keeps and an accepted one need not.
- A session whose role is deleted under it is told that it has ended, and its socket lets it go, but it
  is not taken out of the live state (`src/transport/signalling.rs:1898-1903`, `1972-1981`). Nothing
  projects it again, so its arms and reach stand. `RoutingSafety.ATickCatchesUpWhoeverItCan` is the
  exact condition and `RoutingSafety.ADeletedRoleStaysOnTheAir` every case that fails. The two sides do
  not last alike (`RoutingSafety.HowLongASessionLetGoIsCarried`): a talker let go answers no more
  heartbeats and falls silent at `disconnected`, while a listener let go goes on hearing for as long as
  the talker answers. `OnTheAir` tells both from an empty deployment on.
- A limit may be set beneath the number already seated (`src/configuration/roles.rs:164-183`), so a role
  can be past its limit; `Administration.OnlyLoweringGoesPastIt` is exactly when, and nobody is ever
  seated beyond it.
- A channel known to have gone ends the priority press and leaves the ordinary key standing
  (`src/state.rs:2239-2246`); what stops emission is the reading of the channel.

## Model

| member | source | states |
|---|---|---|
| RoutingSafety.RoutingIsSafe | src/state.rs:2559-2577 | over every interleaving of edits, seats, checked acts and projections, any fan-out at any moment carries a pair that has caught up with the grid only where the talker's role holds `emit` and the listener's holds `monitor` now; a loop unreviewed or gone carries nobody |
| RoutingSafety.TheFanOutIsTheGrid | src/state.rs:779-783 | with everybody caught up, both directions: a talker is heard on a loop by exactly the other sessions subscribed and unmuted there whose role holds `monitor` on the grid, and everything armed is held at `emit` |
| RoutingSafety.CaughtUpMeansWithinTheGrid | src/state.rs:2046-2061 | at every point of every story, a session projected or seated since the latest edit has no arm and no reach its role does not hold, and one projected since has exactly its role's reach |
| RoutingSafety.OneRoundCatchesUpWhoeverItCan | src/transport/signalling.rs:1876-1925 | after any edit, one projection of each live session unseats nobody and catches up exactly those some socket still holds and whose role is there |
| RoutingSafety.ATickCatchesUpWhoeverItCan | src/transport/signalling.rs:1889-1925 | a tick brings a session within the grid if and only if its socket still holds it and its role is there, or it was within it already, which without a role is having no arm and no reach; one it cannot project is left exactly as it stood and on no socket |
| RoutingSafety.ADeletedRoleStaysOnTheAir | src/transport/signalling.rs:1898-1903 | every case that fails: delete the role of either side, or the one both share, while one hears the other, and the one goes on being carried to the other though that role holds nothing; a tick of whoever was in it moves no session and takes it off its socket |
| RoutingSafety.ASessionLetGoIsLeftAlone | src/transport/signalling.rs:1972-1981 | a session no socket holds is never taken up again, and for the rest of any story it stands as it did until it is ended: no message, heartbeat or projection reaches it |
| RoutingSafety.HowLongASessionLetGoIsCarried | src/transport/signalling.rs:1102-1110 | how long each side lasts, over any continuation: as a talker it is carried to nobody from `disconnected` after its last answer, or at once where its channel is known gone; as a listener it hears every loop it heard when let go, from every talker armed there, exactly while that talker is not Disconnected |
| OnTheAir.TheVoiceOutlastsTheRole | src/transport/signalling.rs:1898-1903 | the concrete case, told turn by turn from an empty deployment: two users in two roles, one heard by the other, either role deleted and its occupant ticked, and on every accepted ladder the voice is still carried though that role holds nothing |
| OnTheAir.TheTalkerFallsSilent | src/transport/signalling.rs:1972-1981 | where it was the talker's role, nobody hears them from `disconnected` on, whatever else the story tells |
| OnTheAir.TheListenerGoesOnHearing | src/transport/signalling.rs:1898-1903 | where it was the listener's, the talker is carried to them at any later instant, needing only to answer one more heartbeat |
| RoutingSafety.AnArmIsChecked | src/transport/signalling.rs:423-428 | an arm that gets past its check is on a loop the arming session's own role holds at `emit` at that moment |
| RoutingSafety.WithinIsTheGrid | src/configuration/grid.rs:402-433 | the reach a projection is handed reaches a loop exactly where the lookup answers `monitor` or above, and emits on it exactly where it answers `emit` or above |
| Memory.TheMemoryIsTheLastConsole | src/configuration/personalisation.rs:164-298 | at every point of every story, for any user and role that are there and every loop there is, what is remembered is the subscription set and the volumes of the console that pair last had, live or as it ended |
| Memory.TheNextAssumePutsTheConsoleBack | src/state.rs:1424-1463 | the next seat the pair takes has exactly that set, in base order, at those volumes, with no mute, arm, key, press or assertion |
| Memory.WhoseActIsWritten | src/transport/signalling.rs:1767-1811 | an act is written down against the occupant of the session it was done in and that session's role, whoever's sign-in spoke |
| Memory.ASeatIsWhatWasRemembered | src/transport/signalling.rs:1278-1325 | the assume hands in exactly what is remembered, so the new seat and the memory agree at once |
| Signalling.EveryStoryIsALegalRun | src/transport/signalling.rs:1119-1204 | whatever arrives in whatever order, the driver makes a legal run of the state authority over a store in order: the demands on a remembered set are discharged, leaving only fresh ids and a clock that does not go back |
| Signalling.EveryStoryIsALegalRunOfWrites | src/transport/signalling.rs:1767-1811 | the tables any story comes to are what a legal run of writes leaves, names included, so every theorem about writes is one about stories |
| Signalling.EveryDocumentSentIsWhole | src/transport/signalling.rs:1876-1935 | every document a projection by the driver issues is whole, with the reach and the staffing it really hands in |
| Conversations.Api.StaysAtItsStory | src/transport/signalling.rs:1119-1204 | one turn more that may be taken keeps the two objects where a plausible story comes to, along that story's own run and own writes |
| Conversations.Api.EveryTheoremHolds | src/transport/signalling.rs:975-997 | two objects at their story are left by a legal run and by a legal run of writes, in order and coherent, so every theorem here is one about them |
| Conversations.Conversation.Received | src/transport/signalling.rs:1119-1204 | one message: refused, neither object, the story nor the session moves; permitted, exactly its turns are taken in order (the act noted on both clocks where a person did it, what it does, the document), and the permission found at the door still holds when they are |
| Conversations.Conversation.CarriesOut | src/transport/signalling.rs:1142-1204 | a permitted message does its one deed and is answered with the document, or does nothing where its level is no volume or its path no rung |
| Conversations.Conversation.Does | src/transport/signalling.rs:1359-1405 | the live act and the write behind it are one turn of the story, written as the conversation's own person in the role of the session |
| Conversations.Conversation.NoteADeliberateAct | src/transport/signalling.rs:2205-2215 | the session's clock and the sign-in's move together, and no requirement is answered differently afterwards |
| Conversations.Conversation.Presence | src/transport/signalling.rs:1876-1935 | reads the role, the reach and the gathered staffing afresh and projects, or takes the reason and lets the session go; the socket keeps its session exactly where a document was issued |
| Conversations.Conversation.Assume | src/transport/signalling.rs:1265-1405 | one turn of the story: nothing is asked where the user is not eligible or the role not there, a full role changes nothing, and otherwise the socket holds the seat minted and the sign-in of whoever it displaced starts its clock |
| Conversations.Conversation.Relinquish | src/transport/signalling.rs:1413-1442 | the session is handed back as its holder's own act, no socket holds it any more and its sign-in's clock starts |
| Conversations.Conversation.TheChannelWent | src/transport/signalling.rs:1084-1100 | the session loses its channel and its socket in one turn; a socket in the lobby takes nothing with it |
| Conversations.NotingMovesNoPermission | src/transport/signalling.rs:2182-2215 | a deliberate act noted changes the evaluator's answer to no requirement for anybody |
| Administration.ARulingIsForGood | src/configuration/grid.rs:653-669 | from any point of any story on, while no other loop is made under its id, a loop is marked exactly where it was then and no ruling on it has been completed since, so a mark once cleared never returns |
| Administration.NobodyIsSeatedBeyondTheLimit | src/state.rs:1396-1408 | no turn of any story adds to a role but by an assume, and then only within the limit its row has at that moment |
| Administration.OnlyLoweringGoesPastIt | src/configuration/roles.rs:164-183 | a turn takes a role that is within its limit past it if and only if it is an edit setting the limit beneath the number already seated |
| Administration.PastTheLimitOnlySinceLowering | src/configuration/roles.rs:164-183 | at every point of every story a role is past its limit exactly where some edit set the limit beneath the number seated and it has been past it ever since |
| LastWords.TheLastWordStands | src/state.rs:1566-1939 | in every reachable state, whether a live session monitors, has muted or has armed a loop, how loud it plays, whether it is keyed, pressing for priority or away, when it was last active, both path readings, its reach and its role are each what the latest message bearing on that fact said, and nothing else |
| Invariants.EveryRunIsCoherent | src/state.rs:1387-1467 | over any legal run: one session to a user, ids distinct and never reused, counters naming the subscriptions in order, mutes a duplicate-free subset of them, arms duplicate-free, one tombstone to a user and none for a live session |
| Invariants.OccupancyNeverExceedsTheLimit | src/state.rs:1396-1408 | with limits as administered, no run ever seats more occupants in a role than its limit |
| Invariants.AnAssumeSeatsOrChangesNothing | src/state.rs:1387-1467 | an assume is refused exactly when the other occupants fill the role, and then changes nothing; otherwise the user holds that one seat and nobody else has moved |
| Endings.AnEndingIsToldOnce | src/state.rs:1535-1546 | why a session ended is answered *assumed elsewhere* exactly where its user took a seat over it under 15 minutes ago, has taken none since and it was not asked before; anything else is answered nothing |
| Consoles.ADocumentTellsTheRun | src/state.rs:2062-2113 | every field of every document any run issues, against the messages of that run: what a row says of its own session, and the key, the press, the assertion with its age, the role and the worse of the two path readings, are last words; talking and priority are exactly that somebody's last words say so on a channel that carries; health is what the reports amount to exactly where it is measured; staffing is the state of a staffing handed in for that loop and none where there is none; the connection is placed by the last answer |
| Endings.GivingUpEndsThatSession | src/state.rs:1487-1493 | a session given up is handed back under its own names, sign-in and role as its holder's act with any press it held, is the one taken out, and buries nothing; one not there changes nothing |
| Endings.AnAssumeEndsTheirOwnSeat | src/state.rs:1396-1420 | an assume that lands hands back exactly the seat its user was in, as ended from elsewhere, and nothing where they were in none |
| Documents.NoDocumentIsTorn | src/state.rs:2046-2121 | every document: armed implies `emit`, muted implies subscribed, priority implies talking, health exactly when subscribed and Confirmed, priority implies keyed implies not Disconnected, keyed and armed imply talking, staffs implies not Vacant; one row for each loop in reach, in order |
| Health.HealthIsWhatWasReported | src/state.rs:402-430 | over any run, loop health refines the log of reports: Receiving exactly when a report since measurement began moved the total to a non-zero value under 15 s ago, Checking exactly when none has and it began under 15 s ago, NotReceiving otherwise, and only for a monitored loop on a Confirmed channel |
| Health.CountersTrackTheirLogs | src/state.rs:2137-2183 | each counter is the one its log amounts to, whatever was subscribed, dropped, reported or interrupted |
| Health.NothingIsLostJustAfterAnOutage | src/state.rs:2137-2152 | no loop reads NotReceiving within 15 s of an outage ending |
| Health.ASilentClientIsNotLeftChecking | src/state.rs:420-430 | a client that never reports reads Checking for 15 s and NotReceiving from then on |
| Presses.EveryPressComesBackOnce | src/state.rs:720-730 | over any run, as multisets of (occupant, role, arms at key-down, wall clock, start): presses begun are those handed back together with those still held, by release, channel loss, relinquishing or displacement |
| Presses.NothingOutstandingWhenEmpty | src/state.rs:2448-2459 | with nobody pressing, every press begun has been handed back to be audited |
| Versions.EqualVersionsMeanEqualDocuments | src/state.rs:2114-2119 | over a session's whole life versions never fall, equal versions mean equal documents however far apart, and consecutive answers differ by one exactly when their documents differ |
| FanOuts.TheFanOutIsExact | src/state.rs:2559-2577 | each talker once, each (listener, loop) once, and exactly when the talker is not Disconnected, the listener is another session, the loop is armed, and the listener is subscribed, unmuted and in reach |
| FanOuts.TheFanOutStands | src/state.rs:1970-1989 | keying, priority, volume, off-console, path readings and counts never move the fan-out read at the same instant |
| FanOuts.AMuteTakesExactlyItsOwnEntries | src/state.rs:1628-1640 | a mute removes that listener's entries on that loop from every audience and moves nothing else |
| FanOuts.WhatIsExecutedIsTheFanOut | src/state.rs:1970-1989 | after every hand-down each live talker's audience in the sink is the fan-out recomputed from scratch, and an answer is given exactly when it differs from the last |
| FanOuts.BeaconsReachWhoeverIsMeasured | src/state.rs:2005-2028 | a listener is carried a loop's beacon exactly when they monitor it in reach, which on a Confirmed channel is exactly when their document states its health |
| FanOuts.StaffedMeansReachable | src/state.rs:2484-2519 | if a loop reads Staffed, some occupant of a staffing role is in the audience on that loop of every other talker armed there who is not Disconnected |
| HandDown.WhatIsCarriedIsWhatIsMonitored | src/state.rs:2005-2028 | after every hand-down each live listener is carried exactly the beacons recomputed from scratch, and an answer is given exactly when it differs from the last |
| HandDown.HandDownTheRouting | src/transport/signalling.rs:1715-1735 | handing each talker's whole audience down in turn leaves the media plane executing, for every live session, the audience as of that instant; sessions are untouched |
| HandDown.HandDownTheBeacons | src/transport/signalling.rs:1737-1748 | the same for the beacons each listener is carried |
| HandDown.MediaPlane.TheseShouldHear | src/media_plane/mod.rs:355-369 | a talker's audience is replaced whole and no other talker's moves |
| HandDown.MediaPlane.TheseBeaconsReach | src/media_plane/mod.rs:388-397 | a listener's beacons are replaced whole and no other listener's move |
| StaffingFold.StaffingIsAFaithfulFold | src/state.rs:2484-2519 | Vacant iff nobody occupies a staffing role, Staffed iff some occupant has no reason for not hearing, otherwise counts that are the histogram of occupants by reason, non-zero, upstream first, summing to the occupants |
| StaffingFold.TheReasonIsFurthestUpstream | src/state.rs:820-838 | the reason given is the furthest upstream of those that stand, and none is given exactly when none stands |
| StaffingFold.StaffingIgnoresTheOrder | src/state.rs:2484-2519 | the same sessions in any order give the same state, despite the early return |
| Routes.ARouteLostStaysLost | src/state.rs:862-869 | a loop a projection found without `emit` is unarmed in every later state until it is armed by hand |
| Routes.PreferencesOutlastReach | src/state.rs:849-869 | subscriptions, mutes and volumes are moved by the operator's own deeds and by nothing else, through any number of reaches |
| Channel.TheRungIsWhatWasHeard | src/state.rs:679-689 | over any run the rung is a function of two facts of it: Disconnected while the channel is known to have gone, otherwise placed by the time since the last answer; so gaps under `unconfirmed` never leave Confirmed |
| Channel.EveryRungIsReachable | src/state.rs:679-689 | on an accepted ladder the three rungs are adjoining non-empty bands of silence |
| Channel.SilenceOnlyClimbs | src/state.rs:679-689 | while nothing is heard the rung only climbs |
| Channel.ALatchIsDroppedFirst | src/configuration/deployment.rs:236-249 | on an accepted ladder a latch's grace runs out while the session is Unconfirmed, strictly before any instant it is Disconnected |
| Channel.SilenceIsNeverDeafnessExactly | src/state.rs:202-215 | on an accepted ladder no silence that began with current beacons is ever read as NotReceiving if and only if `unconfirmed` + 5 s <= 15 s |
| Channel.TheDefaultKeepsItAndACeilingDoesNot | src/configuration/deployment.rs:150-180 | the default ladder keeps that; (2, 11, 2, 14) is accepted and does not |
| Deployment.AcceptedExactly | src/configuration/deployment.rs:208-252 | a ladder is accepted exactly when every timer is at least one and under its ceiling, the rungs climb and the latch fits before the last |
| Authorisation.OnlyTheSeatSpeaks | src/authorisation.rs:274-325 | a user's call on a loop is permitted exactly when, on that one credential, they sit in the live session they named and its role holds the rung; `Session` exactly when they sit in it |
| Authorisation.ACallerIsSomebody | src/authorisation.rs:195-257 | nothing but a public call is permitted without a stored sign-in naming a stored user, and nothing at all on two kinds of credential |
| Authorisation.TheRungBelowIsPermittedToo | src/authorisation.rs:274-325 | permitted on one rung is permitted on each rung below as the same caller |
| Authorisation.AnUnruledLoopRefusesEverybody | src/authorisation.rs:259-267 | a loop unreviewed or not there refuses every rung but `none` |
| GridCoherence.EveryEditKeepsTheStore | src/configuration/grid.rs:324-366 | every edit keeps ids and positions distinct, cells and preferences between records that exist, and the staffing flag only over `emit` or above |
| GridCoherence.AMarkClearsOnceAndForAll | src/configuration/grid.rs:653-669 | a mark clears on exactly the edit that rules on that column and leaves every role with a cell, and no edit ever brings it back |
| RoleOrders.EveryEditKeepsNamesApart | migrations/20260831090000_roles_and_loops.sql:13-30 | no edit gives two roles or two loops one name, ASCII case folded, or leaves a role nobody may occupy |
| RoleOrders.ANameIsRefusedExactlyWhereItIsTaken | src/configuration/roles.rs:110-124 | a creation is refused exactly where some record has the name whatever its case, or the role could seat nobody, and a refusal changes nothing |
| RoleOrders.ByNameIsSorted | src/configuration/roles.rs:136-143 | the list of roles is every role there is, once each, in the order of their folded names |
| RoleOrders.ThePlaceIsTheName | src/configuration/roles.rs:136-143 | one role is before another in it exactly when its name is read first, so the order is the names' and no accident of insertion |
| GridCoherence.RowsAndColumnsAreTheCells | src/configuration/grid.rs:368-400 | a role's row and a loop's column are the single-cell read at each loop in base order and at each role, and answer exactly for what exists |
| GridCoherence.ReachIsTheOrderFilteredByLookup | src/configuration/grid.rs:402-433 | a role's reach is the base order filtered by the one lookup, with the lookup's answer, and nothing else |
| GridCoherence.ACellHoldsWhatWasSet | src/configuration/grid.rs:324-366 | after a cell write that pair holds what was set and keeps its flag only under `emit`, every other pair is unmoved, and the lookup answers it unless the loop is still unreviewed |
| GridCoherence.AFlagStandsOnlyUnderEmit | src/configuration/grid.rs:574-606 | a mark is refused exactly where the pair does not hold `emit`; one that lands is on that pair alone, and a pair with no row has nothing to mark |
| GridCoherence.ADismissalSaysNothingNew | src/configuration/grid.rs:505-538 | a dismissal leaves every cell reading as it did and makes what the column already said what is enforced, on that loop alone |
| GridCoherence.WhatIsNewHoldsNothing | src/configuration/grid.rs:297-322 | a loop made is held by no role and a role made holds nothing |
| Store.TheMatrixIsTheRows | src/configuration/grid.rs:479-503 | the whole grid, role by role, is each role's row laid end to end |
| Store.WhoeverStaffsMayAnswer | src/configuration/grid.rs:608-637 | every role gathered as staffing a loop holds at least `emit` there by the lookup |
| Store.Transaction.SetCell | src/configuration/grid.rs:324-366 | writes the cell, drops the flag under a rung that cannot answer, rules on a column completed; answers before and after as the single-cell read has them, and nothing where a record is missing |
| Store.Transaction.RuleOnACompleteColumn | src/configuration/grid.rs:653-669 | clears the loop's mark exactly where no role is left without a cell |
| Store.Transaction.SetStaffing | src/configuration/grid.rs:574-606 | marks or clears a pair that has a row, refuses one that cannot answer and then changes nothing |
| Store.Transaction.DismissUnreviewed | src/configuration/grid.rs:505-538 | gives every unruled role a deliberate `none` and clears the mark, answering the loop before and after |
| Store.Transaction.TheWholeGrid | src/configuration/grid.rs:479-503 | answers every role by name against every loop, role by role in base order |
| Store.Transaction.TheStaffingRoles | src/configuration/grid.rs:608-637 | gathering the rows in the order they come answers each reviewed staffed loop once, in base order, with exactly its marked roles |
| BaseOrders.AnOrderSetIsTheOrderRead | src/configuration/loops.rs:201-221 | an order is accepted exactly when it is a permutation of the loops there are, and is then what the ordered read answers, positions distinct |
| BaseOrders.AcceptedExactlyThePermutations | src/configuration/loops.rs:240-246 | the counting test is the permutation test |
| BaseOrders.ACreatedLoopIsLast | src/configuration/loops.rs:118-133 | a loop created is last, unreviewed, and everything before it is as it was |
| BaseOrders.ADeletionKeepsTheOrder | src/configuration/loops.rs:181-199 | deleting a loop takes its row out of the order and moves nothing else |
| BaseOrders.TheSamePlacesTheSameOrder | src/configuration/loops.rs:159-179 | a rename or a mark cleared leaves the order alone |
| BaseOrders.BaseOrderIsSorted | src/configuration/loops.rs:145-157 | the ordered read answers every loop there is, once each, by position |
| Store.Transaction.CreateLoop | src/configuration/loops.rs:118-133 | adds the loop unreviewed at the end, or refuses a name taken in whatever case and changes nothing |
| Store.Transaction.DeleteLoop | src/configuration/loops.rs:181-199 | takes the loop and everything only about it, answers what went, and changes nothing where it is not there |
| Store.Transaction.SetTheLoopOrder | src/configuration/loops.rs:201-221 | accepts exactly a permutation of the loops, after which the ordered read is that order; a refusal changes nothing |
| Store.Transaction.WritePositions | src/configuration/loops.rs:210-220 | writing the positions one statement at a time puts each named loop at its own place |
| Personalisation.RemembersExactly | src/configuration/personalisation.rs:166-187 | both reads answer exactly what is remembered about loops that are there, each loop once |
| StoreRuns.WhatIsRememberedIsTheLastWord | src/configuration/personalisation.rs:189-298 | over any run of writes, a subscription is remembered exactly where it was kept last rather than dropped, by a write that found its three records and none deleted since, and a level is the last one set in the same way; no other write moves either |
| StoreRuns.APreferenceIsReadBack | src/configuration/personalisation.rs:164-298 | what is written is what the next assume reads: a loop kept is in the ordered set once, one dropped is not, a level set is the level on it, and every other loop of the pair reads as it did |
| StoreRuns.EveryRunKeepsTheStore | src/configuration/personalisation.rs:189-298 | over any run of writes rows stay in order: ids, positions and names apart, cells and preferences between records that are there, staffing only under `emit` |
| Store.Transaction.StaysLeftByWrites | src/configuration/personalisation.rs:189-298 | a store some legal run of writes leaves still is one after any write that may be made, so every theorem about writes is about that object |
| SignIns.TheStampLagsByAMinute | src/configuration/sign_ins.rs:174-192 | over any run with a forward clock the stored stamp lags the last deliberate act or clock start by 0 to 60 000 ms |
| SignIns.ASweepEndsTheAbandoned | src/configuration/sign_ins.rs:194-236 | a sweep ends every unspared sign-in idle for the window, none active within the window less a minute, none spared, and touches nothing else |
| SignIns.WhoeverIsOnShiftIsSpared | src/lifetimes.rs:83-97 | handed the snapshot of live sessions, a sweep ends no sign-in any of them was assumed from |
| SignIns.TheMinuteIsTight | src/configuration/sign_ins.rs:174-188 | a sign-in active the window less exactly a minute ago can be swept away, so the bound cannot be tightened |
| StoreRuns.TheSignInsAreTheirDays | src/configuration/sign_ins.rs:123-236 | the sign-ins the store holds after any run of writes are what their own days leave, a user deleted ending every one of theirs |
| StoreRuns.TheStoredStampLagsByAMinute | src/configuration/sign_ins.rs:174-192 | over any run of writes with a forward clock, a sign-in is in the store exactly where somebody was truly active on it, and its stamp lags that by 0 to 60 000 ms |
| StoreRuns.OpeningIsReadBack | src/configuration/sign_ins.rs:123-142 | a sign-in opened is in the store as that user's and truly active as of then, and nobody else's moves |
| StoreRuns.AnActIsTheTruth | src/configuration/sign_ins.rs:174-192 | an act noted is the true last act of that sign-in from then on, signs nobody in where there is none, keeps whose it is, and moves nobody else's |
| Store.Transaction.EndSignInsIdleFor | src/configuration/sign_ins.rs:194-236 | takes exactly the abandoned, in whatever order they are read, and answers whose each was, once each |
| Store.Transaction.EndAbandonedSignIns | src/lifetimes.rs:83-126 | ends exactly the abandoned that no live session holds and records one expiry for each, keeping every entry before |
| Authority.StateAuthority.KeepingTimeBy | src/state.rs:1340-1347 | starts as the state the empty run leaves |
| Authority.StateAuthority.StaysLeftByARun | src/state.rs:2439-2444 | an authority some legal run leaves behind still is one after any event that may follow, so every theorem about runs is about this object |
| Authority.StateAuthority.Assume | src/state.rs:1387-1467 | one assume of the run: the limit ruled on before anything ends, the user's own seat given up and buried, the answer naming whom it displaced with their press |
| Authority.StateAuthority.Remember | src/state.rs:2616-2624 | prunes what nobody came back for and buries the one given |
| Authority.StateAuthority.EndedByItsOwnHolder | src/state.rs:1487-1493 | takes that seat, leaves no tombstone, hands back its press |
| Authority.StateAuthority.WhyItEnded | src/state.rs:1535-1546 | prunes, then answers and forgets the reason kept for that session |
| Authority.StateAuthority.Subscribe | src/state.rs:1566-1582 | the loop joins the set and its counter starts, once; false only where the session is gone |
| Authority.StateAuthority.Unsubscribe | src/state.rs:1594-1608 | the loop, its counter and its mute go together |
| Authority.StateAuthority.Mute | src/state.rs:1628-1640 | a mute lands on a loop monitored and on no other |
| Authority.StateAuthority.Unmute | src/state.rs:1647-1657 | that loop's mute goes and no other |
| Authority.StateAuthority.OffConsole | src/state.rs:1679-1689 | the assertion stands and nothing else moves |
| Authority.StateAuthority.ADeliberateAct | src/state.rs:1711-1718 | the assertion is cleared and the act stamped |
| Authority.StateAuthority.SetTheVolume | src/state.rs:1737-1759 | that loop's level is replaced where it stood or added |
| Authority.StateAuthority.Arm | src/state.rs:1785-1797 | the loop joins the arms once |
| Authority.StateAuthority.Disarm | src/state.rs:1806-1816 | that arm goes and no other |
| Authority.StateAuthority.TheClientKeys | src/state.rs:1831-1833 | keyed, and nothing else |
| Authority.StateAuthority.TheClientUnkeys | src/state.rs:1844-1846 | unkeyed, and nothing else |
| Authority.StateAuthority.TheClientKeysPriority | src/state.rs:1892-1919 | a press begins over the arms by name where none is held |
| Authority.StateAuthority.TheClientUnkeysPriority | src/state.rs:1932-1939 | the press held is handed back with how long it lasted |
| Authority.StateAuthority.TheChannelIsGone | src/state.rs:2239-2246 | the channel is known gone and the press held handed back; the ordinary key stands |
| Authority.StateAuthority.TheClientIsThere | src/state.rs:2137-2152 | heard from now; every counter starts again where the channel was not Confirmed, the loop proved against the whole-list form |
| Authority.StateAuthority.TheClientCounted | src/state.rs:2166-2183 | every total is taken in the order given by the first counter on its loop |
| Authority.StateAuthority.TheClientSays | src/state.rs:2320-2326 | the client's reading is replaced |
| Authority.StateAuthority.TheServerSees | src/state.rs:2336-2342 | the server's reading is replaced |
| Authority.StateAuthority.NothingIsCarried | src/state.rs:2357-2363 | every session's server reading is lost, and nothing else |
| Authority.StateAuthority.TheRoutingIfItMoved | src/state.rs:1970-1989 | answers the whole fan-out exactly where it differs from the one last answered, and keeps it |
| Authority.StateAuthority.TheBeaconsIfTheyMoved | src/state.rs:2005-2028 | answers the whole carriage exactly where it differs from the one last answered, and keeps it |
| Authority.StateAuthority.StaffingOn | src/state.rs:2484-2519 | counting in place with the early return computes the three-way staffing state of that loop |
| Authority.StateAuthority.TheStaffing | src/state.rs:2477-2482 | each loop's staffing state in the order asked |
| Authority.StateAuthority.Compose | src/state.rs:2062-2113 | the document is worked out over every session as things stand |
| Authority.StateAuthority.PresenceFor | src/state.rs:2046-2121 | the reach is recorded and the arms narrowed before anything is projected; the answer carries the version the document has earned |
| Authority.StateAuthority.Moved | src/state.rs:2114-2119 | the version moves by one where the document differs from the last and not otherwise |
| Authority.StateAuthority.WhyNotHearing | src/state.rs:2191-2204 | none exactly where no live session has that id or no reason stands for it; otherwise a reason that stands with none standing further upstream |

## Left out

- StoreRuns.WhatIsRememberedIsTheLastWord: a write that fails at the store, which loses the preference and leaves the live act standing, is not modelled; every write lands.
- Store.Transaction.TheStaffingRoles: the rows of the staffing query are an argument constrained to be its answer, because the order within one loop is not promised.
- Conversations.Conversation.Received: leaves out the four messages of media negotiation, which reach neither object, the lobby document, and a store that cannot be written to, which takes an assume back.
- Conversations.Conversation.Assume: takes the session id minted and whether the user is eligible as arguments, and notes no deliberate act itself; the message that asks for it notes one as any other does.
- Signalling.EveryStoryIsALegalRunOfWrites: stamps each write that is not to the sign-ins with the turn's instant, which no row takes from it.
- RoutingSafety.RoutingIsSafe: takes a message's check and its act as one turn; an edit landing between the two, on another connection, is modelled as landing before or after both.
- Memory.TheMemoryIsTheLastConsole: says nothing of a pair whose user or role has been deleted, because nothing is remembered of one.
- HandDown.HandDownTheRouting: says nothing of talkers that have ended, whose audience the driver drops by closing their path.
- FanOuts.TheFanOutStands: speaks of deeds that are no route; a heartbeat, a channel lost, an arm, a mute, a subscription and a projection may each move the fan-out and are covered by its exact rule.
- Tables.BaseOrder: the tie-break on creation time and id is the row order, and is never reached because positions are proved distinct in every reachable store.
- Concurrency inside one operation: each holds the one lock or one transaction from start to end, so operations are atomic steps.
- Machine widths: versions and counts are unbounded where the source has `u64`, and times where it has `i64` with saturation.
- The fingerprint of a sign-in token is taken to be injective, so the table is keyed by the token itself.
- Users, roles, eligibility, enrolment, passwords and the bootstrap code beyond what the evaluator and the assume read of them; eligibility is an argument of the assume.
- The audit log beyond the presses and endings handed back to it and the expiries counted.
- The media plane's transports, carriages and worker, beyond the two tables it is told to execute.
- Rendering for people: names of events, wording of refusals, wall-clock strings, telemetry, the command line and the console.
