# A verified model of the mafia game engine

The repository runs a party game of mafia on a local network. A Go engine
(`internal/game`) holds the game: seven phases, a night of four timed steps, a vote
with one recount, pause and resume, and an end that is announced five seconds after
it is decided. A session (`internal/session`) drives it and writes snapshots to a
store. Browsers keep a replica of the game (`web/src/context/reducer.ts`) by folding
the events the server sends.

This project models those parts in Dafny and proves properties of every run.

## How it is organised

| file | contents |
|---|---|
| `GameTypes.dfy` | state, actions, events, the inputs of a step |
| `Roster.dfy`, `Dealing.dfy`, `Ballots.dfy` | players, role dealing, vote counting |
| `Rules.dfy` | the transition rules as functions of the state |
| `Engine.dfy` | the engine object, proved to compute exactly those rules |
| `Invariants.dfy`, `Runs.dfy` | what every call keeps; whole runs |
| `Actions.dfy` | when each action is accepted, what it does, what each refusal means |
| `Endings.dfy`, `Voting.dfy`, `Nights.dfy`, `Timers.dfy` | theorems about ends, votes, nights, timers |
| `Bystanders.dfy`, `Secrets.dfy` | what reaches which viewer, in a night and over a whole run |
| `Shifting.dfy`, `Pausing.dfy` | moving a run in time; pause transparency |
| `Replica.dfy`, `Reveals.dfy`, `Targets.dfy`, `Cues.dfy` | the browser's replica, the roles it shows, its kill target, its audio cue log |
| `Sessions.dfy`, `Reboots.dfy`, `Failures.dfy` | what is written, what survives crashes, what failing writes do |
| `Views.dfy` | masked views |
| `Witnesses.dfy` | concrete games in which a promise of the code fails |

`Engine` is a class with the mutable `state` of the Go struct. Its methods change the
state field by field, with the loops of the source, and each is proved equal to a
function in `Rules`; the entry points also keep the invariant of reachable states. The
theorems about runs are about those functions.

**Time** is nanoseconds since the Unix epoch, with the Go zero instant as a
distinguished constant. Clock readings, random draws, the swaps of the shuffle and the
success of store writes are inputs of a step. A night resolution that ends the game
reads the clock twice, so a step carries two readings.

**A run** is any sequence of actions and ticks from a state that satisfies the
invariant `Inv`; a successful start over distinct, non-empty player IDs establishes
it. `Start` itself does not check the IDs, and `Restore` accepts any state with a
phase. A snapshot that was written while a game ran satisfies `Inv` (`ProgressSurvives`
covers any number of reboots); the one snapshot that need not is that of a game whose
result could not be written, and `CitizensWinAnyway` treats it without `Inv`.

## What the code does, where that is surprising

- The comment at `internal/game/tick.go:8-9` says the intro leads to NIGHT; it leads
  to DAY. The comment at `internal/game/resolve_night.go:8` says 5 seconds; the
  constant is 20. The model follows the code.
- `internal/game/tick.go:5-6` calls `Tick` idempotent for a given instant. It is, unless
  a tick reaches the end of a night while the clock still reads an earlier instant
  (`TickIsIdempotentIff`). `RepeatedTickSpeaks` gives a game in which the repeated tick
  announces a reminder.
- When a pending end fires, the state handed back is copied before the move to END
  (`internal/game/end.go:68`). If the result write then fails, the stored snapshot is an
  active game without a verdict. The recovery promised at
  `internal/session/action.go:116-119` still happens if the session is shut down in
  order, because `Close` saves the final state, and it happens for a game the host ended;
  after a crash it does not happen for a verdict (`FailedResultWrite` has the exact
  condition). A citizens' win comes back all the same, whatever else fails
  (`CitizensWinAnyway`); a win of the mafia can be overturned (`MafiaWinIsOverturned`).
- Submissions, ballots, pauses and the voice switch trigger no snapshot, so a crash
  forgets them (`SubmissionIsForgotten`), police records included. An orderly shutdown
  saves the whole state (`internal/session/session.go:235-258`).
- Reminders whose instant falls between the last tick and a pause are never announced;
  this is the one thing a pause loses (`FirstTickAfterPause`).
- A ballot cast in the result buffer counts the votes again. The ballot part of the
  invariant therefore holds while no end is pending; the verdict stays the first one
  in any case (`FirstVerdictWins`).
- No event message clears the night's kill target in a replica that has one
  (`KillTargetIsNeverCleared`), so that field is outside the simulation relation; only a
  new snapshot or a reset replaces it. `TargetMatchesIff` says when a living mafia client
  shows the right one, and `StaleTarget` shows a wrong one.
- More than 64 announcements between two drains, or an announcement followed by a reset,
  lose cues (`DeliveredIffFits`, `CuesAreLost`).
- A private view masks rows and the police history only; the representative, the night's
  targets and the ballots pass as they are. It is built for a player who resumes. A freshly
  connected client, the public screen among them, is first sent the room's snapshot
  (`internal/transport/ws/hub.go:104`), which carries the state of a running game unmasked.

## Model

| member | source | states |
|---|---|---|
| `Dealing.ValidateOptions` | internal/game/validation.go:51-95 | No error is collected exactly when every option rule holds, and each field is reported exactly when its rule is broken |
| `Dealing.DealIsBalanced` | internal/game/role.go:41-108 | A deal over distinct IDs makes exactly the configured number of mafia, leaves the citizen side in the majority, and its representative is mafia |
| `Dealing.DealtOnePolice` | internal/game/role.go:51-65 | A deal makes only one police officer |
| `Dealing.DealIsComplete` | internal/game/role.go:51-95 | A deal seats exactly one doctor and one police officer, leaves nobody without a role and gives everybody the keyword of its role |
| `Dealing.CohortIsTheMafia` | internal/game/role.go:51-65 | The cohort of a deal is exactly the players seated as mafia |
| `Roster.CountsAreSizes` | internal/game/types.go:300-331 | The two live counts are the numbers of living seats on either side |
| `Ballots.TopIsArgmax` | internal/game/tally.go:26-41 | The leaders are exactly the players with the most votes, if anyone has a vote |
| `Ballots.TopInSeatingOrder` | internal/game/tally.go:28-41 | The leaders are listed in seating order without repeats |
| `Ballots.VotesAreConserved` | internal/game/tally.go:15-24 | Counted votes and abstentions add up to the number of ballots |
| `EngineImpl.Engine.Restore` | internal/game/engine.go:69-75 | Only a state without a phase is refused; any other replaces the engine's state |
| `EngineImpl.Engine.FindPlayer` | internal/game/types.go:290-297 | The position found is that of the first player with the ID |
| `EngineImpl.Engine.LiveCount` | internal/game/types.go:300-308 | The loop counts the living |
| `EngineImpl.Engine.LiveMafiaCount` | internal/game/types.go:311-319 | The loop counts the living mafia |
| `EngineImpl.Engine.LiveCitizenSideCount` | internal/game/types.go:323-331 | The loop counts the living who are not mafia |
| `EngineImpl.Engine.LivingMafiaIds` | internal/game/types.go:355-363 | The loop lists the living mafia in seating order |
| `EngineImpl.Engine.ScheduleGameEnd` | internal/game/end.go:46-56 | A verdict is deferred; one already pending stands |
| `EngineImpl.Engine.FirePendingEnd` | internal/game/end.go:61-69 | The pending verdict ends the game; the reply is the state before the move to END |
| `EngineImpl.Engine.ReassignRepresentative` | internal/game/resolve_night.go:149-166 | A drawn (or the first) living mafia becomes representative, or nobody if none lives |
| `EngineImpl.Engine.ResolveNight` | internal/game/resolve_night.go:88-143 | The whole resolution of a night, its error included |
| `EngineImpl.Engine.CountVotes` | internal/game/tally.go:15-24 | Whatever the order of the ballots, each target's count is its number of voters and abstentions do not count |
| `EngineImpl.Engine.FindTop` | internal/game/tally.go:26-41 | The running maximum and its holders are those of the whole table |
| `EngineImpl.Engine.ApplyElimination` | internal/game/tally.go:101-122 | The voted-out player dies, then the end is scheduled or the night begins |
| `EngineImpl.Engine.RunTally` | internal/game/tally.go:14-97 | Elimination, recount or neither, with the announced counts |
| `EngineImpl.Engine.ShuffleIds` | internal/game/role.go:47-49 | The swaps are performed in order on a copy |
| `Dealing.ShufflePermutes` | internal/game/role.go:47-49 | Whatever the swaps, the shuffle is a permutation |
| `EngineImpl.Engine.DealByIndex` | internal/game/role.go:51-65 | Roles by position in the shuffled list |
| `EngineImpl.Engine.AssignRoles` | internal/game/role.go:41-108 | The whole assignment, or nothing when options or keywords fail |
| `EngineImpl.Engine.SeatPlayers` | internal/game/engine.go:129-134 | Every player is alive with the dealt role and its keyword |
| `EngineImpl.Engine.AnnounceStart` | internal/game/engine.go:137-160 | The opening events, each role to its holder only |
| `EngineImpl.Engine.Start` | internal/game/engine.go:78-163 | State, reply, events and error of a start, errors changing nothing; over distinct IDs the invariant holds |
| `EngineImpl.Engine.HandleVote` | internal/game/handlers_day_vote.go:38-78 | A ballot is rejected, recorded, or recorded and counted |
| `EngineImpl.Engine.Apply` | internal/game/apply.go:5-39 | All thirteen actions and the guard after the end act by the rules, and a reachable state leads to a reachable state |
| `EngineImpl.Engine.RotateSpeakers` | internal/game/tick.go:62-85 | The catch-up loop takes exactly the turns that have run out |
| `EngineImpl.Engine.TickIntro` | internal/game/tick.go:58-87 | Rotation and, after the last turn, the first day |
| `EngineImpl.Engine.TickDay` | internal/game/tick.go:96-117 | The reminders crossed since the last tick, then the vote at the deadline |
| `EngineImpl.Engine.TickNight` | internal/game/tick.go:123-150 | Every expired step in order, then the resolution |
| `EngineImpl.Engine.Tick` | internal/game/tick.go:25-53 | Pause and repeat do nothing, a pending end goes first, then the phase; a reachable state leads to a reachable state without error |
| `Invariants.StartEstablishes` | internal/game/engine.go:78-163 | A start over distinct IDs satisfies the invariant |
| `Invariants.ApplyKeeps` | internal/game/apply.go:5-39 | Every action keeps the invariant: phase shape, representative, balance, ballots, targets, a police history that says mafia exactly of mafia; and it moves phase, day, deaths, history and verdict only as allowed |
| `Invariants.TickKeeps` | internal/game/tick.go:25-53 | Every tick does the same and never fails |
| `Invariants.BuryFacts` | internal/game/resolve_night.go:149-166 | After a death the representative is a living mafia, or nobody exactly when no mafia lives, also when the seed cannot be read |
| `Invariants.NightResolves` | internal/game/resolve_night.go:101-114 | From a reachable night the unknown-victim error cannot happen |
| `Invariants.NightTickForm` | internal/game/tick.go:123-150 | A night tick changes only step and deadline, or resolves the night it started in |
| `Invariants.CompleteIffAllVoted` | internal/game/handlers_day_vote.go:70-77 | There are as many ballots as living players exactly when the voters are the living |
| `Invariants.TieMakesCandidates` | internal/game/tally.go:66-75 | Recount candidates are distinct living players |
| `Invariants.TallyKeeps` | internal/game/tally.go:14-97 | Counting keeps the invariant, also in the result buffer |
| `Runs.StepKeeps` | internal/game/engine.go:23-29 | One call, of either kind, from a reachable state |
| `Runs.RunShape` | internal/game/resolve_night.go:116-143 | Over any run roles and seats stay, the dead stay dead, the history only grows, and the day is one more than the nights resolved |
| `Runs.GameEndsOnce` | internal/game/end.go:72-84 | GameEnded is emitted once, exactly when a run ends the game, with the recorded outcome |
| `Runs.EndIsFinal` | internal/game/apply.go:6-8 | After the end every action fails and every tick is silent |
| `Runs.ReachableGame` | internal/game/engine.go:78-163 | Every reachable game keeps its roster and a right representative, and is undecided while no end is pending |
| `Runs.ApplyIsAtomic` | internal/game/apply.go:3-8 | A rejected action changes nothing, in any state the source does not panic on |
| `Runs.NightTickResolvesIff` | internal/game/tick.go:123-150 | A night tick resolves the night exactly when it reaches the end of the last step, counted from the current deadline |
| `Runs.TickIsIdempotentIff` | internal/game/tick.go:5-53 | Repeating a tick does nothing if and only if the tick does not run a night to its end ahead of the clock, a condition on the state, the instant and the clock |
| `Witnesses.RepeatedTickSpeaks` | internal/game/resolve_night.go:88-143 | A reachable night, a tick for 100 s with the clock at 90 s: the same tick again announces a reminder |
| `Actions.StartAcceptedIff` | internal/game/engine.go:78-127 | A start is accepted exactly for a fresh engine, six to twelve players with their host, a seed, keywords and options within their limits |
| `Actions.StartSetsUp` | internal/game/engine.go:108-136 | Host, options, seats and names of the new game, all timers from one clock reading |
| `Actions.LobbyStartIsStart` | internal/game/handlers_lifecycle.go:8-62 | Starting from a lobby comes to the same as starting afresh over its players |
| `Actions.IntroActions` | internal/game/handlers_lifecycle.go:67-129 | The host or the speaker passes the turn on: to the next seat from now, or to a discussion of full length |
| `Actions.EndingDiscussion` | internal/game/handlers_day_vote.go:7-31 | Exactly the host ends a discussion early, into an empty first round |
| `Actions.DiscussionEndsOnTime` | internal/game/tick.go:96-117 | A processed tick opens the vote, announced last, if and only if it is at or past the deadline |
| `Actions.ReminderIff` | internal/game/tick.go:91-107 | A processed tick announces a reminder exactly if it is one of 30, 10 and 0 seconds and its instant lies after the last tick and not after this one |
| `Actions.BallotAcceptedIff` | internal/game/handlers_day_vote.go:38-63 | A ballot is accepted exactly from the living in a voting phase, for nobody or for a living player who in a recount is a candidate |
| `Actions.CheckEffect` | internal/game/handlers_night.go:100-119 | An accepted check adds one record and tells the police officer alone: mafia if and only if the target is mafia |
| `Actions.EndingNight` | internal/game/handlers_night.go:127-139 | Exactly the host ends a night early; the day has its five seconds and the full discussion |
| `Actions.NightEndsOnTime` | internal/game/tick.go:123-150 | The same day breaks exactly when a tick reaches the end of the last step |
| `Actions.Succession` | internal/game/resolve_night.go:149-166 | Only the representative's own death changes the representative; it is announced to the living mafia, and without a seed the first of them at the table succeeds |
| `Actions.AnyoneCanSucceed` | internal/game/resolve_night.go:149-166 | With a seed every living mafioso can be drawn |
| `Actions.Pausing` | internal/game/handlers_lifecycle.go:144-169 | When a pause is accepted and what it records |
| `Actions.Resuming` | internal/game/handlers_lifecycle.go:175-222 | Only the host resumes; the running timer moves by the pause, never back |
| `Actions.AcceptedIff` | internal/game/apply.go:5-39 | In every reachable state each of the thirteen actions is accepted if and only if the rules of the game, as a table of who may do what and when, allow it |
| `Actions.RefusalMeans` | internal/game/validation.go:97-140 | Every error code of every refused action is true of the state it answers |
| `Endings.FirstVerdictWins` | internal/game/end.go:13-69 | A game not ended by the host ends with the verdict of the first step at which a side had won: the citizens' if no mafia lived then, the mafia's if they were no fewer than the rest |
| `Endings.VerdictIsDeferred` | internal/game/end.go:41-56 | A verdict is reached only by a vote or a night, keeps its phase on screen and is due five seconds later |
| `Endings.PendingEndFires` | internal/game/tick.go:26-39 | A tick ends the game exactly when it is unpaused, new and at or past the pending deadline, from any phase |
| `Endings.PendingEndSurvives` | internal/game/handlers_lifecycle.go:199-204 | A pending end keeps its verdict over any run and its deadline moves by exactly the time spent paused |
| `Endings.PendingVerdictIsFinal` | internal/game/end.go:61-69 | Once an end is pending the game ends with it or by the host's order |
| `Voting.TallyIsPlurality` | internal/game/tally.go:14-97 | Someone goes if and only if there is a sole leader; a first tie leads to one recount over exactly the tied; otherwise nobody goes |
| `Voting.BallotIsCountedWhenAllVoted` | internal/game/handlers_day_vote.go:38-78 | With no end pending a ballot is counted exactly when it completes the set of living voters |
| `Nights.TickFollowsPlan` | internal/game/tick.go:119-150 | One tick, however late, lands on the step and deadline of the night's plan and announces what is due |
| `Nights.NightRunsToPlan` | internal/game/resolve_night.go:37-69 | An undisturbed night announces its steps by entry instant, settings and latest tick alone |
| `Nights.NightsLookAlike` | internal/game/types.go:110-113 | Two nights with equal entry and settings show the same steps and deadlines, whoever is dead and whatever is submitted |
| `Bystanders.BystanderHearsScript` | internal/game/resolve_night.go:37-69 | Everything an undisturbed night sends to a viewer who is neither mafia nor police is a script fixed by entry instant, settings, voice switches and ticks |
| `Bystanders.NightsSoundAlike` | internal/game/types.go:110-113 | Two such nights with the same switches at the same ticks send that viewer the same events in the same order, whatever is submitted and whoever is dead |
| `Secrets.StepIsProper` | internal/game/event.go:17-36 | Every announcement of every call has its proper audience, and what it says about roles is true |
| `Secrets.SecretsAreKept` | internal/transport/ws/dispatch.go:106-129 | Over any run no target, representative, police result or role reaches a viewer who is neither mafia nor police |
| `Secrets.SecretsReachTheirOwners` | internal/transport/ws/dispatch.go:106-129 | A viewer who is told a secret is a living mafioso or the police officer it belongs to |
| `Reveals.StartTellsEachItsOwn` | internal/game/engine.go:137-160 | What the opening tells each viewer, exactly: its own role and keyword, the cohort to the mafia alone |
| `Nights.EntryIsOnPlan` | internal/game/resolve_night.go:17-35 | Entering a night puts it on the plan starting then |
| `Nights.PlanInSeconds` | internal/game/types.go:117-123 | The plan in seconds: 20, then mafia, police and doctor, with their defaults |
| `Nights.KillAcceptedIff` | internal/game/handlers_night.go:8-42 | In a reachable state a kill is accepted exactly from the representative, once, in its step, against a living non-mafia |
| `Nights.CheckAcceptedIff` | internal/game/handlers_night.go:80-119 | When a check is accepted; at most one record per day |
| `Nights.TargetsAreFirstAccepted` | internal/game/handlers_night.go:26-36 | During a night the stored targets are the first accepted ones |
| `Nights.KillWindow` | internal/game/handlers_night.go:8-42 | Over an undisturbed night a kill is accepted exactly while the latest tick is in the mafia's window after the entry instant, if none was accepted that night, from the representative against a living non-mafia |
| `Nights.HealWindow` | internal/game/handlers_night.go:47-72 | The same for a heal: the doctor's window, once a night, by a living doctor for a living player |
| `Nights.CheckWindow` | internal/game/handlers_night.go:80-119 | The same for a check: the police's window, once a day, about another living player |
| `Nights.NightOutcome` | internal/game/resolve_night.go:88-114 | The first accepted kill takes effect unless it equals the first accepted heal; the victim is a living non-mafia and the representative stays |
| `Timers.TurnsClosedForm` | internal/game/tick.go:62-85 | The rotation loop takes the whole turns elapsed, but not past the last speaker |
| `Timers.IntroCatchUp` | internal/game/tick.go:58-87 | Speaker, start stamp, events and the move to DAY of one late tick in closed form |
| `Timers.UnpausedReminders` | internal/game/tick.go:96-107 | Without pauses the reminders are exactly those whose instant lies between first and latest tick |
| `Timers.RemindersOncePerDay` | internal/game/handlers_lifecycle.go:205-209 | However a discussion is paused, reminders strictly decrease, so each comes at most once |
| `Shifting.ApplyShifts` | internal/game/apply.go:5-39 | Every action commutes with moving all instants |
| `Shifting.TickShifts` | internal/game/tick.go:25-53 | Every tick commutes with moving all instants |
| `Shifting.RunsShift` | internal/game/tick.go:5-53 | A run moved in time has the same states and events, moved |
| `Pausing.WindowOnlyHalts` | internal/game/handlers_lifecycle.go:140-169 | Calm steps in a pause act on and announce to the halted game what they would to the running one; ticks do nothing |
| `Pausing.FirstTickAfterPause` | internal/game/handlers_lifecycle.go:171-222 | The first tick after a pause is the running game's tick, later, and loses only the reminders between last tick and pause |
| `Pausing.PauseIsTransparent` | internal/game/handlers_lifecycle.go:144-222 | Pause, calm steps, resume and any continuation give the unpaused run's state with all timers moved by the pause, and the whole trace: pause, the kept submissions' events, resumption, then the running game's events moved, without the skipped reminders |
| `Replica.StepMatches` | internal/transport/ws/dispatch.go:135-249 | Folding the events of one call keeps a matching replica matching |
| `Replica.ReplicaFollows` | web/src/context/reducer.ts:238-405 | A replica that matches once matches after any run: phase, day, alive flags, speaker, night step, deadlines, pause, result, all roles at the end, and what its viewer is entitled to |
| `Replica.WireIsMilliseconds` | internal/transport/ws/dispatch.go:251-259 | Instants go out in whole milliseconds, those before the epoch as zero |
| `Replica.WireKeepsContent` | internal/transport/ws/dispatch.go:135-249 | Events without an instant lose nothing on the wire |
| `Reveals.VotedOutIsRevealed` | web/src/context/reducer.ts:381-456 | Over any run a client shows the true role of every player who was voted out, and keeps every role it shows rightly |
| `Reveals.FinalRows` | web/src/context/reducer.ts:389-400 | The end gives every client the engine's very rows |
| `Reveals.OwnFollowsFromStart` | web/src/context/reducer.ts:269-288 | A seated client that folds the opening knows its role, keyword, team and cohort ever after |
| `Reveals.OwnFollowsFromView` | internal/session/view.go:25-107 | So does one that resumes with its view |
| `Replica.ReplicaFollowsFromStart` | internal/game/engine.go:137-160 | So does a lobby client that folds the opening and everything after it |
| `Replica.SnapshotMatches` | internal/session/lifecycle.go:140-157 | The masked snapshot sent to a resuming viewer makes a matching replica, with the engine's kill target |
| `Replica.RoomSnapshotMatches` | internal/session/session.go:272-289 | So does the unmasked snapshot sent to a freshly connected client |
| `Replica.ReplicaFollowsFromSnapshot` | web/src/context/reducer.ts:158-164 | A client that connects at any point of a game and gets either snapshot follows it from there |
| `Replica.ResumedShown` | web/src/context/reducer.ts:346-364 | Updating only positive deadlines on resume shows the shifted deadline |
| `Replica.KillTargetIsNeverCleared` | web/src/context/reducer.ts:238-405 | No event message removes the kill target of a replica |
| `Targets.TargetFollows` | web/src/context/reducer.ts:296-301 | Over any run a living mafia client has the engine's kill target whenever the engine has one, and none exactly while none was announced |
| `Targets.TargetMatchesIff` | web/src/context/reducer.ts:247-301 | It shows the engine's target if and only if the engine has one or none was ever announced |
| `Witnesses.StaleTarget` | web/src/context/reducer.ts:247-301 | A kill, then the end of the night: the engine has no target any more and the client still shows it |
| `Sessions.SessionManager.ShouldPersist` | internal/session/action.go:95-104 | A snapshot is due exactly when a trigger event occurs |
| `Sessions.SessionManager.FindGameEnded` | internal/session/action.go:107-114 | The first GameEnded of a batch is found |
| `Sessions.SessionManager.Collect` | internal/session/action.go:41-62 | Queued notices are drained first, then every event in order |
| `Sessions.SessionManager.PersistAndDispatch` | internal/session/action.go:41-91 | What a batch of events writes and hands to subscribers, with either write failing or not |
| `Sessions.DispatchedOnce` | internal/session/action.go:41-91 | A dispatch hands over every event once and in order, every waiting notice, and a report of a failed snapshot |
| `Sessions.SessionManager.SubmitAction` | internal/session/action.go:17-36 | A session step by an action, its error and its outputs |
| `Sessions.SessionManager.Tick` | internal/session/tick.go:29-45 | A session step by a tick and its outputs; a failed or eventless tick dispatches nothing |
| `Sessions.SessionManager.Close` | internal/session/session.go:235-258 | An orderly shutdown saves a running game as it is |
| `Sessions.SessionManager.BootRestore` | internal/session/session.go:168-213 | What a boot makes of the store: resumed, filed, or set aside when unreadable or refused |
| `Sessions.StepTriggers` | internal/session/action.go:93-104 | A step without a trigger event changes neither phase, day, players, representative nor verdict |
| `Sessions.StepStaysCovered` | internal/session/action.go:41-91 | With successful writes the store keeps covering the game, and an ended game is filed |
| `Sessions.StartIsCovered` | internal/session/lifecycle.go:189-196 | A start files its first snapshot |
| `Reboots.RebootResumes` | internal/session/session.go:168-213 | A crash takes a running game to a snapshot that agrees on all progress, a restart that saves to the same state; either way the store covers the game again |
| `Reboots.ProgressSurvives` | internal/session/action.go:93-104 | Through any calls, crashes and restarts people, deaths, day and a pending verdict survive until the game is filed with that verdict or by the host's order |
| `Reboots.QuietStepIsForgotten` | internal/session/action.go:71-82 | A call without a trigger leaves no trace in the store |
| `Reboots.SubmissionIsForgotten` | internal/session/action.go:93-104 | So a crash forgets kills, heals, checks, uncounted ballots, pauses and the voice switch |
| `Reboots.QuietTickIsForgotten` | internal/session/action.go:93-104 | A tick that stays in its phase writes nothing |
| `Failures.FailedResultWrite` | internal/session/action.go:116-139 | After a failed result write and any further calls, the next reboot files the right result if and only if the shutdown saved the final state, or the host ended the game and its snapshot was written; what it resumes otherwise |
| `Failures.CitizensWinAnyway` | internal/game/end.go:13-26 | Through any calls, crashes, restarts and failing writes a game with a pending citizens' win ends, and is filed, only as that or by the host's order |
| `Witnesses.FailedWriteLosesVerdict` | internal/game/end.go:61-69 | A game the mafia have won, its result write failing: the reboot resumes it with nothing filed |
| `Witnesses.MafiaWinIsOverturned` | internal/game/handlers_day_vote.go:64-77 | In that game one changed ballot puts out a mafioso and the game is open again |
| `Cues.LogStaysNumbered` | web/src/context/reducer.ts:220-235 | The log holds at most 64 consecutive numbers ending at the last one, across resets |
| `Cues.Drain.Run` | web/src/context/GameContext.tsx:111-126 | A drain hands over the cues past the watermark and moves it to the last number |
| `Cues.DrainHandsOver` | web/src/context/GameContext.tsx:111-126 | One drain hands over the last 64 at most of the cues since the last reset, also when the watermark lags behind an emptied log |
| `Cues.DeliveredIffFits` | web/src/context/reducer.ts:226-229 | A batch is delivered completely if and only if it has at most 64 cues and no reset follows one |
| `Witnesses.CuesAreLost` | web/src/context/reducer.ts:226-229 | Sixty-five announcements, or one followed by a reset, lose a cue |
| `Cues.DrainsHandOver` | web/src/context/GameContext.tsx:111-126 | Under any batching whatever the drains hand over, in order and once, the last 64 at most of each batch's cues since its last reset |
| `Cues.EveryCueOnce` | web/src/context/reducer.ts:77-84 | Under any batching into such batches every cue is handed over once and in order |
| `Views.Scrub` | internal/session/view.go:58-68 | Roles and foreign keywords are blanked |
| `Views.RestoreOwn` | internal/session/view.go:71-79 | The viewer's own row is restored |
| `Views.DiscloseAllies` | internal/session/view.go:82-97 | A mafia viewer sees which players are mafia |
| `Views.BuildPrivateView` | internal/session/view.go:25-107 | The whole view of one viewer: the masked state, its own role, keyword and team, the cohort, the host flag |
| `Views.ViewDependsOnGrants` | internal/session/view.go:8-13 | Two games that differ only in what is withheld give the very same view |
| `Views.ViewShowsGrants` | internal/session/view.go:8-13 | A row shows its role exactly when granted and its keyword exactly to its owner; the viewer is told its own role, keyword and team, and is host only as the host |
| `Views.CohortIsMafia` | internal/session/view.go:82-97 | A mafia viewer's cohort is exactly the mafia at the table, in seating order; nobody else has one |

## Left out

- SQLite storage, schema, file handling and the optional event log: I/O. The store is one optional snapshot and a map of results; setting a broken database aside empties it.
- Session members, tokens, host seat, lobby joins and room options: map bookkeeping without a hard property.
- WebSocket hub, read and write loops and the client registry: goroutines around a foreign library. Delivery is modelled as: every viewer receives, in order, the envelopes addressed to it.
- Announcement texts, keyword pools and error messages: text tables. Error codes are modelled, their messages are not.
- `PlayerJoined` and the reducer's fields that no engine state drives (errors, last announcement, last tally, voice, connection status).
- `pendingMafiaTarget` in the simulation relation, because the reducer never clears it.
- The event kind recorded with a cue, and the drain effect's React scheduling: a drain is one call per batch.
- Sessions.SessionManager.PersistAndDispatch: the announcement texts rendered for the outputs and the optional event log are not modelled, being text and I/O; subscribers are represented by the outputs they are handed.
- Sessions.SessionManager.SubmitAction: the error announcement is represented by the error code.
- Sessions.SessionManager.BootRestore: the members and tokens of the snapshot are not modelled.
- EngineImpl.Engine.Apply: the host's advance with a restored speaker index below -1 is excluded, because the source would panic on it; every reachable state is accepted.
- EngineImpl.Engine.Tick: the same for a tick that would move on from such an index.
- EngineImpl.Engine.RotateSpeakers: the source's loop also contains the move to DAY after the last speaker; here that test follows the loop.
- Aliasing: `Clone` copies are values here, so that snapshots cannot be changed through the engine is built in rather than proved.
- Overflow of Go durations and of JavaScript dates: instants and durations are unbounded.
- The quality of randomness: every draw and every sequence of swaps is allowed.
