/**
 The data of the mafia game engine: players, options, the whole game state,
 the actions a client may submit, and the events the engine emits.

 Instants are nanoseconds since the Unix epoch. The Go zero instant is a
 distinguished constant far in the past, because the engine uses it to mean
 "no deadline".
 */
module GameTypes {

  datatype Option<+T> = None | Some(value: T)

  type Time = int
  type PlayerId = string

  /** The empty ID: an abstention, or "no representative". */
  const NOBODY: PlayerId := ""

  /** The zero instant, 0001-01-01T00:00:00Z. */
  const ZERO_TIME: Time := -62_135_596_800_000_000_000

  function Seconds(n: int): Time { n * 1_000_000_000 }

  const NIGHT_INTRO_SECONDS: int := 20
  const DAY_INTRO_SECONDS: int := 5
  const RESULT_BUFFER_SECONDS: int := 5

  datatype Role = NoRole | Mafia | Citizen | Doctor | Police

  datatype Team = MafiaTeam | CitizenTeam

  function TeamOf(r: Role): Team { if r.Mafia? then MafiaTeam else CitizenTeam }

  /** `NoPhase` is the phase of an engine that was never started. */
  datatype Phase = NoPhase | Lobby | Intro | Night | Day | Vote | Recount | End

  datatype NightStep = NoStep | StepIntro | StepMafia | StepPolice | StepDoctor | StepResolved

  datatype EndReason = MafiaWin | CitizenWin | HostForceEnd

  datatype Player = Player(id: PlayerId, name: string, alive: bool, role: Role, keyword: string)

  datatype Options = Options(
    mafiaCount: int,
    maxPlayers: int,
    introSeconds: int,
    discussionSeconds: int,
    mafiaSeconds: int,
    policeSeconds: int,
    doctorSeconds: int,
    selfHeal: bool,
    voiceOn: bool)

  datatype PoliceRecord = PoliceRecord(day: int, target: PlayerId, team: Team)

  /** A game end that is decided but not yet announced. */
  datatype PendingEnd = PendingEnd(reason: EndReason, winner: Option<Team>, deadline: Time)

  datatype State = State(
    gameId: string,
    phase: Phase,
    day: int,
    players: seq<Player>,
    hostId: PlayerId,
    settings: Options,
    startedAt: Time,
    deadline: Time,
    speakerIdx: int,
    speakerStartedAt: Time,
    representative: PlayerId,
    killTarget: Option<PlayerId>,
    healTarget: Option<PlayerId>,
    checkTarget: Option<PlayerId>,
    policeChecked: bool,
    nightStep: NightStep,
    stepDeadline: Time,
    paused: bool,
    pausedAt: Time,
    history: seq<PoliceRecord>,
    votes: map<PlayerId, PlayerId>,
    voteRound: int,
    candidates: seq<PlayerId>,
    winner: Option<Team>,
    endReason: Option<EndReason>,
    pendingEnd: Option<PendingEnd>,
    lastTickAt: Time)

  const ZERO_OPTIONS := Options(0, 0, 0, 0, 0, 0, 0, false, false)

  /** The state of a freshly constructed engine. */
  const ZERO_STATE :=
    State("", NoPhase, 0, [], NOBODY, ZERO_OPTIONS, ZERO_TIME, ZERO_TIME, 0, ZERO_TIME, NOBODY,
          None, None, None, false, NoStep, ZERO_TIME, false, ZERO_TIME, [], map[], 0, [],
          None, None, None, ZERO_TIME)

  datatype Action =
    | StartGame(host: PlayerId, options: Options)
    | AdvanceIntro(host: PlayerId)
    | EndSelfIntro(sender: PlayerId)
    | SubmitKill(sender: PlayerId, target: PlayerId)
    | SubmitHeal(sender: PlayerId, target: PlayerId)
    | SubmitCheck(sender: PlayerId, target: PlayerId)
    | EndNightEarly(host: PlayerId)
    | EndDiscussionEarly(host: PlayerId)
    | SubmitVote(sender: PlayerId, target: PlayerId)
    | ToggleVoice(host: PlayerId, on: bool)
    | ForceEndGame(host: PlayerId)
    | PauseGame(host: PlayerId)
    | ResumeGame(host: PlayerId)

  datatype Event =
    | GameStarted(snapshot: State)
    | PhaseChanged(phase: Phase, day: int, deadline: Time)
    | RoleRevealed(player: PlayerId, role: Role, keyword: string)
    | CohortRevealed(mafiaIds: seq<PlayerId>, representative: PlayerId)
    | SpeakerChanged(player: PlayerId, secondsLeft: int)
    | TargetSelected(representative: PlayerId, target: PlayerId)
    | PoliceResult(police: PlayerId, target: PlayerId, team: Team)
    | NightStepChanged(step: NightStep, day: int, deadline: Time)
    | GamePaused(phase: Phase)
    | GameResumed(phase: Phase, deadline: Time)
    | DeathAnnounced(victim: PlayerId)
    | PeacefulNight
    | DiscussionTick(secondsLeft: int)
    | VoteTallied(counts: map<PlayerId, nat>, eliminated: Option<PlayerId>, recount: bool)
    | Eliminated(player: PlayerId, role: Role)
    | RepresentativeReassigned(oldId: PlayerId, newId: PlayerId)
    | GameEnded(outcome: Option<Team>, reason: EndReason, roster: seq<Player>)
    | VoiceToggled(on: bool)

  datatype Audience = Everyone | Only(player: PlayerId) | LivingMafia

  datatype Envelope = Envelope(event: Event, audience: Audience)

  function Pub(e: Event): Envelope { Envelope(e, Everyone) }

  datatype ErrorCode =
    | Validation
    | WrongPhase
    | PermissionDenied
    | RoleMismatch
    | NotRepresentative
    | DeadPlayer
    | AlreadyDone
    | InvalidTarget
    | UnknownPlayer

  /** One keyword per role, drawn when roles are dealt. */
  datatype Keywords = Keywords(mafia: string, citizen: string, doctor: string, police: string)

  /**
   The randomness of one deal: whether a seed could be read, the swaps the
   shuffle performs, the representative drawn, and the keywords (`None` when a
   keyword pool is empty).
   */
  datatype Deal = Deal(seeded: bool, swaps: seq<(nat, nat)>, rep: nat, keywords: Option<Keywords>)

  /**
   What one step reads from outside: the clock (a night resolution that ends the
   game reads it twice), the draw of a new representative (`None` when no seed
   could be read) and the deal of a starting game.
   */
  datatype Env = Env(now: Time, later: Time, pick: Option<nat>, deal: Deal)

  /**
   The result of one engine call. `next` is the state the engine holds afterwards,
   `reply` the copy handed back to the caller. They differ in one place only: when
   a pending end fires, the copy is taken before the game is moved to END.
   */
  datatype Outcome = Outcome(next: State, reply: State, events: seq<Envelope>, error: Option<ErrorCode>)

  function Done(s: State, events: seq<Envelope>): Outcome { Outcome(s, s, events, None) }

  function Rejected(s: State, code: ErrorCode): Outcome { Outcome(s, s, [], Some(code)) }

  /** A new state together with the events that announce it. */
  datatype Change = Change(state: State, events: seq<Envelope>)

  datatype Verdict = Verdict(reason: EndReason, winner: Team)
}
