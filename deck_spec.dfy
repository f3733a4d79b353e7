/** The deck engine's transport state machine as pure transitions.

    `DeckState` holds every field the engine's transport logic reads or
    writes, grouped as the engine groups them: the audio player (reduced to
    whether one exists, whether it is producing audio and the rate it was
    last set to), the load and play flags, the tempo fields, the position
    fields, the beat-snapping fields, the scrub fields, the one shared
    timeout, and the pending backspin resumes. Each operation maps the old
    state and its inputs to the new state. Operations that touch the shared
    transport also return the transport operations they performed, in order,
    as a `Step`; `ApplyOps` says what those do to the pending callbacks. The
    class `DeckEngine.DeckAudioEngine` is proved to implement these functions. */
module DeckSpec {
  import opened Timing
  import opened Optional
  import opened Transport

  /** The one timeout handle the engine keeps. Scrubbing and tempo bends
      share it, so arming either one cancels the other. */
  datatype Timer = NoTimer | ScrubStop | BendRevert

  /** How decoding a track ends: the decoded duration, or a failure. */
  datatype LoadOutcome = Decoded(duration: real) | DecodeFailed

  /** What an engine operation does to the shared transport. */
  datatype TransportOp = ScheduleStart(at: real) | CancelAll

  /** The result of `getGridPosition`. */
  datatype GridPosition = GridPosition(bar: int, beat: int, isAligned: bool, isQueued: bool)

  /** The audio player as far as the transport logic sees it: whether one
      exists, whether it is producing audio, and the rate it was last set to. */
  datatype Player = Player(present: bool, running: bool, rate: real)

  /** The tempo fields: the deck's displayed tempo, the track's own tempo,
      the tempo it is synced to, seconds per beat, and the rate that plays
      the track at the synced tempo. */
  datatype Tempo = Tempo(currentBPM: real, originalBPM: real, globalBPM: real,
                         beatInterval: real, basePlaybackRate: real)

  /** The position fields: the track's length, the transport time playback
      is dated from, the position while stopped, and the cue point. */
  datatype Position = Position(trackDuration: real, startTime: real, pausedAt: real, cuePoint: real)

  /** The beat-snapping fields: whether a bar-aligned start is pending, whether
      the deck is on the bar grid, whether it waits for the next bar, that
      bar's time, and the time and offset of the last scheduled start. */
  datatype BarSnap = BarSnap(isQueued: bool, isGridAligned: bool, isWaitingForBar: bool,
                             nextBarTime: real, scheduledStartTime: real, scheduledOffset: real)

  /** The scrubbing fields: whether a scrub gesture is in progress, whether
      the deck was playing when it began, and when and where it began. */
  datatype ScrubMark = ScrubMark(isScrubbing: bool, wasPlayingBeforeScrub: bool,
                                 startTime: real, startPosition: real)

  datatype DeckState = DeckState(
    player: Player,
    isLoaded: bool,
    isPlaying: bool,
    tempo: Tempo,
    pos: Position,
    snap: BarSnap,
    scrub: ScrubMark,
    timer: Timer,
    backspinResumes: seq<real>,  // positions captured by backspins whose resume is still pending
    backspinSounds: nat          // how many times the backspin sound was started
  )

  /** An operation's new deck state and the transport operations it issued. */
  datatype Step = Step(deck: DeckState, ops: seq<TransportOp>)

  /** Lead time a freshly prepared deck keeps before its next bar. */
  const PrepareLookahead: real := 0.1
  /** Lead time `play` keeps before a bar-aligned start. */
  const PlayLookahead: real := 0.05
  /** Scrub velocity to rate factor while playing. */
  const ScrubSensitivity: real := 2.0
  /** Scrub velocity to seconds moved while stopped. */
  const ScrubNudge: real := 0.1
  /** Bounds of the scrub rate factor. */
  const MinScrubRate: real := 0.1
  const MaxScrubRate: real := 4.0
  /** How far a backspin rewinds before resuming. */
  const BackspinRewind: real := 1.5

  /** What every reachable state satisfies: a usable tempo (the engine
      divides by it) and a non-negative track length. */
  predicate Wf(s: DeckState)
  {
    s.tempo.globalBPM != 0.0 && s.pos.trackDuration >= 0.0
  }

  /** The state of a newly constructed engine: no player, nothing loaded,
      every tempo at 128 BPM and the base rate at 1. */
  const Initial: DeckState := DeckState(
    Player(false, false, 1.0), false, false,
    Tempo(DefaultBPM, DefaultBPM, DefaultBPM, 0.0, 1.0),
    Position(0.0, 0.0, 0.0, 0.0),
    BarSnap(false, false, false, 0.0, 0.0, 0.0),
    ScrubMark(false, false, 0.0, 0.0),
    NoTimer, [], 0)

  /** The deck can start: it has a player, a loaded track, and is not already playing. */
  predicate CanPlay(s: DeckState)
  {
    s.player.present && s.isLoaded && !s.isPlaying
  }

  /** `play` takes its bar-aligned branch. */
  predicate BarAligned(s: DeckState, fromCue: bool)
  {
    s.snap.isQueued && s.snap.isGridAligned && !fromCue
  }

  /** The beat-snapping flags dropped, as manual play, pause, seek and scrub
      all do. */
  function Unaligned(b: BarSnap): BarSnap
  {
    b.(isQueued := false, isGridAligned := false, isWaitingForBar := false)
  }

  /** The transport's pending callbacks after deck `slot` issued `op`. */
  function ApplyOp(pending: seq<Event>, op: TransportOp, slot: DeckId): seq<Event>
  {
    match op
    case ScheduleStart(at) => pending + [Event(at, EngineStart(slot))]
    case CancelAll => []
  }

  /** The transport's pending callbacks after deck `slot` issued `ops` in order. */
  function ApplyOps(pending: seq<Event>, ops: seq<TransportOp>, slot: DeckId): seq<Event>
    decreases |ops|
  {
    if ops == [] then pending else ApplyOps(ApplyOp(pending, ops[0], slot), ops[1..], slot)
  }

  /** Issuing two runs of operations one after the other is issuing their concatenation. */
  lemma {:induction false} ApplyOpsAppend(pending: seq<Event>, first: seq<TransportOp>, second: seq<TransportOp>, slot: DeckId)
    ensures ApplyOps(ApplyOps(pending, first, slot), second, slot) == ApplyOps(pending, first + second, slot)
    decreases |first|
  {
    if first == [] {
      assert first + second == second;
    } else {
      assert (first + second)[0] == first[0];
      assert (first + second)[1..] == first[1..] + second;
      ApplyOpsAppend(ApplyOp(pending, first[0], slot), first[1..], second, slot);
    }
  }

  /** `updatePlaybackRate`: with a player and a positive original tempo the
      base rate becomes the ratio of the deck's tempo to the track's, and the
      player is set to it; otherwise nothing changes. */
  function UpdatePlaybackRate(s: DeckState): (r: DeckState)
  {
    if s.player.present && s.tempo.originalBPM > 0.0 then
      var rate := CalculatePlaybackRate(s.tempo.originalBPM, s.tempo.globalBPM);
      s.(tempo := s.tempo.(basePlaybackRate := rate), player := s.player.(rate := rate))
    else
      s
  }

  /** `prepareForBeatSync`: a loaded deck is marked queued, grid-aligned and
      waiting for the bar, with the next bar time at least 100 ms ahead. */
  function PrepareForBeatSync(s: DeckState, now: real): (r: DeckState)
    requires Wf(s)
  {
    if !s.player.present || !s.isLoaded then s
    else
      s.(snap := s.snap.(nextBarTime := ScheduleTime(now, s.tempo.globalBPM, PrepareLookahead),
                         isQueued := true, isGridAligned := true, isWaitingForBar := true))
  }

  /** The first step of `loadTrack`: the previous player is disposed and a
      new, silent one at rate 1 replaces it before decoding starts. */
  function ReplacePlayer(s: DeckState): DeckState
  {
    s.(player := Player(true, false, 1.0))
  }

  /** The bookkeeping of a successful decode: the track's length, position
      and cue at 0, the user's tempo as the original and 128 BPM as the target. */
  function ResetForTrack(s: DeckState, duration: real, userDefinedBPM: real): DeckState
  {
    s.(isLoaded := true, isPlaying := false,
       pos := s.pos.(trackDuration := duration, pausedAt := 0.0, cuePoint := 0.0),
       snap := s.snap.(scheduledOffset := 0.0),
       tempo := s.tempo.(originalBPM := userDefinedBPM, globalBPM := DefaultBPM,
                         currentBPM := DefaultBPM, beatInterval := BeatDuration(DefaultBPM)))
  }

  /** `loadTrack` once decoding has ended with `outcome`. */
  function LoadTrack(s: DeckState, outcome: LoadOutcome, userDefinedBPM: real, now: real): (r: DeckState)
    requires Wf(s)
    requires outcome.Decoded? ==> outcome.duration >= 0.0
    ensures Wf(r)
  {
    match outcome
    case DecodeFailed => ReplacePlayer(s).(isLoaded := false)
    case Decoded(duration) =>
      PrepareForBeatSync(UpdatePlaybackRate(ResetForTrack(ReplacePlayer(s), duration, userDefinedBPM)), now)
  }

  /** `getCurrentTime`: the playing position derived from the clock, the
      paused position when stopped, 0 without a loaded track. */
  function CurrentTime(s: DeckState, now: real): real
  {
    if s.player.present && s.isLoaded then
      if s.isPlaying then (now - s.pos.startTime) * s.tempo.basePlaybackRate else s.pos.pausedAt
    else
      0.0
  }

  /** `play(fromCue)`. */
  function Play(s: DeckState, now: real, fromCue: bool): (r: Step)
    requires Wf(s)
    ensures Wf(r.deck)
  {
    if !CanPlay(s) then Step(s, [])
    else
      var s1 := UpdatePlaybackRate(s);
      if BarAligned(s1, fromCue) then
        var at := ScheduleTime(now, s1.tempo.globalBPM, PlayLookahead);
        Step(s1.(snap := s1.snap.(scheduledStartTime := at, scheduledOffset := s1.pos.pausedAt),
                 isPlaying := true),
             [ScheduleStart(at)])
      else
        var startPosition := if fromCue then s1.pos.cuePoint else s1.pos.pausedAt;
        Step(s1.(pos := s1.pos.(startTime := now - startPosition),
                 snap := Unaligned(s1.snap).(scheduledOffset := startPosition),
                 player := s1.player.(running := true),
                 isPlaying := true),
             [])
  }

  /** The body of the callback a bar-aligned `play` registers, run at the
      scheduled transport time `time`. It re-checks `isQueued`. */
  function OnScheduledStart(s: DeckState, time: real): (r: DeckState)
  {
    if s.player.present && s.snap.isQueued then
      s.(player := s.player.(running := true),
         pos := s.pos.(startTime := time - s.pos.pausedAt),
         snap := s.snap.(isQueued := false, isWaitingForBar := false))
    else
      s
  }

  /** `pause()`. */
  function Pause(s: DeckState, now: real): (r: Step)
    requires Wf(s)
    ensures Wf(r.deck)
  {
    if !(s.player.present && s.isPlaying) then Step(s, [])
    else
      Step(s.(pos := s.pos.(pausedAt := CurrentTime(s, now)),
              player := s.player.(running := false),
              isPlaying := false,
              snap := Unaligned(s.snap)),
           [CancelAll])
  }

  /** `seek(position)`: a playing deck is paused, moved and started again. */
  function Seek(s: DeckState, now: real, position: real): (r: Step)
    requires Wf(s)
    ensures Wf(r.deck)
  {
    if !(s.player.present && s.isLoaded) then Step(s, [])
    else
      var paused := if s.isPlaying then Pause(s, now) else Step(s, []);
      var moved := paused.deck.(pos := paused.deck.pos.(pausedAt := Clamp(position, 0.0, paused.deck.pos.trackDuration)),
                                snap := Unaligned(paused.deck.snap));
      if s.isPlaying then
        var resumed := Play(moved, now, false);
        Step(resumed.deck, paused.ops + resumed.ops)
      else
        Step(moved, paused.ops)
  }

  /** The first `scrub` call of a gesture records when and where it started
      and whether the deck was playing; later calls keep that record. */
  function BeginScrub(s: DeckState, now: real): DeckState
  {
    if !s.scrub.isScrubbing then
      s.(scrub := ScrubMark(true, s.isPlaying, now, CurrentTime(s, now)))
    else s
  }

  /** `scrub(velocity)`: while playing the rate follows the velocity; while
      stopped the position is nudged. Either way the grid alignment is lost
      and the quiescence timeout is (re)armed. */
  function Scrub(s: DeckState, now: real, velocity: real): (r: DeckState)
    requires Wf(s)
    ensures Wf(r)
  {
    if !(s.player.present && s.isLoaded) then s
    else
      var current := CurrentTime(s, now);
      var s1 := BeginScrub(s, now);
      var scrubRate := 1.0 + velocity * ScrubSensitivity;
      var s2 := if s1.isPlaying then
                  s1.(player := s1.player.(rate := s1.tempo.basePlaybackRate * Clamp(scrubRate, MinScrubRate, MaxScrubRate)))
                else
                  s1.(pos := s1.pos.(pausedAt := Clamp(current + velocity * ScrubNudge, 0.0, s1.pos.trackDuration)));
      s2.(snap := Unaligned(s2.snap), timer := ScrubStop)
  }

  /** `stopScrubbing()`. */
  function StopScrubbing(s: DeckState): (r: DeckState)
  {
    if !s.scrub.isScrubbing then s
    else
      var s1 := s.(scrub := s.scrub.(isScrubbing := false));
      var s2 := if s1.player.present && s1.isPlaying then s1.(player := s1.player.(rate := s1.tempo.basePlaybackRate)) else s1;
      s2.(timer := NoTimer)
  }

  /** The engine's timeout fires: the scrub quiescence ends the scrub, the
      bend timeout restores the base rate. Afterwards nothing is pending. */
  function FireTimer(s: DeckState): (r: DeckState)
  {
    match s.timer
    case NoTimer => s
    case ScrubStop => StopScrubbing(s).(timer := NoTimer)
    case BendRevert =>
      (if s.player.present then s.(player := s.player.(rate := s.tempo.basePlaybackRate)) else s).(timer := NoTimer)
  }

  /** `bendTempo(rate)`: the rate is applied on top of the base rate; any
      pending timeout is cancelled, and a bend other than 1 arms the revert. */
  function BendTempo(s: DeckState, rate: real): (r: DeckState)
  {
    if !(s.player.present && s.isLoaded) then s
    else
      s.(player := s.player.(rate := s.tempo.basePlaybackRate * rate),
         timer := if rate != 1.0 then BendRevert else NoTimer)
  }

  /** `setCuePoint(position?)`: the given position, or the current one. */
  function SetCuePoint(s: DeckState, now: real, position: Option<real>): (r: DeckState)
  {
    if s.isLoaded then s.(pos := s.pos.(cuePoint := position.GetOr(CurrentTime(s, now)))) else s
  }

  /** `jumpToCue()`: a seek to the cue point when it is not negative. */
  function JumpToCue(s: DeckState, now: real): (r: Step)
    requires Wf(s)
    ensures Wf(r.deck)
  {
    if s.isLoaded && s.pos.cuePoint >= 0.0 then Seek(s, now, s.pos.cuePoint) else Step(s, [])
  }

  /** The tempo bookkeeping of `setGlobalBPMSync`, before the rate update. */
  function RetargetTempo(s: DeckState, globalBPM: real, originalBPM: real): DeckState
    requires globalBPM != 0.0
  {
    s.(tempo := s.tempo.(globalBPM := globalBPM, originalBPM := originalBPM,
                         currentBPM := globalBPM, beatInterval := BeatDuration(globalBPM)))
  }

  /** `setGlobalBPMSync(globalBPM, originalBPM)`. */
  function SetGlobalBPMSync(s: DeckState, now: real, globalBPM: real, originalBPM: real): (r: DeckState)
    requires Wf(s)
    requires globalBPM != 0.0
    ensures Wf(r)
  {
    var s2 := UpdatePlaybackRate(RetargetTempo(s, globalBPM, originalBPM));
    if s2.isLoaded then PrepareForBeatSync(s2, now) else s2
  }

  /** `reSnapToGrid()`: a loaded deck is paused if playing and re-prepared. */
  function ReSnapToGrid(s: DeckState, now: real): (r: Step)
    requires Wf(s)
    ensures Wf(r.deck)
  {
    if !s.isLoaded then Step(s, [])
    else
      var paused := if s.isPlaying then Pause(s, now) else Step(s, []);
      Step(PrepareForBeatSync(paused.deck, now), paused.ops)
  }

  /** `triggerBackspin()`: a playing deck remembers its position, pauses and
      arms a resume; the sound plays whenever it has loaded. */
  function TriggerBackspin(s: DeckState, now: real, soundLoaded: bool): (r: Step)
    requires Wf(s)
    ensures Wf(r.deck)
  {
    var sound := if soundLoaded then 1 else 0;
    if s.isPlaying then
      var current := CurrentTime(s, now);
      var paused := Pause(s, now);
      Step(paused.deck.(backspinSounds := paused.deck.backspinSounds + sound,
                        backspinResumes := paused.deck.backspinResumes + [current]),
           paused.ops)
    else
      Step(s.(backspinSounds := s.backspinSounds + sound), [])
  }

  /** The oldest pending backspin resume fires: seek 1.5 s before the
      remembered position (not below 0), then play. */
  function BackspinResume(s: DeckState, now: real): (r: Step)
    requires Wf(s)
    requires |s.backspinResumes| > 0
    ensures Wf(r.deck)
  {
    var from := s.backspinResumes[0];
    var s0 := s.(backspinResumes := s.backspinResumes[1..]);
    var sought := Seek(s0, now, Max(0.0, from - BackspinRewind));
    var played := Play(sought.deck, now, false);
    Step(played.deck, sought.ops + played.ops)
  }

  /** `getGridPosition()` at transport time `now`. */
  function GetGridPosition(s: DeckState, now: real): GridPosition
    requires Wf(s)
  {
    if !s.isLoaded then GridPosition(1, 1, false, false)
    else
      var currentBeat := (now / BeatDuration(s.tempo.globalBPM)).Floor;
      GridPosition((currentBeat as real / 4.0).Floor + 1, JsRemInt(currentBeat, 4) + 1,
                   s.snap.isGridAligned, s.snap.isQueued)
  }

  /** `dispose()`: the timeout is cleared and the player silenced. */
  function Dispose(s: DeckState): (r: DeckState)
  {
    s.(timer := NoTimer, player := s.player.(running := false))
  }
}
