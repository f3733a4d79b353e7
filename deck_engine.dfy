/** One deck of the mixer: the engine object whose methods update its fields
    in place and register or cancel callbacks on the shared transport. Each
    method is proved to perform the matching `DeckSpec` transition on the
    engine's state and the matching operations on the transport. */
module DeckEngine {
  import opened Timing
  import opened Optional
  import opened Transport
  import DeckSpec

  class DeckAudioEngine {
    /** Which deck this engine plays; it tags the callbacks it schedules. */
    const slot: DeckId
    /** The transport both decks and the store share. */
    const transport: Transport

    /** The Tone.js player: whether one exists, whether it is sounding, and its rate. */
    var player: DeckSpec.Player
    var isLoaded: bool
    var isPlaying: bool
    /** `currentBPM`, `originalBPM`, `globalBPM`, `beatInterval`, `basePlaybackRate`. */
    var tempo: DeckSpec.Tempo
    /** `trackDuration`, `startTime`, `pausedAt`, `cuePoint`. */
    var pos: DeckSpec.Position
    /** `isQueued`, `isGridAligned`, `isWaitingForBar`, `nextBarTime`,
        `scheduledStartTime`, `scheduledOffset`. */
    var snap: DeckSpec.BarSnap
    /** `isScrubbing`, `wasPlayingBeforeScrub`, `scrubStartTime`, `scrubStartPosition`. */
    var scrub: DeckSpec.ScrubMark
    /** `tempoBendTimeout`, shared by scrubbing and tempo bends. */
    var timer: DeckSpec.Timer
    /** Positions remembered by backspins whose resume timeout is pending, oldest first. */
    var backspinResumes: seq<real>
    /** How many times the backspin sound was started. */
    var backspinSounds: nat

    /** The engine's transport state as a `DeckSpec.DeckState` value. */
    function State(): DeckSpec.DeckState
      reads this
    {
      DeckSpec.DeckState(player, isLoaded, isPlaying, tempo, pos, snap, scrub,
                         timer, backspinResumes, backspinSounds)
    }

    ghost predicate Valid()
      reads this
    {
      DeckSpec.Wf(State())
    }

    constructor(slot: DeckId, transport: Transport)
      ensures this.slot == slot && this.transport == transport
      ensures State() == DeckSpec.Initial
      ensures Valid()
    {
      this.slot := slot;
      this.transport := transport;
      player := DeckSpec.Player(false, false, 1.0);
      isLoaded, isPlaying := false, false;
      tempo := DeckSpec.Tempo(DefaultBPM, DefaultBPM, DefaultBPM, 0.0, 1.0);
      pos := DeckSpec.Position(0.0, 0.0, 0.0, 0.0);
      snap := DeckSpec.BarSnap(false, false, false, 0.0, 0.0, 0.0);
      scrub := DeckSpec.ScrubMark(false, false, 0.0, 0.0);
      timer, backspinResumes, backspinSounds := DeckSpec.NoTimer, [], 0;
    }

    /** `getCurrentTime()` at transport time `now`. */
    function GetCurrentTime(now: real): (t: real)
      reads this
      ensures t == DeckSpec.CurrentTime(State(), now)
    {
      if player.present && isLoaded then
        if isPlaying then (now - pos.startTime) * tempo.basePlaybackRate else pos.pausedAt
      else
        0.0
    }

    /** `getGridPosition()` at transport time `now`. */
    function GetGridPosition(now: real): (g: DeckSpec.GridPosition)
      reads this
      requires Valid()
      ensures g == DeckSpec.GetGridPosition(State(), now)
    {
      if !isLoaded then DeckSpec.GridPosition(1, 1, false, false)
      else
        var beatDuration := 60.0 / tempo.globalBPM;
        var currentBeat := (now / beatDuration).Floor;
        var bar := (currentBeat as real / 4.0).Floor + 1;
        var beat := JsRemInt(currentBeat, 4) + 1;
        DeckSpec.GridPosition(bar, beat, snap.isGridAligned, snap.isQueued)
    }

    /** `loadTrack(url, userDefinedBPM)`, with decoding ended as `outcome`. */
    method LoadTrack(outcome: DeckSpec.LoadOutcome, userDefinedBPM: real, now: real) returns (loaded: bool)
      requires Valid()
      requires outcome.Decoded? ==> outcome.duration >= 0.0
      modifies this
      ensures Valid()
      ensures State() == DeckSpec.LoadTrack(old(State()), outcome, userDefinedBPM, now)
      ensures loaded <==> outcome.Decoded?
    {
      ghost var s0 := State();
      player := DeckSpec.Player(true, false, 1.0);
      match outcome {
        case DecodeFailed =>
          isLoaded := false;
          loaded := false;
        case Decoded(duration) =>
          isLoaded := true;
          isPlaying := false;
          pos := pos.(trackDuration := duration, pausedAt := 0.0, cuePoint := 0.0);
          snap := snap.(scheduledOffset := 0.0);
          tempo := tempo.(originalBPM := userDefinedBPM, globalBPM := DefaultBPM);
          tempo := tempo.(currentBPM := tempo.globalBPM, beatInterval := BeatDuration(tempo.globalBPM));
          assert State() == DeckSpec.ResetForTrack(DeckSpec.ReplacePlayer(s0), duration, userDefinedBPM);
          UpdatePlaybackRate();
          PrepareForBeatSync(now);
          loaded := true;
      }
    }

    /** `updatePlaybackRate()`. */
    method UpdatePlaybackRate()
      modifies this
      ensures State() == DeckSpec.UpdatePlaybackRate(old(State()))
    {
      if player.present && tempo.originalBPM > 0.0 {
        tempo := tempo.(basePlaybackRate := CalculatePlaybackRate(tempo.originalBPM, tempo.globalBPM));
        player := player.(rate := tempo.basePlaybackRate);
      }
    }

    /** `prepareForBeatSync()` at transport time `now`. */
    method PrepareForBeatSync(now: real)
      requires Valid()
      modifies this
      ensures State() == DeckSpec.PrepareForBeatSync(old(State()), now)
    {
      if !player.present || !isLoaded {
        return;
      }
      var nextBar := NextBarBoundary(now, tempo.globalBPM);
      snap := snap.(nextBarTime := Max(nextBar, now + DeckSpec.PrepareLookahead),
                    isQueued := true, isGridAligned := true, isWaitingForBar := true);
    }

    /** `play(fromCue)` at transport time `now`. */
    method Play(now: real, fromCue: bool)
      requires Valid()
      modifies this, transport
      ensures Valid()
      ensures State() == DeckSpec.Play(old(State()), now, fromCue).deck
      ensures transport.pending == DeckSpec.ApplyOps(old(transport.pending), DeckSpec.Play(old(State()), now, fromCue).ops, slot)
      ensures transport.running == old(transport.running) && transport.bpm == old(transport.bpm)
    {
      if player.present && isLoaded && !isPlaying {
        UpdatePlaybackRate();
        if snap.isQueued && snap.isGridAligned && !fromCue {
          var nextBar := NextBarBoundary(now, tempo.globalBPM);
          var scheduledTime := Max(nextBar, now + DeckSpec.PlayLookahead);
          snap := snap.(scheduledStartTime := scheduledTime, scheduledOffset := pos.pausedAt);
          transport.Schedule(Event(scheduledTime, EngineStart(slot)));
          isPlaying := true;
        } else {
          var startPosition := if fromCue then pos.cuePoint else pos.pausedAt;
          pos := pos.(startTime := now - startPosition);
          snap := snap.(scheduledOffset := startPosition);
          player := player.(running := true);
          isPlaying := true;
          snap := snap.(isGridAligned := false, isQueued := false, isWaitingForBar := false);
        }
      }
    }

    /** The callback a bar-aligned `play` registers, run at transport time `time`. */
    method OnScheduledStart(time: real)
      modifies this
      ensures State() == DeckSpec.OnScheduledStart(old(State()), time)
    {
      if player.present && snap.isQueued {
        player := player.(running := true);
        pos := pos.(startTime := time - pos.pausedAt);
        snap := snap.(isQueued := false, isWaitingForBar := false);
      }
    }

    /** `pause()` at transport time `now`. */
    method Pause(now: real)
      requires Valid()
      modifies this, transport
      ensures Valid()
      ensures State() == DeckSpec.Pause(old(State()), now).deck
      ensures transport.pending == DeckSpec.ApplyOps(old(transport.pending), DeckSpec.Pause(old(State()), now).ops, slot)
      ensures transport.running == old(transport.running) && transport.bpm == old(transport.bpm)
    {
      if player.present && isPlaying {
        pos := pos.(pausedAt := GetCurrentTime(now));
        player := player.(running := false);
        isPlaying := false;
        snap := snap.(isQueued := false, isGridAligned := false, isWaitingForBar := false);
        transport.Cancel();
      }
    }

    /** `seek(position)` at transport time `now`. */
    method Seek(now: real, position: real)
      requires Valid()
      modifies this, transport
      ensures Valid()
      ensures State() == DeckSpec.Seek(old(State()), now, position).deck
      ensures transport.pending == DeckSpec.ApplyOps(old(transport.pending), DeckSpec.Seek(old(State()), now, position).ops, slot)
      ensures transport.running == old(transport.running) && transport.bpm == old(transport.bpm)
    {
      if player.present && isLoaded {
        ghost var s0 := State();
        ghost var pending0 := transport.pending;
        var wasPlaying := isPlaying;
        if wasPlaying {
          Pause(now);
        }
        ghost var paused := if wasPlaying then DeckSpec.Pause(s0, now) else DeckSpec.Step(s0, []);
        assert State() == paused.deck;
        assert transport.pending == DeckSpec.ApplyOps(pending0, paused.ops, slot);
        var clampedPosition := Clamp(position, 0.0, pos.trackDuration);
        pos := pos.(pausedAt := clampedPosition);
        snap := snap.(isGridAligned := false, isQueued := false, isWaitingForBar := false);
        if wasPlaying {
          ghost var moved := State();
          Play(now, false);
          DeckSpec.ApplyOpsAppend(pending0, paused.ops, DeckSpec.Play(moved, now, false).ops, slot);
        }
      }
    }

    /** `scrub(velocity)` at transport time `now`. */
    method Scrub(now: real, velocity: real)
      requires Valid()
      modifies this
      ensures Valid()
      ensures State() == DeckSpec.Scrub(old(State()), now, velocity)
    {
      if !player.present || !isLoaded {
        return;
      }
      ghost var s0 := State();
      var currentTime := GetCurrentTime(now);
      if !scrub.isScrubbing {
        scrub := DeckSpec.ScrubMark(true, isPlaying, now, currentTime);
      }
      assert State() == DeckSpec.BeginScrub(s0, now);
      var scrubRate := 1.0 + velocity * DeckSpec.ScrubSensitivity;
      if isPlaying {
        var clampedRate := Max(DeckSpec.MinScrubRate, Min(DeckSpec.MaxScrubRate, scrubRate));
        player := player.(rate := tempo.basePlaybackRate * clampedRate);
      } else {
        var scrubAmount := velocity * DeckSpec.ScrubNudge;
        pos := pos.(pausedAt := Max(0.0, Min(currentTime + scrubAmount, pos.trackDuration)));
      }
      snap := snap.(isGridAligned := false, isQueued := false, isWaitingForBar := false);
      timer := DeckSpec.ScrubStop;
    }

    /** `stopScrubbing()`. */
    method StopScrubbing()
      modifies this
      ensures State() == DeckSpec.StopScrubbing(old(State()))
    {
      if !scrub.isScrubbing {
        return;
      }
      scrub := scrub.(isScrubbing := false);
      if player.present && isPlaying {
        player := player.(rate := tempo.basePlaybackRate);
      }
      timer := DeckSpec.NoTimer;
    }

    /** The pending timeout fires. */
    method FireTimer()
      modifies this
      ensures State() == DeckSpec.FireTimer(old(State()))
    {
      match timer {
        case NoTimer =>
        case ScrubStop =>
          StopScrubbing();
          timer := DeckSpec.NoTimer;
        case BendRevert =>
          if player.present {
            player := player.(rate := tempo.basePlaybackRate);
          }
          timer := DeckSpec.NoTimer;
      }
    }

    /** `bendTempo(rate)`. */
    method BendTempo(rate: real)
      modifies this
      ensures State() == DeckSpec.BendTempo(old(State()), rate)
    {
      if player.present && isLoaded {
        player := player.(rate := tempo.basePlaybackRate * rate);
        timer := DeckSpec.NoTimer;
        if rate != 1.0 {
          timer := DeckSpec.BendRevert;
        }
      }
    }

    /** `setCuePoint(position?)` at transport time `now`. */
    method SetCuePoint(now: real, position: Option<real>)
      modifies this
      ensures State() == DeckSpec.SetCuePoint(old(State()), now, position)
    {
      if isLoaded {
        pos := pos.(cuePoint := if position.Some? then position.value else GetCurrentTime(now));
      }
    }

    /** `jumpToCue()` at transport time `now`. */
    method JumpToCue(now: real)
      requires Valid()
      modifies this, transport
      ensures Valid()
      ensures State() == DeckSpec.JumpToCue(old(State()), now).deck
      ensures transport.pending == DeckSpec.ApplyOps(old(transport.pending), DeckSpec.JumpToCue(old(State()), now).ops, slot)
      ensures transport.running == old(transport.running) && transport.bpm == old(transport.bpm)
    {
      if isLoaded && pos.cuePoint >= 0.0 {
        Seek(now, pos.cuePoint);
      }
    }

    /** `setGlobalBPMSync(globalBPM, originalBPM)` at transport time `now`. */
    method SetGlobalBPMSync(now: real, globalBPM: real, originalBPM: real)
      requires Valid()
      requires globalBPM != 0.0
      modifies this
      ensures Valid()
      ensures State() == DeckSpec.SetGlobalBPMSync(old(State()), now, globalBPM, originalBPM)
    {
      tempo := tempo.(globalBPM := globalBPM, originalBPM := originalBPM,
                      currentBPM := globalBPM, beatInterval := 60.0 / globalBPM);
      UpdatePlaybackRate();
      if isLoaded {
        PrepareForBeatSync(now);
      }
    }

    /** `reSnapToGrid()` at transport time `now`. */
    method ReSnapToGrid(now: real)
      requires Valid()
      modifies this, transport
      ensures Valid()
      ensures State() == DeckSpec.ReSnapToGrid(old(State()), now).deck
      ensures transport.pending == DeckSpec.ApplyOps(old(transport.pending), DeckSpec.ReSnapToGrid(old(State()), now).ops, slot)
      ensures transport.running == old(transport.running) && transport.bpm == old(transport.bpm)
    {
      if !isLoaded {
        return;
      }
      if isPlaying {
        Pause(now);
      }
      PrepareForBeatSync(now);
    }

    /** `triggerBackspin()` at transport time `now`; `soundLoaded` says
        whether the backspin sample has finished loading. */
    method TriggerBackspin(now: real, soundLoaded: bool)
      requires Valid()
      modifies this, transport
      ensures Valid()
      ensures State() == DeckSpec.TriggerBackspin(old(State()), now, soundLoaded).deck
      ensures transport.pending == DeckSpec.ApplyOps(old(transport.pending), DeckSpec.TriggerBackspin(old(State()), now, soundLoaded).ops, slot)
      ensures transport.running == old(transport.running) && transport.bpm == old(transport.bpm)
    {
      if isPlaying {
        var currentTime := GetCurrentTime(now);
        Pause(now);
        if soundLoaded {
          backspinSounds := backspinSounds + 1;
        }
        backspinResumes := backspinResumes + [currentTime];
      } else {
        if soundLoaded {
          backspinSounds := backspinSounds + 1;
        }
      }
    }

    /** The oldest backspin resume timeout fires at transport time `now`. */
    method FireBackspinResume(now: real)
      requires Valid()
      requires |backspinResumes| > 0
      modifies this, transport
      ensures Valid()
      ensures State() == DeckSpec.BackspinResume(old(State()), now).deck
      ensures transport.pending == DeckSpec.ApplyOps(old(transport.pending), DeckSpec.BackspinResume(old(State()), now).ops, slot)
      ensures transport.running == old(transport.running) && transport.bpm == old(transport.bpm)
    {
      ghost var pending0 := transport.pending;
      ghost var start := State();
      var currentTime := backspinResumes[0];
      backspinResumes := backspinResumes[1..];
      ghost var s0 := State();
      assert s0 == start.(backspinResumes := start.backspinResumes[1..]);
      var newTime := Max(0.0, currentTime - DeckSpec.BackspinRewind);
      Seek(now, newTime);
      ghost var sought := DeckSpec.Seek(s0, now, newTime);
      Play(now, false);
      ghost var played := DeckSpec.Play(sought.deck, now, false);
      DeckSpec.ApplyOpsAppend(pending0, sought.ops, played.ops, slot);
      assert DeckSpec.BackspinResume(start, now) == DeckSpec.Step(played.deck, sought.ops + played.ops);
    }

    /** `dispose()`: the timeout is cleared and the player stops. */
    method Dispose()
      modifies this
      ensures State() == DeckSpec.Dispose(old(State()))
    {
      timer := DeckSpec.NoTimer;
      player := player.(running := false);
    }
  }
}
