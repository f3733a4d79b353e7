/** What the deck engine's transitions promise, proved over `DeckSpec`. */
module DeckProperties {
  import opened Timing
  import opened Optional
  import opened Transport
  import opened DeckSpec

  // ---------------------------------------------------------------- loading

  /** A successful load leaves a stopped, loaded deck at position 0 with its
      cue at 0, synced to 128 BPM and queued for the next bar at least 100 ms
      ahead. The new player starts at rate 1; when the track's tempo is
      positive the base rate is set so that it plays at 128 BPM, otherwise
      the previous base rate is kept while the player stays at 1. */
  lemma LoadSuccess(s: DeckState, duration: real, userDefinedBPM: real, now: real)
    requires Wf(s) && duration >= 0.0
    ensures var r := LoadTrack(s, Decoded(duration), userDefinedBPM, now);
      && r.player.present && !r.player.running
      && r.isLoaded && !r.isPlaying
      && r.pos.pausedAt == 0.0 && r.pos.cuePoint == 0.0 && r.snap.scheduledOffset == 0.0
      && r.pos.trackDuration == duration
      && r.tempo.originalBPM == userDefinedBPM
      && r.tempo.globalBPM == DefaultBPM && r.tempo.currentBPM == DefaultBPM
      && r.snap.isQueued && r.snap.isGridAligned && r.snap.isWaitingForBar
      && r.snap.nextBarTime >= now + PrepareLookahead
      && r.snap.nextBarTime >= NextBarBoundary(now, DefaultBPM)
      && (userDefinedBPM > 0.0 ==>
            r.tempo.basePlaybackRate * userDefinedBPM == DefaultBPM && r.player.rate == r.tempo.basePlaybackRate)
      && (userDefinedBPM <= 0.0 ==>
            r.tempo.basePlaybackRate == s.tempo.basePlaybackRate && r.player.rate == 1.0)
  {
  }

  /** A failed load leaves the deck unloaded with a fresh, silent player;
      every other field, including `isPlaying`, keeps its old value. */
  lemma LoadFailure(s: DeckState, userDefinedBPM: real, now: real)
    requires Wf(s)
    ensures var r := LoadTrack(s, DecodeFailed, userDefinedBPM, now);
      && !r.isLoaded && r.player.present && !r.player.running && r.player.rate == 1.0
      && r.isPlaying == s.isPlaying
      && r.pos.pausedAt == s.pos.pausedAt && r.pos.cuePoint == s.pos.cuePoint
      && r.pos.trackDuration == s.pos.trackDuration
      && r.tempo.globalBPM == s.tempo.globalBPM && r.tempo.basePlaybackRate == s.tempo.basePlaybackRate
  {
  }

  /** `prepareForBeatSync` changes nothing without a loaded track. With one
      it queues the deck for the later of the next bar boundary and 100 ms
      from now. */
  lemma PrepareForBeatSyncBounds(s: DeckState, now: real)
    requires Wf(s)
    ensures !(s.player.present && s.isLoaded) ==> PrepareForBeatSync(s, now) == s
    ensures s.player.present && s.isLoaded ==>
      var r := PrepareForBeatSync(s, now);
      && r.snap.isQueued && r.snap.isGridAligned && r.snap.isWaitingForBar
      && r.snap.nextBarTime >= now + PrepareLookahead
      && r.snap.nextBarTime >= NextBarBoundary(now, s.tempo.globalBPM)
      && (r.snap.nextBarTime == now + PrepareLookahead || r.snap.nextBarTime == NextBarBoundary(now, s.tempo.globalBPM))
      && r.pos.pausedAt == s.pos.pausedAt && r.isPlaying == s.isPlaying
  {
  }

  // ---------------------------------------------------------------- play

  /** `play` does nothing without a player or a loaded track, or while playing. */
  lemma PlayNoOp(s: DeckState, now: real, fromCue: bool)
    requires Wf(s) && !CanPlay(s)
    ensures Play(s, now, fromCue) == Step(s, [])
  {
  }

  /** A deck that can play is playing afterwards, and it touches the
      transport exactly when it takes the bar-aligned branch. */
  lemma PlayBranch(s: DeckState, now: real, fromCue: bool)
    requires Wf(s) && CanPlay(s)
    ensures Play(s, now, fromCue).deck.isPlaying
    ensures |Play(s, now, fromCue).ops| > 0 <==> BarAligned(s, fromCue)
  {
  }

  /** The bar-aligned branch schedules one start no earlier than 50 ms from
      now and no earlier than the next bar boundary, remembers the paused
      position as the offset, and reports the deck as playing although the
      player has not started. */
  lemma PlayBarAligned(s: DeckState, now: real, fromCue: bool)
    requires Wf(s) && CanPlay(s) && BarAligned(s, fromCue)
    ensures var r := Play(s, now, fromCue);
      && |r.ops| == 1 && r.ops[0].ScheduleStart?
      && r.ops[0].at >= now + PlayLookahead
      && r.ops[0].at >= NextBarBoundary(now, s.tempo.globalBPM)
      && r.deck.snap.scheduledStartTime == r.ops[0].at
      && r.deck.snap.scheduledOffset == s.pos.pausedAt
      && r.deck.isPlaying && r.deck.player.running == s.player.running
      && r.deck.snap.isQueued && r.deck.pos.pausedAt == s.pos.pausedAt
  {
  }

  /** The immediate branch starts the player from the cue point or the
      paused position, dates the start back by that position and drops the
      grid alignment. The position it then reports is the start position
      scaled by the base rate, so it matches the start position only at
      rate 1 or from position 0. */
  lemma PlayImmediate(s: DeckState, now: real, fromCue: bool)
    requires Wf(s) && CanPlay(s) && !BarAligned(s, fromCue)
    ensures var r := Play(s, now, fromCue);
      var start := if fromCue then s.pos.cuePoint else s.pos.pausedAt;
      && r.ops == []
      && r.deck.pos.startTime == now - start
      && r.deck.snap.scheduledOffset == start
      && r.deck.isPlaying && r.deck.player.running
      && !r.deck.snap.isQueued && !r.deck.snap.isGridAligned && !r.deck.snap.isWaitingForBar
      && CurrentTime(r.deck, now) == start * r.deck.tempo.basePlaybackRate
  {
  }

  /** The scheduled start, when it fires at `time`, starts the player from
      the paused position and clears the queue; if the deck is no longer
      queued it does nothing. */
  lemma ScheduledStartFires(s: DeckState, time: real)
    ensures s.player.present && s.snap.isQueued ==>
      var r := OnScheduledStart(s, time);
      r.player.running && r.pos.startTime + s.pos.pausedAt == time && !r.snap.isQueued && !r.snap.isWaitingForBar
    ensures !(s.player.present && s.snap.isQueued) ==> OnScheduledStart(s, time) == s
  {
  }

  // ---------------------------------------------------------------- pause

  /** Pausing a playing deck stores its position, stops the player, clears
      every flag and cancels all transport callbacks; otherwise it does nothing. */
  lemma PauseFacts(s: DeckState, now: real)
    requires Wf(s)
    ensures s.player.present && s.isPlaying ==>
      var r := Pause(s, now);
      && r.ops == [CancelAll]
      && r.deck.pos.pausedAt == CurrentTime(s, now)
      && !r.deck.isPlaying && !r.deck.player.running
      && !r.deck.snap.isQueued && !r.deck.snap.isGridAligned && !r.deck.snap.isWaitingForBar
    ensures !(s.player.present && s.isPlaying) ==> Pause(s, now) == Step(s, [])
  {
  }

  /** After a pause no start is pending on the transport, whichever deck or
      the store scheduled it, and a start callback still running would find
      the deck unqueued and do nothing. */
  lemma PauseDropsQueuedStart(s: DeckState, now: real, pending: seq<Event>, slot: DeckId, time: real)
    requires Wf(s) && s.player.present && s.isPlaying
    ensures ApplyOps(pending, Pause(s, now).ops, slot) == []
    ensures OnScheduledStart(Pause(s, now).deck, time) == Pause(s, now).deck
  {
  }

  /** Scaling `p` by `b` gives `p` back exactly when `b` is 1 or `p` is 0. */
  lemma ScaleFixedPoint(q: real, p: real, b: real)
    requires q == p * b
    ensures q == p <==> (b == 1.0 || p == 0.0)
  {
    assert p * b - p == p * (b - 1.0);
  }

  /** Playing from the paused position and pausing again at the same
      instant keeps the position only at base rate 1 or at position 0. */
  lemma PausePlayRoundTrip(s: DeckState, now: real)
    requires Wf(s) && CanPlay(s) && !BarAligned(s, false)
    ensures var played := Play(s, now, false).deck;
      (Pause(played, now).deck.pos.pausedAt == s.pos.pausedAt) <==> (played.tempo.basePlaybackRate == 1.0 || s.pos.pausedAt == 0.0)
  {
    var played := Play(s, now, false).deck;
    PlayImmediate(s, now, false);
    var q := Pause(played, now).deck.pos.pausedAt;
    assert q == s.pos.pausedAt * played.tempo.basePlaybackRate;
    ScaleFixedPoint(q, s.pos.pausedAt, played.tempo.basePlaybackRate);
  }

  // ---------------------------------------------------------------- seek

  /** Seeking a loaded deck parks it at the position clamped to the track,
      drops the grid alignment and keeps it playing or stopped as it was. A
      playing deck is paused (cancelling all transport callbacks) and
      restarted at once through the immediate branch. */
  lemma SeekFacts(s: DeckState, now: real, position: real)
    requires Wf(s) && s.player.present && s.isLoaded
    ensures var r := Seek(s, now, position);
      var p := Clamp(position, 0.0, s.pos.trackDuration);
      && r.deck.pos.pausedAt == p
      && 0.0 <= r.deck.pos.pausedAt <= r.deck.pos.trackDuration
      && r.deck.isPlaying == s.isPlaying
      && !r.deck.snap.isQueued && !r.deck.snap.isGridAligned && !r.deck.snap.isWaitingForBar
      && (s.isPlaying ==>
            r.ops == [CancelAll] && r.deck.player.running && r.deck.pos.startTime == now - p)
      && (!s.isPlaying ==> r.ops == [] && CurrentTime(r.deck, now) == p)
  {
    if s.isPlaying {
      var paused := Pause(s, now);
      var moved := paused.deck.(pos := paused.deck.pos.(pausedAt := Clamp(position, 0.0, paused.deck.pos.trackDuration)),
                                snap := Unaligned(paused.deck.snap));
      assert CanPlay(moved) && !BarAligned(moved, false);
      PlayImmediate(moved, now, false);
    }
  }

  /** Seeking without a player or a loaded track does nothing. */
  lemma SeekUnloaded(s: DeckState, now: real, position: real)
    requires Wf(s) && !(s.player.present && s.isLoaded)
    ensures Seek(s, now, position) == Step(s, [])
  {
  }

  /** Jumping to a cue point inside the track parks the deck exactly there. */
  lemma JumpToCueLands(s: DeckState, now: real)
    requires Wf(s) && s.player.present && s.isLoaded
    requires 0.0 <= s.pos.cuePoint <= s.pos.trackDuration
    ensures JumpToCue(s, now).deck.pos.pausedAt == s.pos.cuePoint
    ensures JumpToCue(s, now).deck.isPlaying == s.isPlaying
  {
    SeekFacts(s, now, s.pos.cuePoint);
  }

  /** A negative cue point, or an unloaded deck, makes the jump a no-op. */
  lemma JumpToCueIgnored(s: DeckState, now: real)
    requires Wf(s) && !(s.isLoaded && s.pos.cuePoint >= 0.0)
    ensures JumpToCue(s, now) == Step(s, [])
  {
  }

  /** The cue point becomes the given position, or the current one when
      none is given; without a track nothing changes. */
  lemma SetCuePointFacts(s: DeckState, now: real, position: Option<real>)
    ensures s.isLoaded && position.Some? ==> SetCuePoint(s, now, position).pos.cuePoint == position.value
    ensures s.isLoaded && position.None? ==> SetCuePoint(s, now, position).pos.cuePoint == CurrentTime(s, now)
    ensures !s.isLoaded ==> SetCuePoint(s, now, position) == s
    ensures SetCuePoint(s, now, position).pos.pausedAt == s.pos.pausedAt
  {
  }

  // ---------------------------------------------------------------- scrub

  /** Scrubbing a playing deck sets the rate to the base rate times the
      velocity factor clamped to [0.1, 4], keeps the position, and arms the
      quiescence timeout. The first scrub remembers that the deck was playing. */
  lemma ScrubPlaying(s: DeckState, now: real, velocity: real)
    requires Wf(s) && s.player.present && s.isLoaded && s.isPlaying
    ensures var r := Scrub(s, now, velocity);
      && r.player.rate == s.tempo.basePlaybackRate * Clamp(1.0 + velocity * ScrubSensitivity, MinScrubRate, MaxScrubRate)
      && (s.tempo.basePlaybackRate > 0.0 ==>
            MinScrubRate * s.tempo.basePlaybackRate <= r.player.rate <= MaxScrubRate * s.tempo.basePlaybackRate)
      && r.pos.pausedAt == s.pos.pausedAt && r.isPlaying
      && r.scrub.isScrubbing && r.timer == ScrubStop
      && !r.snap.isQueued && !r.snap.isGridAligned && !r.snap.isWaitingForBar
      && (!s.scrub.isScrubbing ==> r.scrub.wasPlayingBeforeScrub && r.scrub.startPosition == CurrentTime(s, now))
  {
    var f := Clamp(1.0 + velocity * ScrubSensitivity, MinScrubRate, MaxScrubRate);
    if s.tempo.basePlaybackRate > 0.0 {
      MulMono(MinScrubRate, f, s.tempo.basePlaybackRate);
      MulMono(f, MaxScrubRate, s.tempo.basePlaybackRate);
    }
  }

  /** Scrubbing a stopped deck nudges the paused position by a tenth of the
      velocity, clamped to the track, and leaves the rate alone. */
  lemma ScrubStopped(s: DeckState, now: real, velocity: real)
    requires Wf(s) && s.player.present && s.isLoaded && !s.isPlaying
    ensures var r := Scrub(s, now, velocity);
      && r.pos.pausedAt == Clamp(s.pos.pausedAt + velocity * ScrubNudge, 0.0, s.pos.trackDuration)
      && 0.0 <= r.pos.pausedAt <= s.pos.trackDuration
      && r.player.rate == s.player.rate
      && !r.isPlaying && r.scrub.isScrubbing && r.timer == ScrubStop
      && !r.snap.isQueued && !r.snap.isGridAligned && !r.snap.isWaitingForBar
      && (!s.scrub.isScrubbing ==> !r.scrub.wasPlayingBeforeScrub)
  {
  }

  /** Scrubbing without a player or a loaded track does nothing. */
  lemma ScrubUnloaded(s: DeckState, now: real, velocity: real)
    requires Wf(s) && !(s.player.present && s.isLoaded)
    ensures Scrub(s, now, velocity) == s
  {
  }

  /** When scrub input stops, the quiescence timeout ends the scrub and a
      playing deck is back at exactly its base rate. */
  lemma ScrubQuiescence(s: DeckState, now: real, velocity: real)
    requires Wf(s) && s.player.present && s.isLoaded
    ensures var r := FireTimer(Scrub(s, now, velocity));
      && !r.scrub.isScrubbing && r.timer == NoTimer
      && (s.isPlaying ==> r.player.rate == s.tempo.basePlaybackRate)
      && r.pos.pausedAt == Scrub(s, now, velocity).pos.pausedAt
  {
  }

  /** `stopScrubbing` does nothing when no scrub is in progress. */
  lemma StopScrubbingIdle(s: DeckState)
    requires !s.scrub.isScrubbing
    ensures StopScrubbing(s) == s
  {
  }

  // ---------------------------------------------------------------- tempo bend

  /** A bend applies the factor on top of the base rate; a bend other than 1
      reverts to the base rate when its timeout fires, a bend of 1 arms nothing. */
  lemma BendFacts(s: DeckState, rate: real)
    requires s.player.present && s.isLoaded
    ensures BendTempo(s, rate).player.rate == s.tempo.basePlaybackRate * rate
    ensures rate != 1.0 ==> FireTimer(BendTempo(s, rate)).player.rate == s.tempo.basePlaybackRate
    ensures rate == 1.0 ==> BendTempo(s, rate).timer == NoTimer
    ensures FireTimer(BendTempo(s, rate)).timer == NoTimer
  {
  }

  /** The scrub and the bend share one timeout: a bend during a scrub
      replaces the quiescence timeout, so when the bend's timeout fires the
      deck is still marked as scrubbing. */
  lemma BendDuringScrubLeavesScrubbing(s: DeckState, now: real, velocity: real, rate: real)
    requires Wf(s) && s.player.present && s.isLoaded
    ensures var r := FireTimer(BendTempo(Scrub(s, now, velocity), rate));
      r.scrub.isScrubbing && r.timer == NoTimer
  {
    var scrubbed := Scrub(s, now, velocity);
    assert scrubbed.scrub.isScrubbing && scrubbed.player.present && scrubbed.isLoaded;
    var bent := BendTempo(scrubbed, rate);
    assert bent.scrub.isScrubbing && bent.timer != ScrubStop;
  }

  // ---------------------------------------------------------------- tempo sync

  /** After a global sync the deck's tempo fields follow the new global
      tempo and its play state and position are untouched; a loaded deck
      with a player is queued for the next bar again. */
  lemma SetGlobalBPMSyncTempo(s: DeckState, now: real, globalBPM: real, originalBPM: real)
    requires Wf(s) && globalBPM != 0.0
    ensures var r := SetGlobalBPMSync(s, now, globalBPM, originalBPM);
      && r.tempo.globalBPM == globalBPM && r.tempo.currentBPM == globalBPM && r.tempo.originalBPM == originalBPM
      && r.tempo.beatInterval == BeatDuration(globalBPM)
      && r.isPlaying == s.isPlaying && r.pos.pausedAt == s.pos.pausedAt
      && (s.player.present && s.isLoaded ==>
            r.snap.isQueued && r.snap.isGridAligned && r.snap.nextBarTime >= now + PrepareLookahead)
  {
    var s1 := RetargetTempo(s, globalBPM, originalBPM);
    UpdatePlaybackRateOnlyRates(s1);
    var s2 := UpdatePlaybackRate(s1);
    if s2.isLoaded {
      PrepareForBeatSyncBounds(s2, now);
    }
  }

  /** Updating the playback rate changes the base rate and the player's
      rate and nothing else. */
  lemma UpdatePlaybackRateOnlyRates(s: DeckState)
    ensures var r := UpdatePlaybackRate(s);
      r == s.(tempo := s.tempo.(basePlaybackRate := r.tempo.basePlaybackRate), player := s.player.(rate := r.player.rate))
  {
    if s.player.present && s.tempo.originalBPM > 0.0 {
      var rate := CalculatePlaybackRate(s.tempo.originalBPM, s.tempo.globalBPM);
      assert UpdatePlaybackRate(s) == s.(tempo := s.tempo.(basePlaybackRate := rate), player := s.player.(rate := rate));
    }
  }

  /** With a player and a positive original tempo, a global sync sets the
      base rate that plays the track at the global tempo, and the player
      follows it; it is 1 exactly when the two tempos agree. */
  lemma SetGlobalBPMSyncRate(s: DeckState, now: real, globalBPM: real, originalBPM: real)
    requires Wf(s) && globalBPM != 0.0
    requires s.player.present && originalBPM > 0.0
    ensures var r := SetGlobalBPMSync(s, now, globalBPM, originalBPM);
      && r.tempo.basePlaybackRate * originalBPM == globalBPM
      && r.player.rate == r.tempo.basePlaybackRate
      && (r.tempo.basePlaybackRate == 1.0 <==> originalBPM == globalBPM)
  {
    var s1 := RetargetTempo(s, globalBPM, originalBPM);
    var s2 := UpdatePlaybackRate(s1);
    var rate := CalculatePlaybackRate(originalBPM, globalBPM);
    assert s2.tempo.basePlaybackRate == rate && s2.player.rate == rate;
    assert SetGlobalBPMSync(s, now, globalBPM, originalBPM).tempo.basePlaybackRate == rate;
  }

  /** Re-snapping a loaded deck stops it if playing and queues it again. */
  lemma ReSnapFacts(s: DeckState, now: real)
    requires Wf(s) && s.player.present && s.isLoaded
    ensures var r := ReSnapToGrid(s, now);
      && !r.deck.isPlaying && r.deck.snap.isQueued && r.deck.snap.isGridAligned
      && r.deck.snap.nextBarTime >= now + PrepareLookahead
      && (r.ops == [CancelAll] <==> s.isPlaying)
  {
  }

  // ---------------------------------------------------------------- grid position

  /** For a loaded deck at a non-negative transport time the grid position
      is a 1-based bar and a beat in 1..4 that together count the beats
      elapsed; the flags mirror the engine's. Unloaded, it is bar 1 beat 1. */
  lemma GridPositionFacts(s: DeckState, now: real)
    requires Wf(s) && s.tempo.globalBPM > 0.0 && now >= 0.0
    ensures var g := GetGridPosition(s, now);
      s.isLoaded ==>
        && 1 <= g.beat <= 4 && g.bar >= 1
        && (g.bar - 1) * 4 + (g.beat - 1) == (now / BeatDuration(s.tempo.globalBPM)).Floor
        && g.isAligned == s.snap.isGridAligned && g.isQueued == s.snap.isQueued
    ensures !s.isLoaded ==> GetGridPosition(s, now) == GridPosition(1, 1, false, false)
  {
    if s.isLoaded {
      var n := (now / BeatDuration(s.tempo.globalBPM)).Floor;
      assert now / BeatDuration(s.tempo.globalBPM) >= 0.0;
      assert n >= 0;
      WholeQuarter(n);
    }
  }

  /** For a whole number of beats `n >= 0`, the real floor of `n / 4` is
      Dafny's integer quotient. */
  lemma WholeQuarter(n: int)
    requires n >= 0
    ensures (n as real / 4.0).Floor == n / 4
  {
    var q := n / 4;
    var m := n % 4;
    assert n == 4 * q + m;
    assert n as real / 4.0 == q as real + m as real / 4.0;
  }

  /** Position reporting: 0 without a loaded track, the paused offset for a
      loaded deck that is stopped, and in both cases it does not move with
      the clock. */
  lemma StoppedPositionHolds(s: DeckState, now: real, later: real)
    requires !(s.player.present && s.isLoaded && s.isPlaying)
    ensures CurrentTime(s, later) == CurrentTime(s, now)
    ensures !(s.player.present && s.isLoaded) ==> CurrentTime(s, now) == 0.0
    ensures s.player.present && s.isLoaded ==> CurrentTime(s, now) == s.pos.pausedAt
  {
  }

  /** A playing deck's position advances by the elapsed clock time scaled
      by the base rate. */
  lemma PlayingPositionAdvances(s: DeckState, now: real, later: real)
    requires s.player.present && s.isLoaded && s.isPlaying
    ensures CurrentTime(s, later) - CurrentTime(s, now) == (later - now) * s.tempo.basePlaybackRate
  {
    Distribute(later - s.pos.startTime, now - s.pos.startTime, s.tempo.basePlaybackRate);
  }

  /** `x * c - y * c == (x - y) * c`. */
  lemma Distribute(x: real, y: real, c: real)
    ensures x * c - y * c == (x - y) * c
  {
  }

  /** The reported position of a playing deck is not clamped to the track:
      one second of track past the end, it reads one second past the end. */
  lemma PlayingPositionUnclamped(s: DeckState)
    requires s.player.present && s.isLoaded && s.isPlaying
    requires s.tempo.basePlaybackRate != 0.0
    ensures var past := s.pos.startTime + (s.pos.trackDuration + 1.0) / s.tempo.basePlaybackRate;
      CurrentTime(s, past) == s.pos.trackDuration + 1.0 > s.pos.trackDuration
  {
    var rate := s.tempo.basePlaybackRate;
    var past := s.pos.startTime + (s.pos.trackDuration + 1.0) / rate;
    assert past - s.pos.startTime == (s.pos.trackDuration + 1.0) / rate;
    assert ((s.pos.trackDuration + 1.0) / rate) * rate == s.pos.trackDuration + 1.0;
  }

  // ---------------------------------------------------------------- reload

  /** Loading does not cancel transport callbacks. A bar-aligned start
      scheduled before a reload is still pending afterwards and, because the
      reloaded deck is queued again, it starts the new track's player while
      the deck reports that it is not playing. */
  lemma StaleStartSurvivesReload(s: DeckState, now: real, pending: seq<Event>, slot: DeckId,
                                 duration: real, userDefinedBPM: real, later: real)
    requires Wf(s) && CanPlay(s) && BarAligned(s, false) && duration >= 0.0
    ensures var played := Play(s, now, false);
      var after := ApplyOps(pending, played.ops, slot);
      var reloaded := LoadTrack(played.deck, Decoded(duration), userDefinedBPM, later);
      var fired := OnScheduledStart(reloaded, played.ops[0].at);
      && Event(played.ops[0].at, EngineStart(slot)) in after
      && fired.player.running && !fired.isPlaying
  {
    var played := Play(s, now, false);
    PlayBarAligned(s, now, false);
    assert ApplyOps(pending, played.ops, slot) == ApplyOps(ApplyOp(pending, played.ops[0], slot), [], slot);
    LoadSuccess(played.deck, duration, userDefinedBPM, later);
  }

  // ---------------------------------------------------------------- backspin

  /** A backspin on a playing deck pauses it (cancelling all transport
      callbacks) and arms a resume from the position it had; the sound
      plays only once loaded. On a stopped deck only the sound plays. */
  lemma BackspinFacts(s: DeckState, now: real, soundLoaded: bool)
    requires Wf(s)
    ensures var r := TriggerBackspin(s, now, soundLoaded);
      && r.deck.backspinSounds == s.backspinSounds + (if soundLoaded then 1 else 0)
      && (s.isPlaying && s.player.present ==>
            r.ops == [CancelAll] && !r.deck.isPlaying
            && r.deck.backspinResumes == s.backspinResumes + [CurrentTime(s, now)])
      && (!s.isPlaying ==>
            r.ops == [] && r.deck.backspinResumes == s.backspinResumes
            && r.deck.isPlaying == s.isPlaying)
  {
  }

  /** When a backspin resume fires on a loaded deck, the deck plays again
      from 1.5 s before the remembered position (not before 0, not past the
      end), started at once, and that resume is consumed. */
  lemma BackspinResumeFacts(s: DeckState, now: real)
    requires Wf(s) && |s.backspinResumes| > 0 && s.player.present && s.isLoaded
    ensures var r := BackspinResume(s, now);
      var p := Clamp(Max(0.0, s.backspinResumes[0] - BackspinRewind), 0.0, s.pos.trackDuration);
      && r.deck.isPlaying && r.deck.player.running
      && r.deck.pos.pausedAt == p && r.deck.pos.startTime == now - p
      && r.deck.backspinResumes == s.backspinResumes[1..]
      && !r.deck.snap.isQueued && !r.deck.snap.isGridAligned
  {
    var from := s.backspinResumes[0];
    var s0 := s.(backspinResumes := s.backspinResumes[1..]);
    SeekFacts(s0, now, Max(0.0, from - BackspinRewind));
    var sought := Seek(s0, now, Max(0.0, from - BackspinRewind));
    if !s.isPlaying {
      assert CanPlay(sought.deck) && !BarAligned(sought.deck, false);
      PlayImmediate(sought.deck, now, false);
    } else {
      PlayNoOp(sought.deck, now, false);
    }
  }

  /** Disposing leaves no timeout pending and the player silent. */
  lemma DisposeFacts(s: DeckState)
    ensures Dispose(s).timer == NoTimer && !Dispose(s).player.running
    ensures Dispose(s).isPlaying == s.isPlaying
  {
  }
}
