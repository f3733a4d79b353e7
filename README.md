# DJ deck engine and mixer store

This project models two parts of a two-deck DJ web application: the
per-deck playback engine and the mixer store that drives both decks.

- **The deck engine** (`DeckAudioEngine`, `src/lib/deckAudioEngine.ts`)
  plays one track in one slot. It covers:
  - loading, play and pause, seek, and the cue point;
  - scrubbing, tempo bends and the backspin effect;
  - re-tempo to a global BPM, and the "start on the next bar" grid lock
    against the shared transport clock.
- **The mixer store** (`src/stores/djStore.ts`) holds the two engines and
  what the interface shows for each deck. It also holds the crossfader,
  the global tempo, the tempo-sync switch and the BPM confirmation
  dialog. Its actions start, pause, load, sync and re-tempo the decks.

The model has these modules:

- **`Transport`**: the shared transport clock.
  - A `class` with a running flag, a tempo, and a queue of scheduled
    one-shot starts. Each start is an engine's own bar-aligned start or
    the store's next-bar start.
  - Cancelling clears the whole queue, as the transport's `cancel()`
    does for every deck.
- **`Timing`**: the tempo and bar arithmetic the engine uses.
  - Beat and bar length, the next bar boundary and the schedule time with
    its look-ahead.
  - The playback rate.
  - JavaScript's `Math.round` and its truncating `%`.
- **`SignalParams`**: how the 0–100 knobs map to the effect parameters
  (EQ decibels, filter cut-off, and the gain and wet level). The EQ and
  filter maps each have an inverse and a monotonicity lemma; the level
  map states its inverse in its own contract.
- **`DeckSpec`**: the engine's state as one value (`DeckState`).
  - Its fields are grouped as in the class: the player, the tempo, the
    position, the bar-sync snapshot, the scrub mark and the one shared
    timer slot.
  - Every engine operation is a transition function. It returns the new
    state and the transport operations it issued (schedule a start, or
    cancel everything).
- **`DeckProperties`**: lemmas stating what each transition promises.
- **`DeckEngine`**: the imperative `DeckAudioEngine` class.
  - Each method is proved to perform exactly its `DeckSpec` transition on
    the engine's fields and on the shared transport queue.
- **`BarSync`**: how the store finds the next bar from the transport's
  `bars:beats:sixteenths` position, the time its `"+<b>n"` start fires as
  written, and the bar boundary it was meant to hit.
- **`DjStore`**: the store.
  - Deck display state, effect patches and the sync helpers are values.
  - The store itself is the `Mixer` class. It holds the two nullable
    engines, the two deck records and the shared settings, and its
    methods are the store's actions.

Modelling choices:

- One `now` parameter stands for both of the source's clocks: the transport position `Tone.Transport.seconds` and `Tone.Transport.now()`. "## Left out" says where this matters.
- Whether audio decoding succeeded is an input (`LoadOutcome`).
- A due scheduled start is run by `Mixer.RunDue`.

`loadTrack` (`src/lib/deckAudioEngine.ts:80-127`) never calls
`Tone.Transport.cancel()`, so a bar-aligned start queued before a reload
survives it. `DeckProperties.StaleStartSurvivesReload` shows the
consequence: when that start fires it sets the freshly loaded player
running, although the deck is not marked playing.

## Model

| member | source | states |
|---|---|---|
| Optional.Option.GetOr | src/lib/deckAudioEngine.ts:479 | an optional argument yields its value when given and the fallback otherwise |
| Transport.Other | src/stores/djStore.ts:130 | the other slot is never the same slot |
| Transport.Transport.constructor | src/stores/djStore.ts:122-126 | the transport starts out stopped, at Tone's default 120 BPM, with nothing scheduled, until the store starts it |
| Transport.Transport.Start | src/stores/djStore.ts:124 | the transport runs; tempo and queue are unchanged |
| Transport.Transport.Stop | src/stores/djStore.ts:554 | the transport stops; tempo and queue are unchanged |
| Transport.Transport.SetBpm | src/stores/djStore.ts:414 | only the tempo changes, to the given value |
| Transport.Transport.Schedule | src/lib/deckAudioEngine.ts:309-317 | the event is appended behind every earlier one, so equal times fire in registration order |
| Transport.Transport.Cancel | src/lib/deckAudioEngine.ts:354 | every pending event of every deck is dropped |
| Transport.Transport.TakeDue | src/lib/deckAudioEngine.ts:309-317 | the event at the given index is returned and removed, with the others kept in order |
| Timing.Clamp | src/lib/deckAudioEngine.ts:368 | the result lies in [lo, hi], equals x inside it, and saturates at lo below and at hi above |
| Timing.JsRound | src/stores/djStore.ts:409 | a whole number within half a unit of x, with halves rounded up |
| Timing.JsRemInt | src/lib/deckAudioEngine.ts:235 | the truncating remainder: below n in magnitude, with the sign of the dividend, and the dividend is the truncated quotient times n plus the remainder |
| Timing.JsRemReal | src/stores/djStore.ts:171 | the remainder has the sign of x and is below n in magnitude, x minus it is a whole number of n, and it is x itself when 0 ≤ x < n |
| Timing.BeatDuration | src/lib/deckAudioEngine.ts:160 | a positive tempo gives a positive beat length |
| Timing.BarDuration | src/lib/deckAudioEngine.ts:161 | a positive tempo gives a positive bar length |
| Timing.NextBarBoundary | src/lib/deckAudioEngine.ts:162-165 | the next bar line lies strictly after t and at most one bar later, and on the bar grid |
| Timing.ScheduleTime | src/lib/deckAudioEngine.ts:293-302 | the start is at or after both the next bar line and now plus the look-ahead, and is one of the two |
| Timing.PlaybackRateMeaning | src/lib/deckAudioEngine.ts:266-272 | the rate times the original tempo is the target tempo; it is positive for a positive target and 1 exactly when the tempos agree |
| Timing.OnBoundaryWaitsWholeBar | src/lib/deckAudioEngine.ts:293-302 | exactly on a bar line with a look-ahead under a bar, the start waits a whole bar |
| Timing.JsRoundWhole | src/stores/djStore.ts:409 | rounding leaves a whole tempo unchanged |
| SignalParams.EqDb | src/lib/deckAudioEngine.ts:525-533 | a knob in [0, 100] gives [-15, +15] dB; the gain is 0 dB exactly at 50 and a cut exactly below 50 |
| SignalParams.EqDbRoundTrip | src/lib/deckAudioEngine.ts:526-528 | the knob position is recovered from the decibel value |
| SignalParams.EqDbMonotone | src/lib/deckAudioEngine.ts:526-528 | turning the knob up never lowers the gain |
| SignalParams.FilterFrequency | src/lib/deckAudioEngine.ts:541-549 | the cut-off lies in [20 Hz, 20 kHz], is fully open from 50 up, and is 20 Hz at 0 |
| SignalParams.FilterRoundTrip | src/lib/deckAudioEngine.ts:543-547 | below 50 the knob position is recovered from the cut-off |
| SignalParams.FilterMonotone | src/lib/deckAudioEngine.ts:543-547 | turning the filter knob up never lowers the cut-off |
| SignalParams.KnobLevel | src/lib/deckAudioEngine.ts:535-561 | the gain level and the reverb and delay wet mix are the knob over 100, so a knob in [0, 100] gives a level in [0, 1] |
| DeckSpec.ApplyOpsAppend | src/lib/deckAudioEngine.ts:309-358 | issuing two batches of transport operations one after the other equals issuing them together |
| DeckSpec.LoadTrack | src/lib/deckAudioEngine.ts:80-127 | loading keeps the deck well-formed (non-zero global tempo, non-negative duration) |
| DeckSpec.Play | src/lib/deckAudioEngine.ts:284-342 | playing keeps the deck well-formed |
| DeckSpec.Pause | src/lib/deckAudioEngine.ts:344-358 | pausing keeps the deck well-formed |
| DeckSpec.Seek | src/lib/deckAudioEngine.ts:360-380 | seeking keeps the deck well-formed |
| DeckSpec.Scrub | src/lib/deckAudioEngine.ts:385-433 | scrubbing keeps the deck well-formed |
| DeckSpec.JumpToCue | src/lib/deckAudioEngine.ts:484-488 | jumping to the cue keeps the deck well-formed |
| DeckSpec.SetGlobalBPMSync | src/lib/deckAudioEngine.ts:248-261 | re-tempo to a non-zero global tempo keeps the deck well-formed |
| DeckSpec.ReSnapToGrid | src/lib/deckAudioEngine.ts:210-221 | re-snapping keeps the deck well-formed |
| DeckSpec.TriggerBackspin | src/lib/deckAudioEngine.ts:563-584 | a backspin keeps the deck well-formed |
| DeckSpec.BackspinResume | src/lib/deckAudioEngine.ts:574-580 | the delayed re-seek after a backspin keeps the deck well-formed |
| DeckProperties.LoadSuccess | src/lib/deckAudioEngine.ts:99-118 | a decoded track resets position, cue and offset to 0, records duration and original tempo, puts global and current tempo at 128, sets the rate so that rate times original is 128, and queues the deck on the grid no earlier than the next bar and the 0.1 s look-ahead |
| DeckProperties.LoadFailure | src/lib/deckAudioEngine.ts:122-126 | a failed decode leaves the deck unloaded with a fresh stopped player at rate 1, keeping position, cue, duration, tempo and the playing flag |
| DeckProperties.PrepareForBeatSyncBounds | src/lib/deckAudioEngine.ts:153-186 | without a loaded player nothing changes; otherwise the deck is queued on the grid at the later of the next bar and now plus 0.1 s, with position and playing flag kept |
| DeckProperties.PlayNoOp | src/lib/deckAudioEngine.ts:285-287 | play does nothing unless a loaded player is present and the deck is not playing |
| DeckProperties.PlayBranch | src/lib/deckAudioEngine.ts:289-335 | a playable deck becomes playing, and it schedules a transport start exactly when it is grid-aligned and queued and not playing from the cue |
| DeckProperties.PlayBarAligned | src/lib/deckAudioEngine.ts:289-321 | the bar-aligned branch schedules one start no earlier than the next bar and now plus 0.05 s, with one clock standing for both of the source's clocks, records it with the paused offset, and leaves the player as it was until the start fires |
| DeckProperties.PlayImmediate | src/lib/deckAudioEngine.ts:323-335 | the immediate branch schedules nothing, starts the player from the cue or the paused position, anchors the start time so the position reads the offset scaled by the rate, and clears every grid flag |
| DeckProperties.ScheduledStartFires | src/lib/deckAudioEngine.ts:309-317 | a queued start that fires runs the player anchored at the fire time and clears the queue and waiting flags; otherwise nothing changes |
| DeckProperties.PauseFacts | src/lib/deckAudioEngine.ts:344-358 | pausing a playing deck cancels the transport, stops the player, stores the current position and clears every grid flag; otherwise nothing changes |
| DeckProperties.PauseDropsQueuedStart | src/lib/deckAudioEngine.ts:352-354 | after a pause no scheduled start remains, and a stale start firing would change nothing |
| DeckProperties.PausePlayRoundTrip | src/lib/deckAudioEngine.ts:323-358 | an immediate play followed by a pause at the same instant returns to the paused position exactly when the rate is 1 or the position is 0 |
| DeckProperties.SeekFacts | src/lib/deckAudioEngine.ts:360-380 | seek moves to the position clamped to the track, clears every grid flag, keeps the playing flag, and when playing cancels the transport and restarts from there |
| DeckProperties.SeekUnloaded | src/lib/deckAudioEngine.ts:361 | without a loaded player a seek does nothing |
| DeckProperties.JumpToCueLands | src/lib/deckAudioEngine.ts:484-488 | a cue inside the track becomes the position, with the playing flag kept |
| DeckProperties.JumpToCueIgnored | src/lib/deckAudioEngine.ts:485 | with no track loaded or a negative cue, jumping does nothing |
| DeckProperties.SetCuePointFacts | src/lib/deckAudioEngine.ts:477-482 | the cue becomes the given position or the current time, only when a track is loaded, and the paused position is untouched |
| DeckProperties.ScrubPlaying | src/lib/deckAudioEngine.ts:396-409 | while playing, scrubbing sets the rate to the base rate times 1 + 2·velocity clamped to [0.1, 4], marks scrubbing, records the start of the scrub, and arms the stop timer |
| DeckProperties.ScrubStopped | src/lib/deckAudioEngine.ts:411-421 | while stopped, scrubbing nudges the paused position by a tenth of the velocity, clamped to the track |
| DeckProperties.ScrubUnloaded | src/lib/deckAudioEngine.ts:386 | without a loaded player scrubbing does nothing |
| DeckProperties.ScrubQuiescence | src/lib/deckAudioEngine.ts:426-454 | when the scrub timer fires, scrubbing ends, the timer is clear, and a playing deck is back at its base rate |
| DeckProperties.StopScrubbingIdle | src/lib/deckAudioEngine.ts:439 | stopping a scrub that is not in progress does nothing |
| DeckProperties.BendFacts | src/lib/deckAudioEngine.ts:456-475 | a bend sets the rate to base times bend; a bend other than 1 reverts to the base rate when its timer fires |
| DeckProperties.BendDuringScrubLeavesScrubbing | src/lib/deckAudioEngine.ts:429-472 | a bend during a scrub replaces the scrub's timer, so the scrub never ends by itself |
| DeckProperties.SetGlobalBPMSyncTempo | src/lib/deckAudioEngine.ts:248-261 | global and current tempo become the target and the beat interval is 60/target; a loaded deck is re-queued on the grid |
| DeckProperties.UpdatePlaybackRateOnlyRates | src/lib/deckAudioEngine.ts:266-272 | recomputing the rate changes only the base rate and the player's rate |
| DeckProperties.SetGlobalBPMSyncRate | src/lib/deckAudioEngine.ts:253-268 | with a known original tempo, the rate times the original is the global tempo, the player runs at it, and it is 1 exactly when the tempos agree |
| DeckProperties.ReSnapFacts | src/lib/deckAudioEngine.ts:210-221 | re-snapping leaves the deck stopped and queued on the grid, and cancels the transport exactly when it was playing |
| DeckProperties.GridPositionFacts | src/lib/deckAudioEngine.ts:226-243 | a loaded deck reports bar ≥ 1 and beat in 1..4 counting the whole beats elapsed, with its grid flags; an unloaded deck reports bar 1, beat 1 |
| DeckProperties.WholeQuarter | src/lib/deckAudioEngine.ts:234 | flooring a quarter of a whole beat count is integer division by 4 |
| DeckProperties.StoppedPositionHolds | src/lib/deckAudioEngine.ts:490-499 | a deck that is not playing reports a position that does not move with the clock: its paused offset `pausedAt` when a player is loaded, and 0 without one |
| DeckProperties.PlayingPositionAdvances | src/lib/deckAudioEngine.ts:491-493 | a playing deck's position advances by the elapsed clock time times the base rate |
| DeckProperties.PlayingPositionUnclamped | src/lib/deckAudioEngine.ts:491-493 | a playing deck's position is not clamped to the track: it reads one second past the end when the clock is one track-second past it |
| DeckProperties.StaleStartSurvivesReload | src/lib/deckAudioEngine.ts:80-127 | a bar-aligned start queued before a reload stays queued and, when it fires, runs the new player while the deck is not playing |
| DeckProperties.BackspinFacts | src/lib/deckAudioEngine.ts:563-584 | a backspin counts the sound when loaded; if playing it cancels the transport, pauses, and queues a resume at the position it had |
| DeckProperties.BackspinResumeFacts | src/lib/deckAudioEngine.ts:574-580 | the resume plays from 1.5 s before the captured position, clamped to the track, and consumes that resume |
| DeckProperties.DisposeFacts | src/lib/deckAudioEngine.ts:619-644 | disposing clears the pending timer and stops the player |
| DeckEngine.DeckAudioEngine.constructor | src/lib/deckAudioEngine.ts:46-78 | a new engine is bound to its slot and the transport, and is in the initial state |
| DeckEngine.DeckAudioEngine.GetCurrentTime | src/lib/deckAudioEngine.ts:490-499 | the engine reports `DeckSpec.CurrentTime` of its state: `pausedAt` when loaded and stopped, 0 when unloaded (`StoppedPositionHolds`), and a position advancing by elapsed time × rate, unclamped past the end, while playing (`PlayingPositionAdvances`, `PlayingPositionUnclamped`) |
| DeckEngine.DeckAudioEngine.GetGridPosition | src/lib/deckAudioEngine.ts:226-243 | reads the grid position of the engine's state |
| DeckEngine.DeckAudioEngine.LoadTrack | src/lib/deckAudioEngine.ts:80-127 | performs the load transition and reports whether decoding succeeded |
| DeckEngine.DeckAudioEngine.UpdatePlaybackRate | src/lib/deckAudioEngine.ts:266-272 | performs the rate update on the fields |
| DeckEngine.DeckAudioEngine.PrepareForBeatSync | src/lib/deckAudioEngine.ts:153-186 | performs the grid preparation on the fields |
| DeckEngine.DeckAudioEngine.Play | src/lib/deckAudioEngine.ts:284-342 | performs the play transition and applies its transport operations to the shared queue |
| DeckEngine.DeckAudioEngine.OnScheduledStart | src/lib/deckAudioEngine.ts:309-317 | performs the scheduled-start callback on the fields |
| DeckEngine.DeckAudioEngine.Pause | src/lib/deckAudioEngine.ts:344-358 | performs the pause transition and its transport cancel |
| DeckEngine.DeckAudioEngine.Seek | src/lib/deckAudioEngine.ts:360-380 | performs the seek transition and its transport cancel |
| DeckEngine.DeckAudioEngine.Scrub | src/lib/deckAudioEngine.ts:385-433 | performs the scrub transition on the fields |
| DeckEngine.DeckAudioEngine.StopScrubbing | src/lib/deckAudioEngine.ts:438-454 | performs the end of a scrub on the fields |
| DeckEngine.DeckAudioEngine.FireTimer | src/lib/deckAudioEngine.ts:430-472 | performs whichever of the scrub-stop or bend-revert timers is armed |
| DeckEngine.DeckAudioEngine.BendTempo | src/lib/deckAudioEngine.ts:456-475 | performs the bend transition on the fields |
| DeckEngine.DeckAudioEngine.SetCuePoint | src/lib/deckAudioEngine.ts:477-482 | performs the cue-point transition on the fields |
| DeckEngine.DeckAudioEngine.JumpToCue | src/lib/deckAudioEngine.ts:484-488 | performs the jump-to-cue transition and its transport operations |
| DeckEngine.DeckAudioEngine.SetGlobalBPMSync | src/lib/deckAudioEngine.ts:248-261 | performs the re-tempo transition on the fields |
| DeckEngine.DeckAudioEngine.ReSnapToGrid | src/lib/deckAudioEngine.ts:210-221 | performs the re-snap transition and its transport cancel |
| DeckEngine.DeckAudioEngine.TriggerBackspin | src/lib/deckAudioEngine.ts:563-584 | performs the backspin transition and its transport cancel |
| DeckEngine.DeckAudioEngine.FireBackspinResume | src/lib/deckAudioEngine.ts:574-580 | performs the delayed resume and its transport operations |
| DeckEngine.DeckAudioEngine.Dispose | src/lib/deckAudioEngine.ts:619-644 | performs the teardown transition on the fields |
| BarSync.PositionAt | src/stores/djStore.ts:168-169 | the transport position is well-formed 4/4 and its beat count times the beat length is the elapsed time |
| BarSync.BeatsUntilNextBar | src/stores/djStore.ts:170-171 | the beats left lie in (0, 4] and are 4 minus the beat within the bar |
| BarSync.NextBarStartTime | src/stores/djStore.ts:168-193 | waiting the beats left in the bar lands exactly on the next bar boundary |
| BarSync.NextBarDelayLandsOnBar | src/stores/djStore.ts:168-193 | the time now plus the beats left, in seconds, is the next bar boundary |
| BarSync.AsWrittenLandsOnBarIff | src/stores/djStore.ts:176-193 | the start as written lands on the next bar exactly when two beats are left |
| BarSync.PositionAtOrigin | src/stores/djStore.ts:168-169 | at the transport origin the position reads 0:0:0 |
| BarSync.AsWrittenMissesBar | src/stores/djStore.ts:176-193 | at the origin at 120 BPM the start as written fires at 0.5 s while the next bar is at 2 s |
| DjStore.SyncedOriginal | src/stores/djStore.ts:497-504 | a deck takes part in tempo sync exactly when it has a track with a known non-zero original tempo, and then yields that tempo |
| DjStore.RetargetDeck | src/stores/djStore.ts:497-515 | re-tempo keeps the deck well-formed and leaves a deck without an original tempo untouched |
| DjStore.RetargetDeckTempo | src/stores/djStore.ts:456-490 | after re-tempo the current tempo is the global tempo (sync on) or the original (sync off), the rate times the original is that tempo, and the rate is 1 when sync is off |
| DjStore.RetargetLastWins | src/stores/djStore.ts:442-495 | re-tempo twice in a row equals doing only the second one |
| DjStore.MergeFx | src/stores/djStore.ts:342-352 | each given effect setting replaces the stored one and each absent one is kept |
| DjStore.MergeFxIdempotent | src/stores/djStore.ts:342-352 | applying the same effect patch twice equals applying it once |
| DjStore.MergeFxEmpty | src/stores/djStore.ts:342-352 | an empty effect patch changes nothing |
| DjStore.Forwarded | src/stores/djStore.ts:337-341 | at most three engine calls, exactly one per given setting and none for absent ones |
| DjStore.ReplayAppend | src/stores/djStore.ts:337-341 | replaying two call lists in sequence equals replaying their concatenation |
| DjStore.ForwardedReplaysMerge | src/stores/djStore.ts:335-355 | the engine calls forwarded for a patch leave the engine's effect settings equal to the store's merged settings |
| DjStore.Mixer.constructor | src/stores/djStore.ts:72-95 | no engines yet, default decks, crossfader 50, 128 BPM with sync on, no dialog, and a stopped, empty transport |
| DjStore.Mixer.InitializeAudio | src/stores/djStore.ts:97-113 | once audio starts, two fresh engines in their initial state and a 128 BPM transport; if starting fails nothing changes |
| DjStore.Mixer.PlayDeckOnNextBar | src/stores/djStore.ts:152-196 | a loaded deck is marked syncing and a store start is queued `"+<beatsUntilNextBar>n"` ahead, at the as-written time of the Findings row; otherwise nothing changes |
| DjStore.Mixer.PlayDeck | src/stores/djStore.ts:115-150 | a loaded deck starts the transport at the global tempo if needed, then plays at once when it is deck A or deck A is not playing, and otherwise is queued `"+<beatsUntilNextBar>n"` ahead (the as-written time of the Findings row) |
| DjStore.Mixer.FireStoreStart | src/stores/djStore.ts:176-191 | when the next-bar start fires, a still-loaded deck plays and shows playing and not syncing; otherwise nothing changes |
| DjStore.Mixer.RunDue | src/stores/djStore.ts:176-193 | the next due event is removed and its callback performed: an engine start runs the scheduled-start callback, a store start plays a deck that is still loaded |
| DjStore.Mixer.PauseDeck | src/stores/djStore.ts:198-212 | an existing engine pauses and the deck shows stopped; pausing a playing deck empties the shared transport queue, the other deck's and the store's starts included |
| DjStore.Mixer.LoadTrack | src/stores/djStore.ts:214-222 | only the dialog opens, holding the deck and the track |
| DjStore.Mixer.LoadConfirmed | src/stores/djStore.ts:232-258 | the engine performs the load with the confirmed tempo and, on success with sync on, the re-tempo to the global tempo; on success the deck shows the track with that original tempo and not playing, otherwise it is unchanged |
| DjStore.Mixer.ConfirmTrackBPM | src/stores/djStore.ts:224-262 | without a pending track, an engine or a url nothing changes; otherwise it loads, and on success the dialog closes and the pending track clears |
| DjStore.Mixer.SetEQ | src/stores/djStore.ts:281-295 | a deck with an engine records the new EQ; nothing else changes |
| DjStore.Mixer.SetDeckFX | src/stores/djStore.ts:335-355 | the deck's effects become the merged patch, and exactly the given settings are forwarded when the engine exists |
| DjStore.Mixer.ScrubTrack | src/stores/djStore.ts:357-364 | a loaded deck's engine performs the scrub transition; otherwise the engine is unchanged |
| DjStore.Mixer.TriggerBackspin | src/stores/djStore.ts:366-374 | an existing engine performs the backspin transition and its transport cancel; without one the transport is unchanged |
| DjStore.Mixer.BendTempo | src/stores/djStore.ts:376-384 | a loaded deck's engine performs the bend transition; otherwise the engine is unchanged |
| DjStore.Mixer.SyncDeckToGlobal | src/stores/djStore.ts:497-515 | the deck is re-tempoed to the global tempo when it has an original tempo |
| DjStore.Mixer.SyncDecks | src/stores/djStore.ts:386-405 | with both engines and a track on deck B, deck B is synced, the transport runs at the global tempo, and a loaded deck B is queued `"+<beatsUntilNextBar>n"` ahead at the global tempo (the as-written time of the Findings row); otherwise nothing changes |
| DjStore.Mixer.SetGlobalBPM | src/stores/djStore.ts:407-440 | the global and transport tempo become the rounded value, and a whole tempo is stored exactly as given; with sync on both decks are re-tempoed to it, otherwise the engines are untouched |
| DjStore.Mixer.ToggleBPMSync | src/stores/djStore.ts:442-495 | sync flips, and both decks are re-tempoed to the global tempo (on) or their original tempo (off) |
| DjStore.Mixer.ResetToOriginalBPMs | src/stores/djStore.ts:517-541 | both decks go back to their original tempo at rate 1 |
| DjStore.Mixer.SetShowBPMModal | src/stores/djStore.ts:543-548 | the dialog flag is set, and closing it drops the pending track |
| DjStore.Mixer.Cleanup | src/stores/djStore.ts:550-557 | both engines are disposed, and the transport is stopped and emptied |

## Left out

- The Tone.js audio graph (players, EQ, filter, reverb, delay, gain and pitch-shift nodes, their `rampTo` ramps, and the disposal of nodes) is not modelled. Only the numbers sent to it are.
- `setPitch` (engine and store): it computes `Math.pow(2, cents/1200)` in floating point. It only feeds the pitch-shift node and the display.
- `setVolume` and `setCrossfader`: the equal-power curve uses `Math.cos` and only sets node gains.
- `generateWaveformData` and `getWaveform` are left out. They build display-only arrays from decoded samples and a sine, and the samples are not part of this model.
- `createBeatSyncSequence` and `syncToTransport` only log to the console. All console logging is left out.
- `getBPMInfo` and the `bpmInfo` display field are left out, because `src/lib/bpmDetector.ts` is not part of this model.
- `Timing.CalculatePlaybackRate` is assumed to be target over original, since `src/lib/bpmDetector.ts` is not available.
- `getDuration`, `getBPM` and `getOriginalBPM` only return fields. The model reads those fields from the engine state directly.
- Promises and `await` are modelled as sequential steps, with no interleaving. The store's state snapshot taken before an `await` in `confirmTrackBPM` is therefore read as if nothing changed in between.
- `Tone.start()`, audio decoding and the clock are inputs: `started`, `LoadOutcome` and `now`.
- `DeckSpec.Play` merges the source's two clocks. The bar line comes from the transport position (`Tone.Transport.seconds`, `src/lib/deckAudioEngine.ts:291`) and the 0.05 s floor from `Tone.Transport.now()` (`:301`), and both are `now` here. The source's start lands on the bar line only when the two clocks agree to within 50 ms. After the transport is started, context time usually runs ahead of the transport position, so the floor usually wins and the start misses the bar.
- `DeckEngine.DeckAudioEngine.Play` performs `DeckSpec.Play`, so it has the same merged clock.
- `DeckProperties.PlayBarAligned` states the 0.05 s floor on the merged clock, so its grid lock holds only where the two clocks agree.
- JavaScript numbers are modelled as exact reals. Floating-point rounding and NaN are not modelled.
- The transport's position (`BarSync.PositionAt`) assumes the tempo has been constant since the transport origin. A tempo change while the transport runs is not replayed into the position.
- Tone's note value `"<n>n"` for a whole `n` is a 1/n note: 4/n beats in 4/4 time. Tone's note grammar has whole numbers only, but `beatsUntilNextBar` is fractional whenever the transport is between beats.
- `BarSync.AsWrittenStartTime` also reads a fractional `"+<b>n"` as 4/b beats. This is an assumption about Tone, not checked against Tone's parser. `BarSync.AsWrittenMissesBar` does not depend on it, because there b = 4.
- `BarSync.AsWrittenLandsOnBarIff`: its "only when exactly 2 beats are left" holds under that 4/b assumption. For a fractional b the model does not say how Tone reads the note string.
- A scheduled start that fires after `initializeAudio` replaced the engines acts on the slot's current engine in `DjStore.Mixer.RunDue`. This holds for the store's next-bar start and for an engine's own bar-aligned start.
  - In the source, both callbacks keep the old engine object.
  - The old engine's start would start the old player. In the model it reaches the new engine, where it does nothing, because that engine is not queued.
- Engine timers (scrub stop, bend revert and backspin resume) fire when the caller invokes `FireTimer` or `FireBackspinResume`. Their delays in milliseconds are not modelled.
- The backspin sound player is counted, not played.
- `DjStore.Mixer.PlayDeckOnNextBar` queues the store start at `BarSync.AsWrittenStartTime`, as the source writes it, so it inherits that member's 4/b reading of a fractional note value. Its start is on the bar line only where `BarSync.AsWrittenLandsOnBarIff` says so.
- `DjStore.Mixer.PlayDeck` queues deck B through `PlayDeckOnNextBar`, at `BarSync.AsWrittenStartTime`, so it inherits the same 4/b note-value assumption.
- `DjStore.Mixer.SyncDecks` queues deck B at `BarSync.AsWrittenStartTime` for the global tempo, so it inherits the same 4/b note-value assumption.
- `DjStore.Mixer.SetGlobalBPM` requires the rounded tempo to be positive. The source accepts any number, but a zero or negative tempo leaves beat lengths undefined.
- `DjStore.Mixer.ConfirmTrackBPM` states only the outcome and the dialog fields itself. What happens to the engine and the deck display is stated by `DjStore.Mixer.LoadConfirmed`, which it calls.
- `DjStore.Mixer.ScrubTrack`, `DjStore.Mixer.BendTempo`, `DjStore.Mixer.TriggerBackspin`, `DjStore.Mixer.SetEQ` and `DjStore.Mixer.SetDeckFX` do not state the engine's Tone node updates, which are outside the model.
- `src/components/DJ/FXPanel.tsx` is user interface only and is not modelled. It calls a store action `setFX` and reads a store field `fx`, neither of which `src/stores/djStore.ts` defines.

## Findings

| source | as written | input that shows it | evidently intended | confidence | as-written member | corrected member |
|---|---|---|---|---|---|---|
| src/stores/djStore.ts:168-193 | the next-bar start is scheduled at `"+" + beatsUntilNextBar + "n"`. That is a Tone note value lasting 4 / beatsUntilNextBar beats, not beatsUntilNextBar beats | transport at 0:0:0 at 120 BPM: beatsUntilNextBar is 4, so `"+4n"` fires after one beat at 0.5 s, while the next bar starts at 2.0 s. With the 4/b reading of a fractional note value, it lands on the bar only when exactly 2 beats are left | wait beatsUntilNextBar beats, so the deck starts on the next bar line | not executed | BarSync.AsWrittenMissesBar | BarSync.NextBarStartTime |
